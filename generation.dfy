/**
 * The resilient generation client (`getChatbotResponse` and
 * `getFallbackChatbotResponse`): call the backend, and on failure wait and
 * call again while retries remain, ending with a fixed apology. The backend
 * is an oracle; calls and backoff waits are counted.
 */
module Generation {

  datatype ModelId = Primary | Fallback

  /** The name each client passes to `getGenerativeModel`. */
  function ModelName(m: ModelId): string
  {
    match m
    case Primary => "gemini-pro"
    case Fallback => "text-bison-001"
  }

  /** The default retry budget. */
  const MAX_RETRIES: int := 3

  /** The wait before each retry, in milliseconds. */
  const BACKOFF_MS: nat := 2000

  const APOLOGY: string := "I'm sorry, but I'm currently unable to assist you. Please try again later."

  /** What one call of `generateContent` and `text()` gives: the generated text, or a thrown error. */
  datatype Reply = Success(text: string) | Failure

  /** The reply of the backend for a model name and a prompt on the `n`-th call of one retry chain. */
  type Backend = (string, string, nat) -> Reply

  /** The returned string, the number of backend calls and the time spent in backoff waits, in milliseconds. */
  datatype Response = Response(text: string, calls: nat, waitedMs: nat)

  /** Calls allowed with `retries` retries left: the first call plus one per retry. */
  function MaxCalls(retries: int): nat
  {
    if retries > 0 then retries + 1 else 1
  }

  /** One call with `retries` left, `made` calls into the chain. */
  function Respond(model: ModelId, prompt: string, retries: int, backend: Backend, made: nat): (r: Response)
    ensures 1 <= r.calls <= MaxCalls(retries)
    ensures r.waitedMs == BACKOFF_MS * (r.calls - 1)
    decreases if retries > 0 then retries else 0
  {
    match backend(ModelName(model), prompt, made)
    case Success(t) => Response(t, 1, 0)
    case Failure =>
      if retries > 0 then
        var rest := Respond(model, prompt, retries - 1, backend, made + 1);
        Response(rest.text, rest.calls + 1, rest.waitedMs + BACKOFF_MS)
      else Response(APOLOGY, 1, 0)
  }

  function GetChatbotResponse(prompt: string, backend: Backend): (r: Response)
    ensures 1 <= r.calls <= MAX_RETRIES + 1
  {
    Respond(Primary, prompt, MAX_RETRIES, backend, 0)
  }

  function GetFallbackChatbotResponse(prompt: string, backend: Backend): (r: Response)
    ensures 1 <= r.calls <= MAX_RETRIES + 1
  {
    Respond(Fallback, prompt, MAX_RETRIES, backend, 0)
  }

  /** The first successful call decides the answer; it is call number `k + 1` and follows `k` backoff waits. */
  lemma {:induction false} RespondFirstSuccess(model: ModelId, prompt: string, retries: int, backend: Backend, made: nat, k: nat)
    requires k < MaxCalls(retries)
    requires backend(ModelName(model), prompt, made + k).Success?
    requires forall j :: made <= j < made + k ==> backend(ModelName(model), prompt, j).Failure?
    ensures Respond(model, prompt, retries, backend, made)
         == Response(backend(ModelName(model), prompt, made + k).text, k + 1, BACKOFF_MS * k)
    decreases k
  {
    if k > 0 {
      assert backend(ModelName(model), prompt, made).Failure?;
      RespondFirstSuccess(model, prompt, retries - 1, backend, made + 1, k - 1);
    }
  }

  /** When every allowed call fails the client returns exactly the apology, after all calls and one backoff wait between each two. */
  lemma {:induction false} RespondExhausted(model: ModelId, prompt: string, retries: int, backend: Backend, made: nat)
    requires forall j :: made <= j < made + MaxCalls(retries) ==> backend(ModelName(model), prompt, j).Failure?
    ensures Respond(model, prompt, retries, backend, made)
         == Response(APOLOGY, MaxCalls(retries), BACKOFF_MS * (MaxCalls(retries) - 1))
    decreases if retries > 0 then retries else 0
  {
    assert backend(ModelName(model), prompt, made).Failure?;
    if retries > 0 {
      RespondExhausted(model, prompt, retries - 1, backend, made + 1);
    }
  }

  /** The answer is the apology or the text of a successful call within the budget: the client never fails. */
  lemma {:induction false} RespondAnswers(model: ModelId, prompt: string, retries: int, backend: Backend, made: nat)
    ensures var r := Respond(model, prompt, retries, backend, made);
      r.text == APOLOGY || exists j :: made <= j < made + MaxCalls(retries) && backend(ModelName(model), prompt, j) == Success(r.text)
    decreases if retries > 0 then retries else 0
  {
    if backend(ModelName(model), prompt, made).Failure? && retries > 0 {
      RespondAnswers(model, prompt, retries - 1, backend, made + 1);
    }
  }

  /** The two clients are clones: given the same replies for both model names they return the same response. */
  lemma {:induction false} ClientsAgree(prompt: string, retries: int, backend: Backend, made: nat)
    requires forall j :: backend("gemini-pro", prompt, j) == backend("text-bison-001", prompt, j)
    ensures Respond(Primary, prompt, retries, backend, made) == Respond(Fallback, prompt, retries, backend, made)
    decreases if retries > 0 then retries else 0
  {
    if retries > 0 {
      ClientsAgree(prompt, retries - 1, backend, made + 1);
    }
  }

  /** With the default budget and a backend that always fails, the primary client gives up after four calls and six seconds of waiting. */
  lemma DefaultBudgetExhausted(prompt: string, backend: Backend)
    requires forall j :: backend("gemini-pro", prompt, j).Failure?
    ensures GetChatbotResponse(prompt, backend) == Response(APOLOGY, 4, 6000)
  {
    RespondExhausted(Primary, prompt, MAX_RETRIES, backend, 0);
  }
}
