/** The turn protocol of the conversation agent as a function on values: one
    call of `async_process` maps the session table it starts from, the input
    and the outcome of the HTTP exchange to the session table it leaves, the
    transcript it posted, the result it returns and the event it fires.
    `ExternalAgent.Agent.AsyncProcess` is proved to do exactly this. */
module Conversation {
  import opened Wrappers
  import Decimal

  datatype Role = User | Assistant

  /** One `{"role": ..., "content": ...}` entry of a transcript. */
  datatype Turn = Turn(role: Role, content: string)

  /** The body of a 200 reply: either it does not decode to a JSON object, or
      it does and may carry a `response` field. */
  datatype Body = Undecodable(reason: string) | Json(response: Option<string>)

  /** What the POST to `{api_url}/chat` came to: no HTTP reply at all (connect
      error, timeout, reset), or a reply with a status and a body. */
  datatype HttpOutcome = Unreachable(reason: string) | Answered(status: nat, body: Body)

  /** The exception the exchange raises, by kind. */
  datatype Failure = Transport(reason: string) | BadStatus(status: nat) | Malformed(reason: string)

  datatype ErrorCode = Unknown

  /** The intent response: spoken text, or an error with a code and a message;
      both carry the input's language. */
  datatype IntentResponse =
    | Speech(language: string, speech: string)
    | Error(language: string, code: ErrorCode, message: string)

  datatype ConversationResult = ConversationResult(response: IntentResponse, conversationId: string)

  /** The payload of the `conversation finished` event. */
  datatype FinishedEvent = FinishedEvent(request: string, response: string, conversationId: string)

  /** Which session a call works on: the id, whether it was already in the
      table, and the transcript the call starts from. */
  datatype Session = Session(id: string, known: bool, prior: seq<Turn>)

  /** Every assistant turn directly follows a user turn: the agent appends
      one user turn per call and, only on success, one assistant turn after
      it; a failed call leaves an unanswered user turn. */
  predicate Alternates(t: seq<Turn>) {
    forall i :: 0 <= i < |t| && t[i].role == Assistant ==> 0 < i && t[i - 1].role == User
  }

  predicate AllAlternate(history: map<string, seq<Turn>>) {
    forall id :: id in history ==> Alternates(history[id])
  }

  /** Everything one call produces. */
  datatype Step = Step(
    history: map<string, seq<Turn>>,
    request: seq<Turn>,
    result: ConversationResult,
    event: Option<FinishedEvent>)

  const ErrorPrefix := "Sorry, I had a problem processing your request: "
  const StatusPrefix := "API request failed with status "

  /** The assistant text a reply yields, or why the exchange failed. Only the
      status decides first; the body is read only for a 200. */
  function Exchange(outcome: HttpOutcome): (r: Result<string, Failure>)
    ensures r.Ok? <==> outcome.Answered? && outcome.status == 200 && outcome.body.Json?
    ensures r.Err? && r.error.BadStatus? <==> outcome.Answered? && outcome.status != 200
    ensures r.Err? && r.error.BadStatus? ==> r.error.status == outcome.status
    ensures r.Ok? ==> r.value == outcome.body.response.GetOr("")
    ensures outcome.Unreachable? ==> r == Err(Transport(outcome.reason))
    ensures outcome.Answered? && outcome.status == 200 && outcome.body.Undecodable?
            ==> r == Err(Malformed(outcome.body.reason))
  {
    match outcome
    case Unreachable(reason) => Err(Transport(reason))
    case Answered(status, body) =>
      if status != 200 then Err(BadStatus(status))
      else match body
        case Undecodable(reason) => Err(Malformed(reason))
        case Json(response) => Ok(response.GetOr(""))
  }

  /** The text of the raised exception: the library's reason as it is, or
      the status message, from which the status can be read back. */
  function FailureText(f: Failure): (t: string)
    ensures !f.BadStatus? ==> t == f.reason
    ensures f.BadStatus? ==> && |t| > |StatusPrefix| && t[..|StatusPrefix|] == StatusPrefix
                             && Decimal.AllDigits(t[|StatusPrefix|..])
                             && Decimal.Parse(t[|StatusPrefix|..]) == f.status
  {
    match f
    case Transport(reason) => reason
    case BadStatus(status) =>
      var t := StatusPrefix + Decimal.Show(status);
      assert t[|StatusPrefix|..] == Decimal.Show(status);
      Decimal.ParseShow(status);
      t
    case Malformed(reason) => reason
  }

  /** The message of the error response: the fixed apology followed by the
      exception's text. */
  function ErrorMessage(f: Failure): (m: string)
    ensures |m| == |ErrorPrefix| + |FailureText(f)|
    ensures m[..|ErrorPrefix|] == ErrorPrefix && m[|ErrorPrefix|..] == FailureText(f)
  {
    ErrorPrefix + FailureText(f)
  }

  /** The id is reused only when it is a key of the table; otherwise the
      minted id starts an empty transcript. */
  function Resolve(history: map<string, seq<Turn>>, convId: Option<string>, minted: string): (s: Session)
    ensures s.known <==> s.id in history && convId == Some(s.id)
    ensures s.known ==> s.prior == history[s.id]
    ensures !s.known ==> s.id == minted && s.prior == []
  {
    if convId.Some? && convId.value in history then Session(convId.value, true, history[convId.value])
    else Session(minted, false, [])
  }

  /** One call of `async_process`: the posted transcript is the resolved
      session's followed by the user turn, the result names the resolved id,
      no other entry of the table changes, and the event fires exactly on
      success. */
  function Process(
    history: map<string, seq<Turn>>, convId: Option<string>, text: string, language: string,
    minted: string, outcome: HttpOutcome): (st: Step)
    ensures st.request == Resolve(history, convId, minted).prior + [Turn(User, text)]
    ensures st.result.conversationId == Resolve(history, convId, minted).id
    ensures st.history - {st.result.conversationId} == history - {st.result.conversationId}
    ensures st.event.Some? <==> Exchange(outcome).Ok?
  {
    var s := Resolve(history, convId, minted);
    var request := s.prior + [Turn(User, text)];
    match Exchange(outcome)
    case Ok(reply) =>
      Step(history[s.id := request + [Turn(Assistant, reply)]], request,
           ConversationResult(Speech(language, reply), s.id),
           Some(FinishedEvent(text, reply, s.id)))
    case Err(f) =>
      Step(if s.known then history[s.id := request] else history, request,
           ConversationResult(Error(language, Unknown, ErrorMessage(f)), s.id),
           None)
  }
}
