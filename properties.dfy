/** What one call of `async_process` and a run of calls on one session
    promise, proved about the specification in `Conversation`. */
module ConversationProperties {
  import opened Wrappers
  import opened Conversation
  import Decimal

  /** An id that is not a key of the table behaves exactly like no id. */
  lemma UnknownIdActsAsAbsent(
    history: map<string, seq<Turn>>, garbage: string, text: string, language: string,
    minted: string, outcome: HttpOutcome)
    requires garbage !in history
    ensures Process(history, Some(garbage), text, language, minted, outcome)
         == Process(history, None, text, language, minted, outcome)
  {
  }

  /** The posted transcript is the prior transcript of the session followed
      by exactly one user turn carrying the input text, on every path. */
  lemma RequestIsPriorPlusUserTurn(
    history: map<string, seq<Turn>>, convId: Option<string>, text: string, language: string,
    minted: string, outcome: HttpOutcome)
    ensures var s := Resolve(history, convId, minted);
      var st := Process(history, convId, text, language, minted, outcome);
      && |st.request| == |s.prior| + 1
      && st.request[..|s.prior|] == s.prior
      && st.request[|s.prior|] == Turn(User, text)
  {
  }

  /** A successful call stores the prior transcript followed by the user turn
      and the assistant turn, speaks the reply, and names the session. */
  lemma SuccessAppendsTwoTurns(
    history: map<string, seq<Turn>>, convId: Option<string>, text: string, language: string,
    minted: string, outcome: HttpOutcome)
    requires Exchange(outcome).Ok?
    ensures var s := Resolve(history, convId, minted);
      var reply := Exchange(outcome).value;
      var st := Process(history, convId, text, language, minted, outcome);
      && s.id in st.history
      && st.history[s.id] == s.prior + [Turn(User, text), Turn(Assistant, reply)]
      && |st.history[s.id]| == |s.prior| + 2
      && st.result == ConversationResult(Speech(language, reply), s.id)
  {
  }

  /** A 200 reply whose JSON object has no `response` field is a success with
      empty assistant text. */
  lemma MissingResponseIsEmptyReply(
    history: map<string, seq<Turn>>, convId: Option<string>, text: string, language: string,
    minted: string)
    ensures var s := Resolve(history, convId, minted);
      var st := Process(history, convId, text, language, minted, Answered(200, Json(None)));
      && st.result.response == Speech(language, "")
      && st.history[s.id] == s.prior + [Turn(User, text), Turn(Assistant, "")]
  {
  }

  /** Any failure (no reply, a status other than 200, a body that does not
      decode) yields an error response with code UNKNOWN whose message embeds
      the failure text, fires no event, and appends no assistant turn. */
  lemma FailureIsUnknownError(
    history: map<string, seq<Turn>>, convId: Option<string>, text: string, language: string,
    minted: string, outcome: HttpOutcome)
    requires Exchange(outcome).Err?
    ensures var s := Resolve(history, convId, minted);
      var f := Exchange(outcome).error;
      var st := Process(history, convId, text, language, minted, outcome);
      && st.result.response.Error?
      && st.result.response.code == Unknown
      && st.result.response.language == language
      && st.result.response.message == ErrorPrefix + FailureText(f)
      && st.event == None
      && st.history == (if s.known then history[s.id := s.prior + [Turn(User, text)]] else history)
  {
  }

  /** A non-200 status is reported by number, and the message tells apart
      any two statuses; the body of such a reply is never looked at. */
  lemma BadStatusNamesStatus(status: nat, other: nat, body: Body)
    requires status != 200 && other != 200
    ensures Exchange(Answered(status, body)) == Err(BadStatus(status))
    ensures ErrorMessage(BadStatus(status)) == ErrorPrefix + (StatusPrefix + Decimal.Show(status))
    ensures ErrorMessage(BadStatus(status)) == ErrorMessage(BadStatus(other)) <==> status == other
  {
    if ErrorMessage(BadStatus(status)) == ErrorMessage(BadStatus(other)) {
      SameRest(ErrorPrefix, StatusPrefix + Decimal.Show(status), StatusPrefix + Decimal.Show(other));
      SameRest(StatusPrefix, Decimal.Show(status), Decimal.Show(other));
      Decimal.ShowInjective(status, other);
    }
  }

  lemma SameRest(prefix: string, a: string, b: string)
    requires prefix + a == prefix + b
    ensures a == b
  {
    assert a == (prefix + a)[|prefix|..];
  }

  /** A failed call on a known session keeps the dangling user turn in the
      table: the stored list is the one the user turn was appended to. */
  lemma FailureOnKnownSessionKeepsUserTurn(
    history: map<string, seq<Turn>>, id: string, text: string, language: string,
    minted: string, outcome: HttpOutcome)
    requires id in history && Exchange(outcome).Err?
    ensures var st := Process(history, Some(id), text, language, minted, outcome);
      && st.history == history[id := history[id] + [Turn(User, text)]]
      && |st.history[id]| == |history[id]| + 1
      && st.result.conversationId == id
  {
  }

  /** A failed first turn leaves the table as it was: the returned id is not
      a key, so retrying with it mints yet another id and starts over. */
  lemma FailedFirstTurnIsForgotten(
    history: map<string, seq<Turn>>, convId: Option<string>, text: string, language: string,
    minted: string, outcome: HttpOutcome, retryText: string, retryMinted: string)
    requires convId.None? || convId.value !in history
    requires minted !in history
    requires Exchange(outcome).Err?
    ensures var st := Process(history, convId, text, language, minted, outcome);
      && st.history == history
      && st.result.conversationId == minted
      && minted !in st.history
      && Resolve(st.history, Some(st.result.conversationId), retryMinted)
         == Session(retryMinted, false, [])
  {
  }

  /** The call touches only the resolved session: every other entry keeps its
      key and transcript, and the set of keys grows only by a new session's
      id and only on success. The id is returned on every path, and the event
      fires exactly on success, naming the input text, the reply and the id. */
  lemma OnlyResolvedSessionChanges(
    history: map<string, seq<Turn>>, convId: Option<string>, text: string, language: string,
    minted: string, outcome: HttpOutcome)
    ensures var s := Resolve(history, convId, minted);
      var st := Process(history, convId, text, language, minted, outcome);
      && st.history - {s.id} == history - {s.id}
      && st.history.Keys == (if Exchange(outcome).Ok? then history.Keys + {s.id} else history.Keys)
      && st.result.conversationId == s.id
      && (st.event.Some? <==> Exchange(outcome).Ok?)
      && (st.event.Some? ==> st.event.value == FinishedEvent(text, Exchange(outcome).value, s.id))
  {
  }

  /** Every call keeps each stored transcript alternating. */
  lemma ProcessPreservesAlternation(
    history: map<string, seq<Turn>>, convId: Option<string>, text: string, language: string,
    minted: string, outcome: HttpOutcome)
    requires AllAlternate(history)
    ensures AllAlternate(Process(history, convId, text, language, minted, outcome).history)
  {
  }

  /** One attempt of a caller: its text, language and the exchange's outcome. */
  datatype Attempt = Attempt(text: string, language: string, outcome: HttpOutcome)

  /** The table after a run of calls that all pass `id`. Each call is also
      given `id` as its minted id; that value is never used, because the
      sessions this is applied to already hold `id` as a key, and a call on a
      known id keeps it a key. */
  function Replay(history: map<string, seq<Turn>>, id: string, attempts: seq<Attempt>): (after: map<string, seq<Turn>>)
    decreases |attempts|
  {
    if attempts == [] then history
    else
      var a := attempts[0];
      Replay(Process(history, Some(id), a.text, a.language, id, a.outcome).history, id, attempts[1..])
  }

  /** How many attempts of a run succeed. */
  function Successes(attempts: seq<Attempt>): (n: nat)
    ensures n <= |attempts|
    decreases |attempts|
  {
    if attempts == [] then 0
    else (if Exchange(attempts[0].outcome).Ok? then 1 else 0) + Successes(attempts[1..])
  }

  /** Once a session is in the table, a run of calls with its id only ever
      appends to its transcript: two turns per success, one per failure; the
      other sessions are left alone. */
  lemma {:induction false} SessionGrowth(history: map<string, seq<Turn>>, id: string, attempts: seq<Attempt>)
    requires id in history
    ensures var after := Replay(history, id, attempts);
      && id in after
      && |after[id]| == |history[id]| + 2 * Successes(attempts) + (|attempts| - Successes(attempts))
      && after[id][..|history[id]|] == history[id]
      && after - {id} == history - {id}
    decreases |attempts|
  {
    if attempts != [] {
      var a := attempts[0];
      var next := Process(history, Some(id), a.text, a.language, id, a.outcome).history;
      assert id in next && next - {id} == history - {id};
      assert next[id][..|history[id]|] == history[id];
      SessionGrowth(next, id, attempts[1..]);
      var after := Replay(next, id, attempts[1..]);
      assert after[id][..|next[id]|][..|history[id]|] == after[id][..|history[id]|];
    }
  }

  /** A first turn without an id, answered with `{"response": "hi"}`, opens
      a session under the minted id holding both turns and speaks the reply. */
  lemma FirstTurnOpensSession()
    ensures Process(map[], None, "hello", "en", "T1", Answered(200, Json(Some("hi"))))
         == Step(map["T1" := [Turn(User, "hello"), Turn(Assistant, "hi")]], [Turn(User, "hello")],
                 ConversationResult(Speech("en", "hi"), "T1"), Some(FinishedEvent("hello", "hi", "T1")))
  {
    assert [] + [Turn(User, "hello")] == [Turn(User, "hello")];
    assert [Turn(User, "hello")] + [Turn(Assistant, "hi")] == [Turn(User, "hello"), Turn(Assistant, "hi")];
  }

  /** A second turn with the returned id posts the whole transcript and
      stores both new turns after it. */
  lemma SecondTurnContinuesSession()
    ensures var st := Process(map["T1" := [Turn(User, "hello"), Turn(Assistant, "hi")]], Some("T1"), "bye", "en",
                              "T2", Answered(200, Json(Some("goodbye"))));
      && st.request == [Turn(User, "hello"), Turn(Assistant, "hi"), Turn(User, "bye")]
      && st.history == map["T1" := [Turn(User, "hello"), Turn(Assistant, "hi"), Turn(User, "bye"), Turn(Assistant, "goodbye")]]
      && st.result == ConversationResult(Speech("en", "goodbye"), "T1")
  {
    var prior := [Turn(User, "hello"), Turn(Assistant, "hi")];
    assert prior + [Turn(User, "bye")] == [Turn(User, "hello"), Turn(Assistant, "hi"), Turn(User, "bye")];
    assert prior + [Turn(User, "bye")] + [Turn(Assistant, "goodbye")]
        == [Turn(User, "hello"), Turn(Assistant, "hi"), Turn(User, "bye"), Turn(Assistant, "goodbye")];
  }

  /** A status 500 on a known session keeps the dangling user turn, returns
      the id and reports the status in the error message. */
  lemma Status500KeepsDanglingTurn(prior: seq<Turn>)
    ensures var st := Process(map["T1" := prior], Some("T1"), "again", "en", "T3", Answered(500, Json(None)));
      && st.history == map["T1" := prior + [Turn(User, "again")]]
      && st.result == ConversationResult(Error("en", Unknown, ErrorMessage(BadStatus(500))), "T1")
      && st.event == None
    ensures FailureText(BadStatus(500)) == StatusPrefix + "500"
  {
    assert Decimal.Show(500) == "500" by {
      assert Decimal.Show(5) == "5";
      assert Decimal.Show(50) == "50";
    }
  }
}
