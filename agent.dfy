/** The conversation agent as the object the integration creates: a table
    from conversation id to a mutable list of turns, updated in place by
    `AsyncProcess`. A list is an object, so the list fetched for a known id
    is the very one stored in the table, and appending to it changes the
    table whether or not the call goes on to succeed. */
module ExternalAgent {
  import opened Wrappers
  import opened Conversation

  /** A mutable list of transcript turns. */
  class TurnList {
    var turns: seq<Turn>
    /** The id the list is stored under once it is in a table. */
    ghost const owner: string

    constructor (ghost owner: string)
      ensures turns == [] && this.owner == owner
    {
      turns := [];
      this.owner := owner;
    }

    method Append(t: Turn)
      modifies this
      ensures turns == old(turns) + [t]
    {
      turns := turns + [t];
    }
  }

  /** Whether the health probe made at setup lets the agent be installed:
      only a reply with status 200 does, and its body is ignored. This is the
      same status test a chat reply must pass before its body is read. */
  predicate HealthOk(health: HttpOutcome): (ok: bool)
    ensures ok <==> health.Answered? && !(Exchange(health).Err? && Exchange(health).error.BadStatus?)
  {
    health.Answered? && health.status == 200
  }

  class Agent {
    var history: map<string, TurnList>
    /** The session table as values: each id's transcript. */
    ghost var Transcripts: map<string, seq<Turn>>

    /** Every stored list is in the footprint, holds its id's transcript and
        belongs to that id, so no two sessions share a list. */
    ghost predicate Valid()
      reads this, history.Values
    {
      && (forall id :: id in Transcripts ==> id in history)
      && (forall id :: id in history ==>
            && history[id].owner == id
            && id in Transcripts && history[id].turns == Transcripts[id])
    }

    constructor ()
      ensures Valid() && Transcripts == map[]
    {
      history := map[];
      Transcripts := map[];
    }

    /** The list a call appends to: the stored one when `convId` is a key of
        the table, otherwise a new empty list for the minted id. */
    method Lookup(convId: Option<string>, minted: string) returns (id: string, messages: TurnList)
      requires Valid()
      ensures var s := Resolve(Transcripts, convId, minted);
        && id == s.id && messages.turns == s.prior && messages.owner == id
        && (s.known ==> messages == history[id])
        && (!s.known ==> fresh(messages))
    {
      if convId.Some? && convId.value in history {
        id := convId.value;
        messages := history[id];
      } else {
        id := minted;
        messages := new TurnList(minted);
      }
    }

    /** One conversation turn. `minted` stands for the id the ULID generator
        would return; it is not yet a key of the table. Returns the result,
        the transcript posted to the endpoint and the event fired, if any. */
    method AsyncProcess(convId: Option<string>, text: string, language: string,
                        minted: string, outcome: HttpOutcome)
      returns (result: ConversationResult, request: seq<Turn>, event: Option<FinishedEvent>)
      requires Valid() && minted !in history
      modifies this, history.Values
      ensures Valid()
      ensures Process(old(Transcripts), convId, text, language, minted, outcome)
           == Step(Transcripts, request, result, event)
      ensures forall id :: id in old(history) ==> id in history && history[id] == old(history[id])
    {
      ghost var known := convId.Some? && convId.value in history;
      // the call as the specification describes it
      ghost var spec := Process(Transcripts, convId, text, language, minted, outcome);
      var id, messages := Lookup(convId, minted);
      messages.Append(Turn(User, text));
      request := messages.turns;
      var reply := Exchange(outcome);
      if reply.Ok? {
        messages.Append(Turn(Assistant, reply.value));
        history := history[id := messages];
        Transcripts := Transcripts[id := messages.turns];
        event := Some(FinishedEvent(text, reply.value, id));
        result := ConversationResult(Speech(language, reply.value), id);
      } else {
        if known {
          Transcripts := Transcripts[id := request];
        }
        event := None;
        result := ConversationResult(Error(language, Unknown, ErrorMessage(reply.error)), id);
      }
    }
  }

  /** Setup of a config entry: the agent is created, with an empty table,
      exactly when the health probe succeeds. */
  method SetupEntry(health: HttpOutcome) returns (agent: Agent?)
    ensures agent != null <==> HealthOk(health)
    ensures agent != null ==> fresh(agent) && agent.Valid() && agent.Transcripts == map[]
  {
    if !HealthOk(health) {
      return null;
    }
    agent := new Agent();
  }
}
