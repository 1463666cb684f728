# Conversation relay agent, modelled in Dafny

This project models the Home Assistant integration `home_assistant_chat_to_api`.
The integration is a conversation agent. It keeps a table from conversation id to
a transcript of `{role, content}` turns. It forwards each new user utterance,
together with the whole transcript, to an external chat endpoint. It then turns
the endpoint's reply into a spoken response or an error response.

The model has four parts:

- `Conversation` (`conversation.dfy`) describes one call of `async_process` as a
  function on values, `Process`. It maps the session table, the input, and the
  outcome of the HTTP exchange to four things: the new table, the transcript
  posted, the result, and the event fired.
- `ConversationProperties` (`properties.dfy`) proves what that call promises. It
  also proves what a run of calls on one session promises.
- `ExternalAgent` (`agent.dfy`) is the agent object itself.
  - Its `history` field maps each id to a `TurnList` object, which stands for the
    mutable Python list.
  - `AsyncProcess` resolves the session, appends to the list in place, and stores
    the list back on success.
  - `AsyncProcess` is proved to do exactly what `Conversation.Process` describes.
    This proof covers the aliasing in the source: for a known id, the list it
    appends to is the very list stored in the table.
- `Decimal` (`decimal.dfy`) renders an HTTP status as decimal text, as the error
  message does. `Wrappers` (`wrappers.dfy`) defines `Option` and `Result`.

The HTTP exchange is replaced by a value of type `HttpOutcome`:
- `Unreachable(reason)` means there was no reply at all (connect error, timeout,
  reset).
- `Answered(status, body)` is a reply. Its body is either `Undecodable(reason)` or
  `Json(response)`, where `response` is the optional `response` field.
- A status other than 200 fails before the body is read, as the source does.

The id a ULID generator would mint is passed in as `minted`. `AsyncProcess`
requires that it is not already a key.

What a failed call leaves behind depends on whether its session already exists:

- The error result carries the session id on every path (`__init__.py:131`).
- A retry with that id continues the session only when the id was already a key.
- When the first turn of a new conversation fails, nothing is stored. Line 79
  makes a fresh list, and only line 106 stores it.
- So a retry with the returned id mints another id. `FailedFirstTurnIsForgotten`
  proves this.
- For the same reason, `SessionGrowth` assumes that the session already exists.

## Model

| member | source | states |
|---|---|---|
| `ExternalAgent.Agent.constructor` | custom_components/home_assistant_chat_to_api/__init__.py:58-62 | a new agent has an empty session table |
| `ExternalAgent.Agent.Lookup` | custom_components/home_assistant_chat_to_api/__init__.py:73-79 | a key of the table yields the very list stored under it; any other input yields a new empty list under the minted id |
| `ExternalAgent.Agent.AsyncProcess` | custom_components/home_assistant_chat_to_api/__init__.py:69-132 | the new table, the posted transcript, the result and the event are exactly those of `Conversation.Process`; the stored lists keep their identity; no two ids share a list |
| `ExternalAgent.TurnList.Append` | custom_components/home_assistant_chat_to_api/__init__.py:82-85 | appending adds exactly one turn at the end of the list |
| `ExternalAgent.SetupEntry` | custom_components/home_assistant_chat_to_api/__init__.py:37-53 | an agent with an empty table is created exactly when the health probe answers with status 200; a transport error or any other status creates none |
| `Conversation.Exchange` | custom_components/home_assistant_chat_to_api/__init__.py:92-98 | the exchange succeeds exactly on a 200 reply whose body decodes, and its value is the `response` field or the empty string when the field is absent; a non-200 status fails as `BadStatus` with that status, whatever the body; no reply fails as `Transport` with its reason; a 200 reply whose body does not decode fails as `Malformed` with its reason |
| `Conversation.FailureText` | custom_components/home_assistant_chat_to_api/__init__.py:95 | a bad status is reported as the fixed prefix followed by decimal digits that read back as the status; any other failure is reported by its own reason text |
| `Conversation.ErrorMessage` | custom_components/home_assistant_chat_to_api/__init__.py:126-129 | the error message is the apology prefix followed by exactly the failure text |
| `Conversation.Resolve` | custom_components/home_assistant_chat_to_api/__init__.py:73-79 | the given id is reused exactly when it is a key, with its stored transcript; otherwise the minted id starts an empty transcript |
| `Conversation.Process` | custom_components/home_assistant_chat_to_api/__init__.py:69-132 | the posted transcript is the resolved prior transcript plus one user turn; the result names the resolved id; no other entry of the table changes; the event fires exactly when the exchange succeeds |
| `ExternalAgent.HealthOk` | custom_components/home_assistant_chat_to_api/__init__.py:44-46 | setup succeeds exactly when the probe is answered and does not fail as a bad status, that is, when it answers with status 200 |
| `ConversationProperties.UnknownIdActsAsAbsent` | custom_components/home_assistant_chat_to_api/__init__.py:73-79 | a call with an id that is not a key behaves identically to a call with no id |
| `ConversationProperties.RequestIsPriorPlusUserTurn` | custom_components/home_assistant_chat_to_api/__init__.py:75-93 | the posted transcript is the prior transcript, in order, followed by exactly one user turn with the input text |
| `ConversationProperties.SuccessAppendsTwoTurns` | custom_components/home_assistant_chat_to_api/__init__.py:98-121 | on success the stored transcript is the prior one plus the user turn and the assistant turn (two longer), and the reply is spoken under the session id |
| `ConversationProperties.MissingResponseIsEmptyReply` | custom_components/home_assistant_chat_to_api/__init__.py:97-104 | a 200 reply without a `response` field is a success whose assistant turn and speech are empty |
| `ConversationProperties.FailureIsUnknownError` | custom_components/home_assistant_chat_to_api/__init__.py:123-132 | any failure gives an error response with code UNKNOWN, the input's language and a message that embeds the failure text; no event fires and no assistant turn is stored |
| `ConversationProperties.BadStatusNamesStatus` | custom_components/home_assistant_chat_to_api/__init__.py:94-95 | a non-200 status fails as that status whatever the body, its message ends in the decimal status, and two statuses give the same message only if they are equal |
| `ConversationProperties.FailureOnKnownSessionKeepsUserTurn` | custom_components/home_assistant_chat_to_api/__init__.py:73-85 | a failed call on a known id leaves that id's transcript one user turn longer and returns the id |
| `ConversationProperties.FailedFirstTurnIsForgotten` | custom_components/home_assistant_chat_to_api/__init__.py:76-106 | a failed call on a new session leaves the table unchanged; the returned id is not a key, so a retry with it mints a new id |
| `ConversationProperties.OnlyResolvedSessionChanges` | custom_components/home_assistant_chat_to_api/__init__.py:106-121 | every other entry is untouched; the keys grow only by the session id and only on success; the id is returned on every path; the event fires exactly on success with the input text, the reply and the id |
| `ConversationProperties.ProcessPreservesAlternation` | custom_components/home_assistant_chat_to_api/__init__.py:82-104 | if every stored transcript has each assistant turn directly after a user turn, that still holds after the call |
| `ConversationProperties.SessionGrowth` | custom_components/home_assistant_chat_to_api/__init__.py:82-106 | calls on an existing session only append to it: two turns per success, one per failure, prior transcript kept as a prefix, other sessions untouched |
| `ConversationProperties.FirstTurnOpensSession` | custom_components/home_assistant_chat_to_api/__init__.py:73-121 | a first turn without an id, answered with a `response` of "hi", stores both turns under the minted id, posts only the user turn, speaks "hi" and fires the event |
| `ConversationProperties.SecondTurnContinuesSession` | custom_components/home_assistant_chat_to_api/__init__.py:73-121 | a second turn with the returned id posts the whole transcript plus the new user turn and stores both new turns after it |
| `ConversationProperties.Status500KeepsDanglingTurn` | custom_components/home_assistant_chat_to_api/__init__.py:73-132 | a status 500 on a known session stores the dangling user turn, returns the id with an UNKNOWN error whose failure text is the status prefix followed by "500", and fires no event |
| `Decimal.Show` | custom_components/home_assistant_chat_to_api/__init__.py:95 | a status is rendered as a non-empty string of decimal digits without a leading zero |
| `Decimal.ParseShow` | custom_components/home_assistant_chat_to_api/__init__.py:95 | reading back the rendered status gives the status |
| `Decimal.ShowInjective` | custom_components/home_assistant_chat_to_api/__init__.py:95 | distinct statuses render as distinct text |

## Left out

- `config_flow.py` is not part of this model. It holds the setup form, its schema, and a one-shot `GET /health` probe. That is user interface and network I/O.
- The health probe in `async_setup_entry` (`__init__.py:41-49`) is modelled only by its outcome, passed to `SetupEntry`. Registering the agent with the host (`conversation.async_set_agent`) is left out.
- `async_setup` (`__init__.py:33-35`) always returns true. Loading the manifest at import time (`__init__.py:28-31`) is file I/O. `supported_languages` (`__init__.py:64-67`) returns a constant. None of these three is modelled.
- The aiohttp session, the POST itself and JSON decoding are replaced by `HttpOutcome`.
  - A body that decodes to something other than a JSON object makes `.get` raise. Such a body is folded into `Undecodable`.
  - A `response` field whose value is not a string, such as `null`, is not modelled. `Json` carries only an absent field or a string.
- The text of a transport or decoding exception comes from libraries that are not part of this model. It is carried as an opaque `reason` string.
- `IntentResponse`, `ConversationResult` and the event bus are host framework code. They are modelled as the plain datatypes `IntentResponse`, `ConversationResult` and `FinishedEvent`. The event is returned as a value rather than delivered.
- The source writes the minted id back into the caller's input object (`__init__.py:78`). This is not modelled. The same id is returned in the result.
- The ULID generator is not modelled. Its output is the `minted` parameter, and `AsyncProcess` requires it to be a new key.
- Calls are modelled as strictly serialised. Suspension at the network call, and concurrent calls on the same id, are left out.
- Logging (`__init__.py:48`, `__init__.py:124`) is left out.
- `ExternalAgent.Agent.AsyncProcess`: its own contract does not state the alternation invariant. That invariant is proved about the specification it equals, in `ProcessPreservesAlternation`.
