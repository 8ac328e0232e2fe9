# Chat history model of the KhazadDum web UI

This project models, in Dafny, the in-memory chat-history logic of the KhazadDum
web server (`UI/server.py`): the layer between the external agent loop, which appends
user, assistant, tool and reasoning records to a message log, and the HTML pages that
display that log as a conversation.

- **Turn segmentation** (`TurnSegmenter`, `turns.dfy`). `ExtractTurnDetails` scans the
  log backward from an assistant reply. It stops at the nearest user message and
  builds the reply's reasoning, tool-call and tool-response steps by inserting each
  one at the front. It is proved equal to `TurnSteps`, a forward reading of the window
  between the nearest user message and the reply. Because of the front insertion,
  within one assistant message the tool calls come out last-listed first, and all of
  them come before that message's reasoning step. The model keeps that order.
- **Index lists** (`Indices`, `indices.dfy`). `GetUserIdx` lists the user positions of
  the working buffer. `GetAssiIdx` lists the turn-end positions: one before each
  question after the first, then the last position of the buffer.
- **Conversation state** (`ChatStore`, `chat_state.dfy`). A `ChatState` class holds
  the working buffer, the saved conversations, the active id and both index lists.
  Its methods are `SaveMsg`, `NewChat` and `LoadChat`.
- **Details panel grouping** (`Details`, `details.dfy`). `GroupSteps` gathers
  reasoning and tool-call lines into "Assistant Action n" sections. Each tool
  response closes a "Tool Response n" section. The result is proved equal to the
  reference grouping `Group`, whose properties are lemmas.
- **Chat pane and input guard** (`Render`, `render.dfy`). `RenderMsgs` picks the log
  entries that get a bubble. `SendMessage` ignores a blank question.

The message log and the buffer are values (`seq<Msg>`). A log entry is read the same
way whether it is a dictionary or a message object, so one `Msg` record stands for
both. Python truthiness is explicit: an empty `reasoning_content` or `tool_calls`
reads as absent. The defaults `unknown`, `{}` and the empty string are used for
missing keys. Calls into the agent loop and its database are parameters: the list of
stored conversations (`chatList`) and the session loader (`loadSession`).

Some behaviour of the code is easy to misread, and the model keeps it as written:

- With exactly one user message, the turn-end list is `[len - 1]`, not empty. The
  `len(user_idx) != 1` guard has no effect, because the tail of a one-element list is
  already empty (`AssiGuardRedundant`).
- The steps of one assistant message come out as its tool calls in reverse, then its
  reasoning (`AssistantBlockOrder`, `FlightLookupTurn`). They do not come out as
  reasoning followed by the calls in listed order.
- `new_chat` only sets the active id to None. It does not clear the buffer.
- `save_msg` writes to the in-memory `hist`, while `load_chat` reads the agent loop's
  session store. So a save followed by a load is not a round trip in the code, and no
  such property is stated.
- A message without a known role is not an error. The segmenter and the index scans
  skip it.

## Model

| member | source | states |
|---|---|---|
| TurnSegmenter.WindowStart | UI/server.py:149-157 | the scan starts at or before the reply, no user message lies between the start and the reply, and the message just before the start (if any) is a user message |
| TurnSegmenter.WindowStartUnique | UI/server.py:149-157 | those facts determine the start of the window uniquely |
| TurnSegmenter.InsertCalls | UI/server.py:166-170 | inserting each tool call at the front, in listed order, puts the block `CallSteps` (the calls last-listed first) before the existing steps |
| TurnSegmenter.InsertMsgSteps | UI/server.py:160-175 | the insertions one message makes put exactly its block `MsgSteps` before the existing steps: for an assistant message its calls in reverse then its reasoning, for a tool message one response, for any other role nothing |
| TurnSegmenter.ExtractTurnDetails | UI/server.py:144-177 | the backward scan with front insertion returns exactly the forward reading `TurnSteps` of the window; it reads `i - start` messages plus the user message it stops at (when there is one), at most `i`, and none when `i <= 0` |
| TurnSegmenter.EmptyTurn | UI/server.py:149-157 | a reply at position 0 or below, or right after a user message, has no steps |
| TurnSegmenter.TurnStepsWindow | UI/server.py:149-157 | with the user message at k - 1 and none in positions k .. i - 1, the steps are those of exactly those messages, so nothing before that user message or from the reply on is read |
| TurnSegmenter.TurnStepsWithoutUser | UI/server.py:149-157 | with no user message before the reply, the window is the whole log up to the reply |
| TurnSegmenter.StepsOfAppend | UI/server.py:148-175 | steps of earlier messages come before steps of later messages |
| TurnSegmenter.TurnStepsExtend | UI/server.py:153-175 | a message that is not a user message does not stop the scan: it adds its own block after the steps of the messages before it |
| TurnSegmenter.StepCount | UI/server.py:160-175 | the number of steps is the number of assistant messages with reasoning, plus the number of their tool calls, plus the number of tool messages; other roles add nothing |
| TurnSegmenter.CallStepsAt | UI/server.py:166-170 | position k of a tool-call block is the call k places from the end of the listed calls |
| TurnSegmenter.AssistantBlockOrder | UI/server.py:160-170 | one assistant message yields its tool calls in reverse listed order, then its reasoning step if it has one, and nothing else |
| TurnSegmenter.FlightAssistantBlock | UI/server.py:160-170 | an assistant message with reasoning and one query yields the call `execute_query(SELECT 1)` followed by the reasoning |
| TurnSegmenter.FlightToolBlock | UI/server.py:172-175 | a tool message yields one response step with the tool's name in bold and its output fenced |
| TurnSegmenter.FlightLookupTurn | UI/server.py:144-177 | the flight lookup turn is the tool call, then the reasoning, then the tool response |
| Indices.GetUserIdx | UI/server.py:75-87 | the forward scan with append returns the user positions `UserPositions` of the buffer |
| Indices.UserPositionsExact | UI/server.py:75-87 | the user positions are strictly increasing, lie inside the buffer, and a position is listed exactly when its message has role user |
| Indices.Tail | UI/server.py:92 | Python's `[1:]`: one element shorter than a non-empty list, empty for an empty one, holding the elements after the first |
| Indices.Decrement | UI/server.py:93 | each element one less, same length |
| Indices.GetAssiIdx | UI/server.py:90-93 | the turn-end list has `max(len(user_idx), 1)` elements, ends with `len - 1` (-1 for an empty buffer), and its element j before the last is `user_idx[j + 1] - 1` |
| Indices.AssiGuardRedundant | UI/server.py:92 | the result is the same with or without the single-question guard |
| Indices.TurnEndClosesQuestion | UI/server.py:75-93 | turn end j lies at or after question j and inside the buffer, no user message lies between them, and the next question follows it directly |
| ChatStore.SaveKeepsDenseIds | UI/server.py:265-266 | storing under id `len(hist)` in a store keyed exactly `0 .. len(hist) - 1` grows it by one and keeps the keys dense |
| ChatStore.ChatState.constructor | UI/server.py:62-69 | start-up: empty buffer, the given saved conversations, active id 0, empty index lists |
| ChatStore.ChatState.SaveMsg | UI/server.py:260-267 | an empty buffer changes nothing; otherwise the buffer is stored under the active id, the other saved entries are kept, the active id becomes the store size, the buffer is emptied and the index lists are left as they were; dense keys with the next id active stay so |
| ChatStore.ChatState.NewChat | UI/server.py:403-406 | only the active id changes, to None |
| ChatStore.ChatState.LoadChat | UI/server.py:410-426 | an id missing from the fresh list only resets the active id to None; a listed id becomes active, the buffer becomes its loaded session, the store is kept, and both index lists are recomputed from the new buffer |
| Details.GroupSteps | UI/server.py:199-221 | the accumulator loop returns the reference grouping `Group` of the steps, and nothing for no steps |
| Details.GroupResponses | UI/server.py:209-217 | the tool-response sections are one per tool-response step, in order, numbered consecutively |
| Details.GroupActionLines | UI/server.py:204-221 | the lines of the action sections are the lines of the reasoning and tool-call steps, each once and in the original order |
| Details.GroupShape | UI/server.py:209-221 | no action section is empty, and each action section is the last section or is followed directly by the tool-response section of the same number |
| Details.GroupStepsNumbering | UI/server.py:201-217 | over a turn, the k-th tool-response section is "Tool Response k + 1" and holds the k-th response |
| Render.RenderMsgs | UI/server.py:239-257 | the loop over the log returns the reference bubble list `Bubbles` |
| Render.BubblesExact | UI/server.py:243-257 | bubbles are in log order, one per user message and per assistant message with content and no other, and each reply's details are the grouped steps of its own turn |
| Render.StripLeadingShape | UI/server.py:337 | stripping the front removes a run of whitespace and leaves a suffix that is empty or starts with a non-space |
| Render.StripTrailingShape | UI/server.py:337 | stripping the back removes a run of whitespace and leaves a prefix that is empty or ends with a non-space |
| Render.BlankIffAllSpace | UI/server.py:337 | a question is blank exactly when every character is whitespace |
| Render.SendMessage | UI/server.py:332-338 | a question is ignored exactly when it is all whitespace (the empty one included); otherwise it is submitted unchanged |

## Left out

- The module start-up of the agent, the metadata loader and the chat loop, with its asserts (UI/server.py:18-37): foreign objects with side effects.
- The page layout, the components and the sidebar title truncation (UI/server.py:42-55, 122-131, 179-197, 224-237, 270-328): presentation only.
- The markdown text of the details panel, that is the section headers, the line joins and the `---` separators (UI/server.py:212, 216, 221, 223), and its conversion to HTML (UI/server.py:184, 224): the model stops at the sections as (kind, number, lines). The bullet text of each line is modelled.
- The code runner `run` and `details_to_md` (UI/server.py:96-119): a shell whose results cannot be seen, and Python's `str` of arbitrary values.
- `process_response` (UI/server.py:362-401): the agent call, its debug prints and the exception fallback sit at the network boundary.
- The insides of `loop.load_session`, `loop.db.get_chat_list` and `loop.new_chat`. They are parameters (`loadSession`, `chatList`). The reset of the agent loop in `new_chat` (UI/server.py:405) and `loop.chat_id = None` (UI/server.py:420) change agent-loop state that is not part of this model.
- The start-up `hist` comes from `loop.db.get_chat_list()` (UI/server.py:66), which elsewhere is a list of `{chat_id, title}` records. The model takes the documented shape, a map from id to messages, as a constructor parameter.
- ChatStore.ChatState.SaveMsg: requires an active id. After `new_chat` the id is None, and Python would then key the store by None. `save_msg` has no live caller (UI/server.py:413 is commented out).
- TurnSegmenter.ExtractTurnDetails: requires the reply index to be at most the log length. Python raises IndexError beyond that, and every caller passes a position of the log.
- A key present with the value None is read as a missing key. Python would return None there: `str(None)` in a step text, or an AttributeError for `function: None`.
- Concurrent requests on the shared state: each operation is one atomic step on one state value.
- Render.IsSpace: only the six ASCII whitespace characters count. Python's `str.strip` also strips the other Unicode whitespace.
- The debug `print` calls (UI/server.py:334, 424).
