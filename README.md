# Realtime AI backend: session relay and post-session summariser

This project models the core of a small real-time chat relay and proves properties about the model. A client opens a WebSocket and sends text messages. The server streams back a language model's reply fragment by fragment and logs every message and fragment to an event table keyed by a freshly minted session id. When the client disconnects, the server schedules a background task. That task reads the session's events back, has the model summarise the transcript, and stores the summary on the session record.

Three pieces are modelled:

- **The fragment filter** (`Llm`, app/llm.py). `StreamLlmResponse` loops over the backend's chunk texts, skips the empty ones and yields the rest. The method is proved equal to the reference filter `NonEmpty`. Lemmas show that no output is empty, that order is preserved, that the text is unchanged and how the lengths relate. `NonEmptySelects` also characterises the output independently: it is the input read at the strictly increasing positions of the non-empty chunks.
- **The relay** (`Relay`, `RelayProperties`, app/websocket.py). `Relay.Connection` is a class whose state is the session id, a phase and the trace of effects on the outside world. An effect is one of `CreateSession`, `Send`, `LogEvent` or `ScheduleSummary`. `Open` appends the `create_session` call and, when it succeeds, the greeting. `Turn` appends exactly `TurnEffects`. `Disconnect` appends one `ScheduleSummary`. The receive loop `Serve` appends exactly `RunTurns`. `WebsocketEndpoint` runs one connection and returns exactly `EndpointEffects`. `RelayProperties` projects a trace onto its channels: what was sent, what was logged, what was scheduled and what was created. It then proves the handler's guarantees on those channels.
- **The summariser** (`PostSession`, app/post_session.py). `GenerateSessionSummary` reads back the event table and builds the transcript with a loop. It wraps the transcript in the fixed prompt, accumulates the backend's fragments with a second loop and returns the calls it makes: `Generate(prompt)` and `Finalize(session, summary)`. The method is proved equal to `SummaryEffects`, and the lemmas about that function state the source's promises.

`Text` holds `Concat` (`"".join`), `Strip` (Python's `str.strip()` with the exact `str.isspace()` character set) and `Upper` (`str.upper()` on ASCII letters). `Db` holds the event records and the read-back `FetchSessionEvents`. `Lifecycle` connects the relay's log to the summariser and proves three end-to-end scenarios: a session with no message, a session with messages, and one concrete exchange.

External collaborators are inputs:

- the minted uuid is the `sid` parameter;
- whether `create_session` succeeds is a boolean;
- each client message comes with the backend's reply to it as a `Stream`, which lists the chunk texts and says whether the stream completed or raised after them;
- the summariser receives the table contents and the backend's reply to the summary prompt.

## Model

| member | source | states |
|---|---|---|
| `Llm.StreamLlmResponse` | app/llm.py:17-26 | the yielded fragments are the chunks with empty ones removed (`NonEmpty`); none is empty; they concatenate to the same text as the chunks |
| `Llm.NonEmptyHasNoEmpty` | app/llm.py:22-26 | no element of the filtered stream is the empty string |
| `Llm.NonEmptyConcat` | app/llm.py:22-26 | concatenating the filtered stream gives the concatenation of the input |
| `Llm.NonEmptyLength` | app/llm.py:22-26 | the output is at most as long as the input, with equal length exactly when no chunk is empty, and then it is the input itself |
| `Llm.NonEmptySelects` | app/llm.py:22-26 | the output is the input read at strictly increasing positions, and those positions are exactly the non-empty chunks, so order is preserved and nothing non-empty is dropped |
| `Llm.NonEmptyAppend` | app/llm.py:22-26 | filtering two runs of chunks in sequence is filtering each and appending |
| `Relay.Connection.constructor` | app/websocket.py:12-14 | a connection starts with the minted id, in the connecting phase, with no effect yet |
| `Relay.Connection.Open` | app/websocket.py:15-18 | `create_session(sid)` is recorded first; only if it succeeds is the greeting `"Connected to session " + sid` sent and the loop entered, otherwise the handler has ended |
| `Relay.Connection.Turn` | app/websocket.py:21-31 | a turn appends exactly `TurnEffects`: the raw message logged as `user_message`, then for each non-empty fragment a send followed by its `ai_chunk` log, then, if the reply completed, the accumulated text as `ai_final`; a generation error ends the handler |
| `Relay.Connection.RelayFragments` | app/websocket.py:24-29 | the token loop sends each fragment and then logs it as an `ai_chunk`, in order, and the running `full_response` ends as the fragments' concatenation |
| `Relay.Connection.Disconnect` | app/websocket.py:33-34 | the disconnect appends one `ScheduleSummary(sid)` and ends the handler |
| `Relay.Connection.Serve` | app/websocket.py:17-34 | the receive loop appends exactly `RunTurns`: turns in order until one fails, and the summary scheduled only if the messages ran out; it reports which way it left |
| `Relay.WebsocketEndpoint` | app/websocket.py:12-34 | one connection's full trace is `EndpointEffects` and its exit (not created / disconnected / generation failed) is `EndpointExit` |
| `RelayProperties.ChunkChannels` | app/websocket.py:25-29 | relaying fragments sends exactly those fragments and logs each, in order, as an `ai_chunk` of the session |
| `RelayProperties.TurnChannels` | app/websocket.py:21-31 | a turn sends exactly its non-empty fragments, unreordered and unbatched; it logs exactly `user_message m`, then one `ai_chunk` per fragment, then `ai_final concat` only when the reply completed, and nothing else; it schedules nothing and creates nothing |
| `RelayProperties.TurnUserFirst` | app/websocket.py:21-22 | the `user_message` with the raw inbound text is the turn's first effect, before any send or assistant event; every later event of the turn is the assistant's and none is a `user_message` |
| `RelayProperties.TurnFinalIsChunks` | app/websocket.py:24-31 | the `ai_final` content equals the concatenation of the turn's `ai_chunk` contents and of all the backend's text; a turn with no fragments logs `""` |
| `RelayProperties.ReplayAgrees` | app/websocket.py:20-31 | replaying a finished session's log by chunks or by finals gives the same text |
| `RelayProperties.TurnOwnRows` | app/websocket.py:22-31 | a turn logs at least one row, and only rows of its own session |
| `RelayProperties.RunTurnsServed` | app/websocket.py:20-31 | a failed turn is the loop's last: if turn `k` is the first whose generation fails, the `user_message`s logged are exactly the messages of turns `0..k`, in order, and no later message is served; if no turn fails, every message is logged |
| `RelayProperties.RunTurnsOutbound` | app/websocket.py:20-27 | the client receives the turns' fragments turn after turn |
| `RelayProperties.RunTurnsLog` | app/websocket.py:20-31 | every logged row carries the session id; the log is empty exactly when no message arrived |
| `RelayProperties.RunTurnsSchedule` | app/websocket.py:20-34 | the loop never creates a session; it schedules one summary task for the session, as its last effect, exactly when every turn completed |
| `RelayProperties.EndpointChannels` | app/websocket.py:12-34 | `create_session` is called once with the minted id as the first effect; if it fails nothing is sent, logged or scheduled; otherwise the first message is the greeting and the replies follow; all rows carry the id; one summary task is scheduled exactly when the handler leaves by the disconnect, none otherwise |
| `PostSession.GenerateSessionSummary` | app/post_session.py:8-45 | the task's calls are exactly `SummaryEffects` of the session's rows read back from the table |
| `PostSession.BuildConversation` | app/post_session.py:22-25 | the loop over the events builds exactly the transcript `Transcript` of the rows, one `ROLE: content` line per event |
| `PostSession.AccumulateSummary` | app/post_session.py:40-43 | the loop over the summary stream ends with the concatenation of its fragments |
| `PostSession.SummaryNoData` | app/post_session.py:16-20 | with no events the task finalises once with `"No conversation data."` and never invokes the backend |
| `PostSession.SummaryFinalizesOnce` | app/post_session.py:16-45 | finalisation happens at most once, for this session, as the last call; it happens exactly when there are no events or the reply completes; the backend is invoked once when there are events and never otherwise |
| `PostSession.SummaryText` | app/post_session.py:40-45 | the stored summary is `strip` of the concatenation of the backend's chunks |
| `PostSession.PromptRoundTrip` | app/post_session.py:27-38 | the prompt is the fixed head, the transcript verbatim, then the fixed tail, and the transcript can be recovered from it |
| `PostSession.TranscriptSnoc` | app/post_session.py:23-25 | each event appends its own `ROLE: content\n` line to the transcript, in order |
| `PostSession.TranscriptLines` | app/post_session.py:23-25 | when no role label or content contains a line break, the transcript has exactly one line per event, `ai_chunk` events included |
| `PostSession.RoleLabels` | app/post_session.py:25 | the relay's roles read back as `USER` and `ASSISTANT` |
| `Text.StripShape` | app/post_session.py:45 | the input is its leading whitespace, then the result of `strip`, then trailing whitespace; the result neither starts nor ends with whitespace |
| `Text.StripEmpty` | app/post_session.py:45 | `strip` gives `""` exactly when every character of the input is whitespace |
| `Text.StripIdempotent` | app/post_session.py:45 | stripping twice is stripping once |
| `Db.FetchOwnRows` | app/db.py:49-63 | reading back a session's own rows gives one `(role, content)` row per logged event, in order |
| `Db.FetchAppend` | app/db.py:49-63 | reading back a table that grew by appends yields the old rows, then the new ones |
| `Lifecycle.SilentSessionSummary` | app/post_session.py:16-20 | a session with no message, once disconnected, has one summary task; that task finalises with `"No conversation data."` and does not prompt the backend |
| `Lifecycle.BusySessionSummary` | app/post_session.py:16-25 | a session with messages reads back one row per logged event, the first being the user's first message, and prompts the backend with their transcript |
| `Lifecycle.HelloSession` | app/websocket.py:18-34 | for "hello" answered by `["Hi", " there", ""]` followed by a disconnect, the client gets the greeting, `"Hi"` and `" there"`; the log holds `user_message hello`, two `ai_chunk`s and `ai_final "Hi there"`; one task is scheduled |

## Error paths

- A generation error inside a turn is an exception other than `WebSocketDisconnect`, and nothing in `websocket_endpoint` catches it (app/websocket.py:25-34). It ends the handler. No `ai_final` is logged, no later turn runs and no summary task is scheduled; `EndpointExit` is `GenerationFailed`. A failed turn does not return to the receive loop.
- A generation error in the summariser propagates out of `generate_session_summary` before `finalize_session` is reached (app/post_session.py:42-45). The session is then never finalised, and the partial summary text is not stored.
- The summariser's transcript keeps every event it reads back, `ai_chunk` events included, next to the `ai_final` that repeats their text (app/post_session.py:24-25).

## Left out

- Supabase calls are not modelled as storage operations: `create_session`, `log_event` and `finalize_session` become effects in the trace or in the returned call list, and `fetch_session_events` reads a list of rows in insertion order. The model assumes that ordering by `created_at` matches insertion order.
- `log_event` raising a storage error is not modelled. In the code it would end the handler the same way a generation error does.
- `send_text` failing is not modelled. The only disconnect modelled is the one raised by `receive_text` once the client's messages run out.
- Start and end timestamps and the duration arithmetic in `finalize_session` (app/db.py:35-47) are left out. They use `datetime` parsing and floating-point seconds.
- Environment loading and the startup `RuntimeError`s (app/db.py:8-16, app/llm.py:8-15) are left out.
- The Gemini model and its call are left out. What it yields is an input `Stream`.
- `asyncio.create_task` is modelled only as a `ScheduleSummary` effect, and `asyncio.sleep(0)` is left out. Cross-session concurrency, and the interleaving of the lazy generator with the sends, have no observable effect here.
- The FastAPI accept/send/receive mechanics, the router wiring in app/main.py and the `print` on disconnect are left out.
- uuid generation is an input: the `sid` parameter.
- Text.Upper: maps only the ASCII letters `a`–`z`. Python's `str.upper()` also maps other Unicode letters.
