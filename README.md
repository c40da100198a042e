# Server-sent events handler of OpenAISwift, modelled in Dafny

`ServerSentEventsHandler` consumes a streaming completion response. The
transport hands it chunks of the response body. For each chunk it decodes the
bytes as UTF-8 text and splits the text on line feeds. It keeps the lines that
start with `data:` and are not the end-of-stream line `data: [DONE]`, and drops
the first five characters of each. Each remainder is encoded back to bytes and
decoded as JSON. The caller's `onEventReceived` callback gets either the decoded
value or a decoding error. When the transport finishes, the caller gets either
a generic failure through `onEventReceived` or a call of `onComplete`.

The model has four modules:

- `Wrappers` (`wrappers.dfy`): `Option` and `Result`.
- `SseLines` (`lines.dfy`): splitting text on line feeds, as Swift's
  `split(separator: "\n")` does, dropping empty pieces. `Layout` is an
  independent description of a text by its lines and the runs of line feeds
  around them. The lemmas prove that `SplitLines` gives exactly the lines of
  that description. `EncodeLines` writes lines back, each followed by a line
  feed, and splitting undoes it.
- `SseEvents` (`events.dfy`): selecting and stripping the data lines of a chunk.
  It is pure, with an inverse (`DataLine` and `DataLines`, which together with
  `EncodeLines` describe how a server writes events) and an index-based
  description of which lines are selected.
- `SseHandler` (`handler.dfy`): the handler object. It is a class whose `trace`
  field records every observable effect, in order: each callback invocation
  with its argument, and each start or cancel request to the data task. Each
  method's postcondition ties the new trace to a pure function of the old state
  (`ChunkActions`, `CompletionActions`, ...). The lemmas beside them state what
  those functions promise. `DidReceive` runs the same `for` loop over the lines
  as the source and is proved equal to `ChunkActions`.

The UTF-8 conversions and `JSONDecoder` are collaborators. They are the three
function fields of a `Codec` value given to the handler's constructor. The
payload type and the error type are type parameters. Whether the caller has set
a callback is a boolean field, since Swift skips an unset optional callback.

The model follows the code, including where it departs from the usual reading
of an SSE `data: ` field:
- It drops exactly five characters, `data:`. The space after the colon stays in
  the payload; a reading that strips the colon and its following space does not
  match the code.
- When a payload cannot be encoded, it calls `disconnect()` and goes on with the
  later lines of the same chunk; it does not stop at the failing line.
- Only the exact line `data: [DONE]` is suppressed. `data:[DONE]` reaches the
  decoder as `[DONE]` (`BareSentinelPassed`).
- A `disconnect` only requests cancellation. Nothing in this code suppresses
  callbacks after it.

## Model

| member | source | states |
|---|---|---|
| `SseLines.LineEnd` | Sources/OpenAISwift/ServerSentEventsHandler.swift:61 | a line runs up to the first line feed: its characters hold no line feed, and one follows unless the text ends |
| `SseLines.SplitLines` | Sources/OpenAISwift/ServerSentEventsHandler.swift:61 | every line produced is non-empty and holds no line feed |
| `SseLines.SplitSkipsNewlines` | Sources/OpenAISwift/ServerSentEventsHandler.swift:61 | line feeds in front of a text add no line (empty pieces are dropped) |
| `SseLines.SplitLinesCons` | Sources/OpenAISwift/ServerSentEventsHandler.swift:61 | a line followed by the end or by a line feed is the first piece, and splitting goes on after it |
| `SseLines.SplitLayout` | Sources/OpenAISwift/ServerSentEventsHandler.swift:61 | splitting any text made of well-formed lines with at least one line feed between two of them (any number around them) gives back exactly those lines |
| `SseLines.SplitLinesLaidOut` | Sources/OpenAISwift/ServerSentEventsHandler.swift:61 | every text is its split lines laid out with runs of line feeds, at least one between two lines: no character other than line feeds is lost and the pieces are maximal |
| `SseLines.SplitLinesCharacterization` | Sources/OpenAISwift/ServerSentEventsHandler.swift:61 | the split of a text equals a sequence of lines if and only if those lines are well formed and the text is laid out from them |
| `SseLines.SplitEncodeLines` | Sources/OpenAISwift/ServerSentEventsHandler.swift:61 | splitting lines written each with a following line feed gives back the lines |
| `SseEvents.DataLine` | Sources/OpenAISwift/ServerSentEventsHandler.swift:63-64 | the line `data:` + p is selected if and only if p is not ` [DONE]`, and dropping five characters from it gives p back |
| `SseEvents.EventLineStrip` | Sources/OpenAISwift/ServerSentEventsHandler.swift:64 | a selected line is exactly `data:` followed by its candidate: exactly five characters are dropped and the space after the colon stays |
| `SseEvents.EventLineIndices` | Sources/OpenAISwift/ServerSentEventsHandler.swift:62-63 | the positions it lists are strictly increasing, each is a line that starts with `data:` and is not `data: [DONE]`, and every such line is listed |
| `SseEvents.CandidatesAtIndices` | Sources/OpenAISwift/ServerSentEventsHandler.swift:62-66 | there is one candidate per selected line, and candidate k is the k-th selected line without its first five characters |
| `SseEvents.CandidatesAppend` | Sources/OpenAISwift/ServerSentEventsHandler.swift:62-70 | selection goes line by line in order: the candidates of two runs of lines are the first run's followed by the second's |
| `SseEvents.ChunkCandidateShape` | Sources/OpenAISwift/ServerSentEventsHandler.swift:61-64 | every candidate of a chunk holds no line feed, is never the sentinel's remainder ` [DONE]`, and is a line of the chunk with `data:` dropped |
| `SseEvents.SentinelExcluded` | Sources/OpenAISwift/ServerSentEventsHandler.swift:63 | the chunk `data: [DONE]` yields no candidate |
| `SseEvents.BareSentinelPassed` | Sources/OpenAISwift/ServerSentEventsHandler.swift:63 | the chunk `data:[DONE]` (no space) yields the candidate `[DONE]`: only the exact sentinel is excluded |
| `SseEvents.CandidatesOfDataLines` | Sources/OpenAISwift/ServerSentEventsHandler.swift:63-64 | data lines built from payloads without line feeds and other than ` [DONE]` are well-formed lines whose candidates are exactly those payloads |
| `SseEvents.EncodedEventsRoundTrip` | Sources/OpenAISwift/ServerSentEventsHandler.swift:59-70 | a chunk of data lines, each ended by a line feed and optionally followed by `data: [DONE]`, yields exactly its payloads, in order |
| `SseHandler.CompletionActions` | Sources/OpenAISwift/ServerSentEventsHandler.swift:74-80 | completion has at most one effect: `onComplete` exactly when there is no error and the callback is set; with an error, one generic failure carrying it exactly when `onEventReceived` is set; never both; and nothing at all when the callback it needs is unset |
| `SseHandler.LinesActionsAppend` | Sources/OpenAISwift/ServerSentEventsHandler.swift:62-70 | the effects of a chunk's lines are those of each line in turn, in line order |
| `SseHandler.EncodeFailureContinues` | Sources/OpenAISwift/ServerSentEventsHandler.swift:64-68 | a candidate that cannot be encoded requests cancellation once (if there is a task), and the lines after it still act |
| `SseHandler.LinesActionsPerCandidate` | Sources/OpenAISwift/ServerSentEventsHandler.swift:62-66 | with the callback set and encoding never failing, the lines' effects are one `onEventReceived` call per candidate, in order, carrying the outcome of decoding that candidate |
| `SseHandler.ChunkActionsPerCandidate` | Sources/OpenAISwift/ServerSentEventsHandler.swift:59-70 | the same for a received chunk: exactly one call per candidate, success with the decoded value or a decoding error, and a failed decode does not stop later candidates |
| `SseHandler.LinesActionsKinds` | Sources/OpenAISwift/ServerSentEventsHandler.swift:59-72 | a chunk only makes `onEventReceived` calls that are not generic failures, and cancel requests: never `onComplete` and never a task start |
| `SseHandler.ValidStreamSucceeds` | Sources/OpenAISwift/ServerSentEventsHandler.swift:59-72 | a chunk of N decodable data lines closed by `data: [DONE]` makes exactly N successful `onEventReceived` calls, in order, and the sentinel reaches no decoder |
| `SseHandler.ServerSentEventsHandler.constructor` | Sources/OpenAISwift/ServerSentEventsHandler.swift:14-20 | a new handler has no callbacks, no task, and an empty trace |
| `SseHandler.ServerSentEventsHandler.Connect` | Sources/OpenAISwift/ServerSentEventsHandler.swift:22-37 | a task now exists and one task start is recorded; callbacks are unchanged |
| `SseHandler.ServerSentEventsHandler.Disconnect` | Sources/OpenAISwift/ServerSentEventsHandler.swift:39-41 | one cancel request is recorded if a task exists and nothing otherwise; no callback is made |
| `SseHandler.ServerSentEventsHandler.ProcessEvent` | Sources/OpenAISwift/ServerSentEventsHandler.swift:43-50 | exactly one `onEventReceived` call is recorded if the callback is set: success with the decoded value, or a decoding error with the decoder's error |
| `SseHandler.ServerSentEventsHandler.DidReceive` | Sources/OpenAISwift/ServerSentEventsHandler.swift:59-72 | the trace is extended by exactly `ChunkActions` of the chunk (the loop over the lines is proved against it), and a chunk that is not valid UTF-8 changes nothing |
| `SseHandler.ServerSentEventsHandler.DidComplete` | Sources/OpenAISwift/ServerSentEventsHandler.swift:74-80 | the trace is extended by exactly `CompletionActions`: one generic failure or one completion, never both |

## Left out

- Session setup in `connect`: the default configuration, the 300-second request timeout and the delegate queue (lines 32-34) are platform plumbing. The model records only that a task now exists and was resumed.
- Task cancellation itself (line 40) is a request to the transport, recorded as `TaskCancelled`. What the transport then delivers is outside this code.
- `JSONDecoder` and the `OpenAI<StreamMessageResult>` schema: the decoder is the `decodeJson` field of `Codec` and the payload is a type parameter.
- UTF-8 decoding of a chunk and UTF-8 encoding of a payload (lines 60 and 64) are the `decodeUtf8` and `encodeUtf8` fields of `Codec`. Nothing is assumed about them beyond what a lemma's precondition states.
- Text is a plain sequence of characters. Swift compares and splits by grapheme cluster, where `"\r\n"` is one character and so is not split at its line feed. The model does not capture that.
- A line split across two chunks is not reassembled, as in the code. Each chunk is handled on its own.
- Callbacks are inert toward the handler: `onEventReceived` and `onComplete` never set or clear the handler's callbacks and never call `connect` or `disconnect`. The callback flags and the task are therefore fixed for the whole of one chunk. Swift re-reads `onEventReceived` for every line (line 46, reached from line 65), so a closure that clears it on its first call would cut later calls short; `ChunkActionsPerCandidate` and `DidReceive` do not capture that.
- Delegate threading and the order in which the platform delivers notifications are not modelled. Each method call is one notification.
- The wrapped `Error` values stay opaque: the decoder's error and the transport's error are values of one type parameter.
- The concrete two-line chunk `data: {"id":"x","choices":[]}` followed by `data: [DONE]` is not proved as a literal. `EncodedEventsRoundTrip` covers every chunk of that form.
