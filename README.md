# Chat route of a property-search assistant, modelled in Dafny

The chat route (`app/api/chat/route.ts`) answers a conversation with a stream
of newline-delimited JSON frames. Its `searchProperties` tool does three things:

- builds a parameterised SQL query from optional search criteria;
- runs that query against the property store;
- reduces every row to a flat summary with its first image.

The stream carries these frames:

- one text frame per chunk the model generates;
- then one `properties` frame per search result of the last assistant message;
- then the stream closes.

Failure has two paths. A failure inside the stream keeps the frames already sent and adds one fallback text frame. A failure before the stream exists answers with one text frame carrying the error.

The project models the following:

- `wrappers.dfy`: `Option` and `Result`.
- `json.dfy`: JSON values and `JSON.stringify`, including string escaping as in section 7 of RFC 8259. Object members keep their order.
- `json_parse.dfy`: a JSON reader, as a client uses one. Its round trip with `Stringify` is proved.
- `query_builder.dfy`: the imperative query builder `BuildQuery`. It is specified by the functions `QueryText` and `Params` and by positional placeholder binding (`Bind`).
- `normalizer.dfy`: the row-to-summary mapping, the image fallback, and the tool's `execute` against a store passed in as a function. `Present` leaves the summary's `undefined` properties out of its JSON object, as `JSON.stringify` does.
- `frames.dfy`: frame objects, their one-line encoding, and a client's decoding of the whole stream. `FrameJson` leaves an `undefined` `properties` member out of a `properties` frame.
- `chat_stream.dfy`: the stream controller as a class holding the enqueued lines and a `closed` flag, plus the `start` loops, the outer-catch stream and the route.

Exactly one close, and no enqueue after close, come from the controller itself. `Enqueue` and `Close` both require the stream to be open, and `Start`, `FailStart` and `Post` end with it closed. So every verified path closes the stream exactly once, and the route itself writes nothing after closing. Cancellation by the reader is not modelled (see below).

## Model

| member | source | states |
|---|---|---|
| QueryBuilder.BuildQuery | app/api/chat/route.ts:48-91 | The text is the base SELECT, then one clause per truthy criterion in the order operationType, location, maxPrice, minPrice, propertyType, bedrooms, bathrooms, then the ordering clause. The parameters are those criteria's values in the same order. |
| QueryBuilder.QueryFrame | app/api/chat/route.ts:48-53 | Whatever the criteria, the query starts with the fixed `SELECT … WHERE i.status = 'disponible'` text and ends with `ORDER BY i.created_at DESC LIMIT 5` (line 91 for the ending). |
| QueryBuilder.ParamsCount | app/api/chat/route.ts:54-89 | There is one parameter per truthy criterion. A missing criterion, an empty string and the number 0 add none. |
| QueryBuilder.PlaceholderCount | app/api/chat/route.ts:56-89 | The number of `?` placeholders equals the number of parameters, which equals the number of truthy criteria. |
| QueryBuilder.BindQuery | app/api/chat/route.ts:56-89 | Under positional binding, each written condition (`operation_type =`, `location LIKE`, `price <=`, `price >=`, `type =`, `bedrooms >=`, `bathrooms >=`) is bound to its own criterion's value. The location is wrapped as `%location%` and every other value is unchanged. The base and ordering texts bind nothing. |
| QueryBuilder.ClauseShape | app/api/chat/route.ts:57-87 | Every clause the tool appends is its column-and-operator condition followed by exactly one placeholder, which is the clause's only `?`. |
| QueryBuilder.Bind | app/api/chat/route.ts:93 | Positional binding succeeds exactly when the text has as many `?` as there are parameters, and it keeps the text's length. |
| QueryBuilder.BindLiteral | app/api/chat/route.ts:48-53 | A text without a placeholder binds no parameter and is left as it is. |
| QueryBuilder.BindAppend | app/api/chat/route.ts:56-91 | Appending a text with its own parameters, as every `+=` and `push` pair does, binds the two parts independently. |
| QueryBuilder.RentalInValencia | app/api/chat/route.ts:56-68 | For `{operationType: "alquiler", location: "Valencia", maxPrice: 500}`, the query and parameters are exactly the three clauses and `["alquiler", "%Valencia%", 500]`. |
| Normalizer.Normalize | app/api/chat/route.ts:95-115 | It succeeds exactly when every row's image lookup succeeds. There is one summary per row, in the rows' order, each built from that row and its own lookup. On failure, the error is one a lookup rejected with. |
| Normalizer.Execute | app/api/chat/route.ts:48-120 | The tool's `execute` returns exactly the outcome of the built query against the store, followed by normalisation. |
| Normalizer.OutcomeShape | app/api/chat/route.ts:93-120 | A call succeeds exactly when the search query and every image lookup succeed. On success, `count` equals the number of summaries, which equals the number of rows found, and summary `i` belongs to row `i`. |
| Normalizer.SummaryJsonCopies | app/api/chat/route.ts:102-111 | In the summary object the client receives, each of id, title, location, price, bedrooms, bathrooms, area, type and operation_type holds the row's value unchanged, or is absent when the row lacks it. |
| Normalizer.SummaryJsonImage | app/api/chat/route.ts:112 | `image_url` is the first lookup row's `image_url` when the lookup returned rows, and the row's own `image_url` otherwise. |
| Normalizer.StoreParams | app/api/chat/route.ts:93 | Each parameter reaches the store as its own value, in order, with none missing. |
| Normalizer.SummariesJson | app/api/chat/route.ts:117-118 | The `properties` array holds one object per summary, in order. |
| Json.StringifyNoControl | app/api/chat/route.ts:207 | `JSON.stringify` output contains no control character, and in particular no raw newline, whatever the strings inside. |
| Json.EscapeNoControl | app/api/chat/route.ts:207 | Escaping a string removes every control character from its text. |
| JsonParse.ParseRoundTrip | app/api/chat/route.ts:207 | Reading back the text `JSON.stringify` produced gives the same value. |
| JsonParse.StringifyInjective | app/api/chat/route.ts:207 | Two different values never stringify to the same text. |
| Frames.FrameRoundTrip | app/api/chat/route.ts:217 | A frame object is read back as the frame it came from, including a `properties` frame whose `properties` member was `undefined` and so left out. |
| Frames.Encode | app/api/chat/route.ts:208 | An encoded frame ends in a newline, and that newline is its only one. |
| Frames.LinesOfFrames | app/api/chat/route.ts:207-208 | Splitting the concatenated stream at newlines gives one line per frame, in order, each being that frame's JSON text. |
| Frames.DecodeEncoded | app/api/chat/route.ts:207-230 | A client that splits the stream into lines and parses each one gets back exactly the frames sent, in order. |
| Frames.EncodeAllAppend | app/api/chat/route.ts:206-220 | The bytes of two runs of frames are the bytes of each run, one after the other. |
| ChatStream.StreamController.Enqueue | app/api/chat/route.ts:208 | Enqueueing appends one line to an open stream and leaves it open. |
| ChatStream.StreamController.Close | app/api/chat/route.ts:224 | Closing an open stream keeps its lines and marks it closed. |
| ChatStream.StreamController.constructor | app/api/chat/route.ts:203 | A new stream is open and empty. |
| ChatStream.ForwardChunks | app/api/chat/route.ts:206-209 | The `for await` loop appends one text frame per chunk, in order, and leaves the stream open. |
| ChatStream.ForwardResults | app/api/chat/route.ts:215-220 | The inner loop appends one `properties` frame per `searchProperties` call with a truthy result, in order, carrying that result's `properties`. |
| ChatStream.Start | app/api/chat/route.ts:204-233 | The stream ends closed, holding what it held before plus the frames of `StreamFrames`. On success those are the chunks, then the search results of the last message when its role is `assistant`. On a throw they are the chunks sent, then the fallback text. |
| ChatStream.FailStart | app/api/chat/route.ts:247-256 | The outer catch's stream holds exactly one frame, `Disculpa, hay un problema técnico: ` followed by the error's message (`Error desconocido` for a non-`Error`), and it ends closed. |
| ChatStream.Post | app/api/chat/route.ts:7-257 | For a generation whose stream ends and whose response settles, the route answers with a new stream that ends closed. If launching fails, it holds exactly one technical-error frame; otherwise it holds the stream frames of the generation. A client decoding the stream's whole output gets exactly those frames. |
| ChatStream.OutputReadsBack | app/api/chat/route.ts:207-208 | A stream holding the encoded lines of a run of frames decodes, from its delivered output, to exactly those frames. |
| ChatStream.ClientReadsFrames | app/api/chat/route.ts:206-256 | Whatever happens, a client splitting the response at newlines and parsing each line gets exactly the route's frames, in order. |
| ChatStream.OneNewlinePerFrame | app/api/chat/route.ts:208 | Every line the route enqueues ends in a newline, which is its only one. |
| ChatStream.FailureKeepsSentFrames | app/api/chat/route.ts:225-231 | When the text stream or the response fails, the chunk frames already sent are kept, and exactly one more frame follows: the fallback text. |
| ChatStream.SuccessOrder | app/api/chat/route.ts:206-222 | On success the first frames are exactly the chunk texts, in order. Every frame after them is a `properties` frame, and no text frame follows a `properties` frame. |
| ChatStream.PropertyFramesCount | app/api/chat/route.ts:215-219 | There are exactly as many `properties` frames as calls that pass the test of line 216, each carrying its own call's `properties`, in order. |
| ChatStream.SentCalls | app/api/chat/route.ts:216 | The calls forwarded are all `searchProperties` calls with a truthy result, taken from the message's calls. |
| ChatStream.SentCallsComplete | app/api/chat/route.ts:215-219 | Every call that passes the test of line 216 is forwarded as often as it occurs in the message, and no other call is. |
| ChatStream.SentCallsAppend | app/api/chat/route.ts:215-219 | The calls of two runs are forwarded in order: those of the first run, then those of the second. |
| ChatStream.PropertyFramesAppend | app/api/chat/route.ts:215-219 | The `properties` frames of two runs of calls are those of the first run, followed by those of the second. |
| ChatStream.SentCallsSingle | app/api/chat/route.ts:216-218 | One call is forwarded, giving one frame with its result's `properties`, exactly when it passes the test of line 216. |
| ChatStream.SearchResultFrame | app/api/chat/route.ts:117-120 | A successful search result passes the test of line 216, and its frame carries the array of every summary the tool produced. |
| ChatStream.TimeoutText | app/api/chat/route.ts:199 | A rejection by the 55-second timer reaches the outer catch, whose one frame reads `Disculpa, hay un problema técnico: AI response timeout after 55s`. |

## Left out

- The `Promise.race` against the 55-second timer (lines 124-200) is timing and concurrency. The model takes how the launch settled as an input, `Post`'s `launch`. A timer rejection is `Err(Timeout)`, and the route's outer catch reports it.
- `streamText`, `tool` and the `zod` schema from the `ai` and `zod` libraries are foreign code. A generation is an input: its chunks, whether its text stream throws after them, and how its `response` settles. The schema appears only as the `compra | alquiler` enumeration of `OperationType`.
- The database `query` calls (lines 93 and 97-100) are I/O. The store is a function parameter from a statement and its parameters to rows or an error. Nothing is claimed about `LIMIT 5` bounding the rows, or about `LIKE` matching.
- JavaScript numbers are modelled as unbounded integers. Fractions, `NaN` and the float truthiness of `if (maxPrice)` are not modelled. Neither is the loss of precision of doubles beyond 2^53, nor `JSON.stringify` writing numbers from 1e21 up in exponent form (`1e+21`).
- Normalizer.Normalize: `Promise.all` rejects with the first rejection in time. The model reports the error of some failing lookup but does not say which one, because the order in which the lookups settle is not modelled.
- The code does not recover from store failures into an `{properties: [], count: 0, error}` result, or degrade one failed image lookup to `null`. Neither is modelled. A failing query rejects the tool call, and the generation then fails into the catch at line 225.
- A `toolCall` or message that is `null`, which would throw inside line 212-216, is not modelled. Response messages and calls are records, and only `undefined` fields are modelled.
- `JSON.stringify` throwing on cyclic or `BigInt` values is not modelled, because JSON values here are finite trees.
- The JSON reader accepts every text `JSON.stringify` produces, and some it never writes, such as leading zeros, `\/` and upper-case hex escapes. It is the client's side of the round trip, not a full RFC 8259 parser: it has no whitespace handling and no fractions or exponents.
- The following are data and plumbing and are not modelled: the `TextEncoder` byte conversion, the response headers, `console.error`, the system prompt text and `maxDuration`.
- `request.json()` (line 9) is part of the launch input: its failure is one more `Err` that reaches the outer catch.
- The UI component `components/property-filters.tsx`, the Google Maps initialisation route and `next.config.mjs` are not part of this model.
- Strings are sequences of Unicode scalar values, while JavaScript strings are UTF-16 code units. Lone surrogates in chunks, frame contents or row values, and the `\udxxx` escape `JSON.stringify` gives them, are not modelled.
- Cancellation of the stream by its reader, such as a client disconnecting, is not modelled. After it, the `enqueue` at line 208 or 218 throws; the catch's own `enqueue` at line 230 then throws again, so the `close` at line 231 is never reached. The model's controller becomes closed only through `Close`.
- A generation whose text stream never ends, or whose `response` never settles, is not modelled: a `Generation` is a finite list of chunks with a settled response. In the route such a generation leaves the stream open, because `close` at line 224 or 231 is never reached and the 55-second timer (line 199) races only the launch, not the streaming. `Start` and `Post` ending closed hold for the generations modelled.
