# SAI chat-completion adapter, modelled in Dafny

This project models the core of `sai_handler.py`, class `SAILLM`. It is an
adapter that lets a chat-completion framework call the SAI
template-execution HTTP API. The model covers five parts:

- **Plugin unwrapping.** An IDE plugin wraps the user's text in a fixed
  instruction prefix, followed by a `"\nContext:` section. The model detects
  this and extracts the user's text.
- **Message preparation.** The caller's list is unwrapped in place, then its
  shape is validated. A leading `system` message is split off. The other
  messages become upstream `{content, role, id}` records, in order. Each id
  is a clock reading plus the record's position.
- **One request.** One credential header is chosen: `X-Api-Key` or `Cookie`,
  never both. Whatever comes back is classified as the response text, one of
  the in-band sentinels `"PROMPT_TOO_LONG"` and `"HTTP_500_ERROR"`, or no
  response.
- **The attempt policy and the outcome mapping.** The key is tried first.
  If it gives no response, the cookie is tried once. The last outcome then
  becomes `(text, finish_reason, usage)`.
- **Streaming emulation.** The final text is cut into numbered 50-character
  chunks. Only the last chunk is marked finished and carries the finish
  reason.

Files, one module each:

- `wrappers.dfy`: `Option` and `Result`.
- `text.dfy`: `startswith`, `in`, `find`, `lower` and `str(n)`.
- `json.dfy`: the loosely typed message values.
- `plugin.dfy`: plugin unwrapping.
- `messages.dfy`: `_prepare_messages`.
- `request.dfy`: `_make_request`.
- `call.dfy`: `_call_sai`.
- `streaming.dfy`: the chunking loop of `astreaming`.
- `handler.dfy`: `completion` / `acompletion` and `astreaming`.

Inputs the Python code gets from its environment are parameters here:

- The credentials `SAI_KEY` and `SAI_COOKIE` are a `Config` value. An empty
  string stands for an unset variable.
- The millisecond clock is `clock: nat -> int`. It gives the reading taken
  for the i-th upstream record.
- The HTTP endpoint is `server: HttpRequest -> Reply`. A request is its
  headers and payload. A reply is a response, a timeout or a connection
  failure.
- The methods return the sequence of requests they sent. This lets the
  contracts talk about how many requests were made and with which
  credential.

Points where the code's behaviour is easy to misread:

- **Any failed key attempt is retried.** The comment at line 295 says the
  cookie retry is for the usage-limit 429. Line 296 retries whenever the key
  attempt gives no response and a cookie is set. This includes a 401, a
  timeout and any other 4xx. See `Call.UnauthorizedKeyAttemptIsRetried`.
- **One no-response outcome.** A 401 and a usage-limit 429 both give no
  response (lines 513 and 481), as do a timeout and a connection error. All
  of them get the connection diagnostic.
- **Non-dict elements.** An element of the message list that is not a dict
  and has no `get` method makes line 134 raise `AttributeError`. This happens
  before the `ValueError` of line 149 is reached. The model keeps both
  (`PrepareError.NoGetMethod`, `PrepareError.NotADict`).
- **Module-level credentials only.** Every request uses the API key and
  cookie read once at module level; a call cannot pass its own.
- **Sentinels are plain strings.** A successful response whose body is
  exactly `"PROMPT_TOO_LONG"` is reported as a too-long prompt. See
  `Call.SentinelBodyReadsAsTooLong`.

## Model

| member | source | states |
|---|---|---|
| `Text.Find` | sai_handler.py:107 | `str.find` from a start index returns the first occurrence at or after it, or -1 when there is none |
| `Text.DecimalString` | sai_handler.py:330 | the message count in the too-long diagnostic is written as Python's `str` of a number: decimal digits, no leading zero, denoting exactly that number |
| `Plugin.ExtractBetween` | sai_handler.py:104-112 | for any prefix and marker, detection holds iff the text starts with the prefix and the first marker at or after the prefix's end lies strictly beyond it; the result is the non-empty, marker-free slice between the prefix and exactly that first marker (its end is `find`'s index), and the text is returned unchanged otherwise |
| `Plugin.ExtractPluginWrappedMessage` | sai_handler.py:90-114 | returns (true, s) exactly for a string content wrapped by the plugin's prefix and marker; `s` is the non-empty slice between the prefix and the first marker after it and holds no marker; in every other case, non-strings included, returns (false, content) unchanged |
| `Plugin.UnwrapIdempotent` | sai_handler.py:97-114 | unwrapping content that was already unwrapped detects nothing and changes nothing |
| `Messages.UnwrapElement` | sai_handler.py:122-127 | only the content of a dict whose content is detected as wrapped is replaced, by the unwrapped text; no other key and no non-dict element changes |
| `Messages.ShapeError` | sai_handler.py:147-151 | the validation loop raises iff some element is not a dict or lacks "role" or "content"; the error is that of the first such element: "not a dict" (line 149) if it is not a dict, else "missing role or content" (line 151) |
| `Messages.StructureError` | sai_handler.py:134-151 | after unwrapping, an element without `get` raises (the character total) before any shape check; when every element has `get`, the error is the shape check's (first malformed element, lines 149 and 151); no error iff every element is a dict with "role" and "content" |
| `Messages.Normalize` | sai_handler.py:116-166 | an empty list fails; success iff every element is a dict with role and content; with a leading system message the prompt is its content and there are n-1 records, otherwise the prompt is "" and there are n; records keep order, copy content and role, and have id = clock reading + position |
| `Messages.IdsIncrease` | sai_handler.py:162-166 | for a clock that never runs backwards, record ids are strictly increasing, hence distinct |
| `Messages.UnwrapPluginMessages` | sai_handler.py:122-127 | the unwrapping loop replaces each list element in place by its unwrapped form |
| `Messages.CheckStructure` | sai_handler.py:134-151 | the character-total and validation loops raise exactly the error `StructureError` gives, and none iff every element is well formed |
| `Messages.ToUpstream` | sai_handler.py:162-166 | one record per processed message, in order, with its content, its role and id = clock reading + position |
| `Messages.PrepareMessages` | sai_handler.py:116-181 | a non-list fails; the caller's list is unwrapped in place even when a later check fails; the result is `Normalize` of the unwrapped list |
| `Request.HeadersFor` | sai_handler.py:402-412 | the three fixed headers plus exactly one credential header, which carries the credential |
| `Request.BuildHeaders` | sai_handler.py:402-415 | headers exist iff the key is asked for and set, or the cookie is set; `X-Api-Key` is present iff the key is asked for and set; exactly one credential header |
| `Request.Classify` | sai_handler.py:440-531 | a status outside 400-599 gives the body and the parsed usage headers (0 and "unknown" as defaults); a guarded 500 gives "PROMPT_TOO_LONG" iff the lower-cased body mentions "prompt is too long" or "openaicompatible", else "HTTP_500_ERROR"; everything else (429 with or without the limit message, 401, other errors, timeouts, connection failures) gives no response |
| `Request.MakeRequest` | sai_handler.py:396-531 | a request is sent iff a credential is usable, with exactly one credential header; with none, nothing is sent and (None, None) is returned; otherwise the result is the classification of the reply |
| `Call.BuildPayload` | sai_handler.py:270-272 | the payload carries the system and user inputs, and the chat messages exactly when there are any |
| `Call.Attempts` | sai_handler.py:290-310 | at most two requests; with the key set the first uses the key; a second happens iff the key attempt gave no response and a cookie is set, and it uses the cookie; without a key exactly one cookie request is made if a cookie is set, else none; every request has exactly one credential header and the same payload |
| `Call.SendWithFallback` | sai_handler.py:287-310 | the requests sent are `Attempts` and the final (response, headers) is that of the last request |
| `Call.Translate` | sai_handler.py:312-394 | "PROMPT_TOO_LONG" gives "length" and the too-long diagnostic; "HTTP_500_ERROR" and no response give "error"; these carry zero usage and model "unknown"; any other text is returned verbatim with "stop" and the header usage; total = prompt + completion tokens always |
| `Call.MapOutcome` | sai_handler.py:312-394 | the zero-filled usage record, filled in field by field, and the text and finish reason are exactly `Translate` of the outcome |
| `Call.CallSai` | sai_handler.py:268-394 | sends exactly the `Attempts` requests and returns `Translate` of the final outcome, with the number of chat messages in the too-long diagnostic |
| `Call.UnauthorizedKeyAttemptIsRetried` | sai_handler.py:291-301 | a 401 on the key attempt is followed by a cookie attempt whose outcome is final |
| `Call.UsageLimitFallbackSucceeds` | sai_handler.py:291-301 | a usage-limit 429 on the key and a 200 on the cookie: two requests, the cookie's body with "stop" and total tokens 5 from 3 + 2 |
| `Call.PromptTooLongEndsWithLength` | sai_handler.py:484-492 | a guarded 500 whose body says "prompt is too long" in any letter case, on the key: one request only, then "length" and the too-long diagnostic with zero usage |
| `Call.SentinelBodyReadsAsTooLong` | sai_handler.py:322-335 | a 200 whose body is "PROMPT_TOO_LONG" is reported as "length", although usage headers came with it |
| `Streaming.EmitChunks` | sai_handler.py:254-265 | the loop yields exactly the chunks of `Chunks` in order |
| `Streaming.ConcatRoundTrip` | sai_handler.py:254-265 | joining the chunk texts in index order reproduces the text exactly |
| `Streaming.ChunksShape` | sai_handler.py:254-265 | n = ceil(len/size) chunks with indices 0..n-1, each of 1 to size characters and all but the last exactly size (the slice at line 255); only the last is finished and only it carries the finish reason; every chunk carries the usage; empty text gives no chunk |
| `Handler.Completion` | sai_handler.py:184-209 | a non-list or empty list fails; the list is unwrapped in place; on success the prompt is the last message's content after unwrapping, the requests sent are `Attempts`, and text, finish reason and usage are `Translate` of the final outcome |
| `Handler.Stream` | sai_handler.py:248-265 | as for the completion, the caller's list is unwrapped in place and a failure carries the preparation error; on success the stream is the chunking of the completion's text, with its finish reason and usage |

## Left out

- Logging is not modelled: the logger setup and every `logger.*` call, including the verbose payload dumps.
- The token estimate and its 128000-token warning (lines 168-179) are not modelled. They only log. Their character total is kept only for the `AttributeError` it can raise.
- Environment loading and the startup checks of lines 14-56 are not modelled. `SAI_KEY` and `SAI_COOKIE` are a `Config` parameter, and a configuration with neither is allowed.
- `SAI_URL` and `SAI_TEMPLATE_ID` are not modelled, so the URL of line 269 is absent. A request is only its headers and payload.
- The HTTP session, its adapter retries (`MAX_RETRIES`), the connection pool and the timeout value are foreign I/O. `server` stands for them.
- Request.Classify: the `resp and ...` guards of lines 475 and 484 depend on the HTTP library's truthiness of a response object. The model takes them as the input `truthy` and does not fix its value. In the `requests` library a response with an error status is false, which would make both branches unreachable.
- Request.Classify: `raise_for_status` is taken to raise exactly for statuses 400-599.
- Request.Classify: `int()` parsing of the `prompttokens` and `completiontokens` headers is abstracted to "parsed integer, or 0 when missing or not an integer".
- Request.Classify: `str.lower` is modelled on ASCII letters only. Non-ASCII case mappings are not captured.
- Response time, tokens per second, status code and response length (lines 438-469) are not modelled. They are floats or only logged.
- The `timeout` argument of `_make_request` is not modelled. No caller passes it.
- `asyncio` is not modelled (`run_in_executor`, `sleep`). `acompletion` is the same as `Handler.Completion`.
- The uuid request id (line 185) is not modelled. It only labels log lines.
- litellm's `ModelResponse` and `GenericStreamingChunk` are replaced by plain records. `tool_use` is always `None` and is dropped.
- The second `if not messages` check (lines 192-193 and 220-221) is not modelled. It can never fire.
- Messages.PrepareMessages: list elements are values. Two positions holding the same dict object are not modelled as aliases. Because unwrapping is idempotent, this does not change the result.
- Messages.PrepareMessages: a non-dict element that has a `get` method is taken to behave like `dict.get` at line 134.
- Call.CallSai: `len(system)` and `len(user)` in the log line of lines 275-281 raise `TypeError` for content without a length, such as `None` or a number. The model treats every content value as sendable.
