# Chatbot relay: reply extraction and flow request

The relay is a small FastAPI service that forwards a chat message to a
LangFlow flow service and returns the reply. This project models its two
pieces of deterministic logic in `main.py`:

- `extract_message`: it reads `outputs[0].outputs[0].results.message.text`
  out of the flow service's decoded JSON answer. When anything along the way
  goes wrong, it returns `"No response found"`.
- The request built by `run_flow`: the URL
  `BASE_API_URL + "/api/v1/run/" + endpoint`, and a body with
  `input_value`, `output_type` and `input_type`. The body has a `tweaks`
  member only when the tweaks are truthy.

Files:

- `Wrappers.dfy`: `Option`, usable with `:-`.
- `Json.dfy`: the decoded JSON value, following section 3 of RFC 8259. It
  also holds the two Python operations the lookup chain uses, `dict.get` with
  a default (`Get`) and `x[0]` (`Index0`). Any exception is `None`.
- `Json.dfy` also holds the strict path navigation `Follow`. It takes no
  defaults and never indexes strings, and it is the reference the relay's
  lookup is proved against.
- `Extraction.dfy`: the lookup chain as written (`Extraction.Lookup`),
  `ExtractMessage`, one lemma per case of its behaviour (module
  `ExtractionCases`), and the module `ReplyText`, which holds the
  string-valued `ExtractReply` (see Findings).
- `FlowRequest.dfy`: the constants and `BuildRequest`, whose parameters carry
  `run_flow`'s defaults.

The main theorem is the contract of `Extraction.ExtractMessage`:
`ExtractMessage(j) == Follow(j, ReplyPath).GetOr(Fallback)`. The result is
exactly the value at the strict path when that path exists, and the fallback
otherwise. The defaults `[]` and `{}`, the `'No response found'` default for
`text`, and the indexing of a string therefore never produce anything other
than the fallback. `ExtractMessage` has no precondition: like the
catch-all handler, it is defined for every JSON value.

`extract_message` is declared `-> str`, but it returns the value at `text`
as it is, whatever its kind (see Findings).

## Model

| member | source | states |
|---|---|---|
| Extraction.ExtractMessage | main.py:60-74 | total; the reply is exactly the value at `outputs[0].outputs[0].results.message.text`, unchanged and of any kind, when every step of that path exists, and `"No response found"` in every other case |
| Extraction.LookupAgreesWithPath | main.py:67-74 | the `.get`/`[0]` chain with its defaults returns the value at the strict path whenever that path exists; otherwise it either raises or returns the fallback text, never anything else |
| ExtractionCases.ReplyFound | main.py:69-71 | a body of the expected shape, with any extra members or elements, yields the value at `text` unchanged |
| ExtractionCases.EnvelopeRoundTrip | main.py:69-71 | wrapping any value as `text` in the expected envelope and extracting gives that value back |
| ExtractionCases.OuterOutputsMissingOrEmpty | main.py:69-74 | a top-level `outputs` that is missing (default `[]`) or empty makes `[0]` raise (the chain yields no value), and the result is the fallback |
| ExtractionCases.InnerOutputsMissingOrEmpty | main.py:69-74 | an `outputs` of the first run that is missing or empty makes `[0]` raise (the chain yields no value), and the result is the fallback |
| ExtractionCases.DefaultsGiveFallback | main.py:69-71 | a missing `results` or `message` takes the `{}` default, and a `message` without `text` takes the fallback default; the chain does not raise and returns the fallback |
| ExtractionCases.ShapeMismatch | main.py:67-74 | any value along the path that is not an object where a member is read, or not a non-empty array where `[0]` is taken, gives the fallback |
| ExtractionCases.NotAnObject | main.py:67-74 | a body that is not an object (no `.get`) gives the fallback |
| ReplyText.NullTextIsReturned | main.py:60-71 | as written, a well-shaped body whose `text` is `null` makes `extract_message` return `null`, not a string |
| ReplyText.ExtractReply | main.py:60-74 | the reply as declared, always a string: the string at the path when there is one, `"No response found"` otherwise; it agrees with `extract_message` whenever that returns a string |
| FlowRequest.BuildRequest | main.py:29-50 | the URL is `BASE_API_URL`, then `/api/v1/run/`, then the endpoint; the body maps `input_value`, `output_type` and `input_type` to the message and the two types; it has a `tweaks` member, mapped to the given tweaks, if and only if the tweaks are present and non-empty |
| FlowRequest.UrlDeterminesEndpoint | main.py:42 | two requests with the same URL, whatever their messages, types and tweaks, were built for the same endpoint |
| FlowRequest.PayloadDeterminesArguments | main.py:44-50 | two equal bodies, whatever endpoints they were built for, carry the same message, output type, input type and truthiness of tweaks, and the same tweaks when they are sent |
| FlowRequest.DefaultRequest | main.py:26-50 | called with only a message, the request goes to `BASE_API_URL + "/api/v1/run/" + FLOW_ID` with exactly the three members and both types `"chat"` |

## Left out

- The outbound `requests.post`, the decoding of the answer with `response.json()`, and the status-code print (main.py:52-58). These are network I/O through a foreign library. The decoded answer is an arbitrary `Json` input to `ExtractMessage`.
- The diagnostic prints (main.py:55, 73, 101). They are side effects only.
- The FastAPI app, the CORS middleware and the pydantic models (main.py:1-23). They are framework configuration and library validation.
- The `/chat` handler and the WebSocket handler (main.py:77-103). They are asynchronous transport around the core. `FlowRequest.DefaultRequest` states the request both of them build.
- In the WebSocket handler (main.py:94-103), the `try` encloses the whole `while True`. An error other than a disconnect therefore sends one `"Error: ..."` frame and ends the handler. This behaviour is not modelled.
- The liveness route (main.py:106-108). It returns a constant.
- Concurrency and async scheduling. No part of the core depends on them.
- JSON numbers are `real` values. Python's split between `int` and binary `float` is not modelled, because no step of the extraction depends on a number's value.
- The key order of the request body is not modelled. A Python dict keeps insertion order (main.py:44-50), and the body is serialised in that order, but a `map` has no order. Nothing in the core depends on the order.
- `NaN`, `Infinity` and `-Infinity` are not modelled. Python's `json` decoder accepts them, but a `real` cannot hold them. A body carrying them, at `text` or elsewhere, has no model input.
- Strings holding a lone surrogate are not modelled. Python's `json` decoder accepts an escape such as `"\ud800"`, at `text` or in a key, but a Dafny `char` is a Unicode scalar value and cannot hold it. Such a body has no model input.
- Duplicate keys in a JSON object are not modelled. An object is a map, as after Python's decoder has kept the last occurrence of each key.
- `tweaks` is modelled as an optional dict, following its type hint. A value of another kind is not modelled, although Python does not enforce the hint.

## Findings

| source | as written | input that shows it | evidently intended | confidence | as-written member | corrected member |
|---|---|---|---|---|---|---|
| main.py:60-71 | `extract_message`, declared `-> str`, returns the value at `text` uncoerced | `{"outputs":[{"outputs":[{"results":{"message":{"text":null}}}]}]}` returns `None`, which `ChatResponse(response: str)` rejects | a string reply, the fallback when `text` is not a string | medium, not executed | ReplyText.NullTextIsReturned | ReplyText.ExtractReply |
