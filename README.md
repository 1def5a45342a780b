# Handwriting generation server: request decision

This project models the HTTP server that fronts the handwriting-synthesis
model (`server.py`). It covers how the server decides what to answer:

- GET and POST dispatch. A target that starts with `//` is first reduced to a
  single leading `/`, as the request handler of Python 3.12 does. GET then
  matches the path component that the URL parser computes: leading control
  characters and spaces stripped, tabs and newlines removed, query and
  fragment cut off, and the parameters of the last segment (from a `;` after
  the last `/`) dropped. POST compares the whole target with `/generate`.
- The ordered validation of a generation request. The checks run in this order:
  model loaded, body decodable as JSON, the six required members present
  (`lines`, `biases`, `styles`, `stroke_colors`, `stroke_widths`, `filename`,
  in that order), `lines` non-empty, every line at most 75 characters, and the
  four parallel arrays as long as `lines`. The first failing check decides the
  status code and the exact message. Lines are not trimmed, so a line of
  spaces counts as a line (`BlankLineAccepted`), and every over-long line gets
  the same fixed message, without its index or length.
- The response each outcome produces. Errors are a JSON object whose only
  member is `error`. The health payload is `status: "healthy"` plus `model_loaded`.

A request that passes every check ends in a `Generate` outcome. It carries the
validated arrays unchanged, which is what the server hands to the model.

Files:

- `server.dfy`, module `Server`: the data model and the decision.
  `HandleGenerateRequest` is the generation handler step by step, as written:
  early returns and the loop over the required members. It is proved equal to
  `GenerateOutcomeAsWritten`. That function differs from the corrected
  `GenerateOutcome` only on a body that is not UTF-8 (see Findings).
  `Route` is the dispatch. It hands a POST to `/generate` to the corrected
  `GenerateOutcome`. `Respond` builds the response for an outcome.
- `server_properties.dfy`, module `ServerProperties`: lemmas about check order,
  the inclusive line limit, the URL path, routing and response shape.

Inputs the model takes as parameters:

- whether the model loaded;
- the method and the request target;
- the body, already decoded. It is either bytes that are not UTF-8, text that
  is not JSON, or a JSON object given as a map from member names to typed values.

## Model

| member | source | states |
|---|---|---|
| `Server.FirstMissing` | server.py:145-149 | the index returned is the first required member absent from the body; every member before it is present; the full length means none is missing |
| `Server.GenerateOutcome` | server.py:126-171 | corrected handler: generation happens iff the model is loaded, the body is a JSON object, all six members are present, `lines` is non-empty, every line is at most 75 characters and the four arrays match its length; the arrays are passed on unchanged; every other answer is a JSON error with one of the handler's messages, 500 exactly when the model is not loaded and 400 otherwise |
| `Server.GenerateOutcomeAsWritten` | server.py:126-210 | the handler as written: without a loaded model every body, decodable or not, gets 500 "Handwriting model not loaded", since the model check runs before the decoding; generation happens under exactly the same condition, with the arrays unchanged; every other answer is an error, 500 exactly when the model is not loaded or the body is not UTF-8, and in the second case the message is "Internal server error: " followed by the decoder's message |
| `Server.HandleGenerateRequest` | server.py:126-171 | the step-by-step handler, with its early returns, the decoding step and the loop over the required members, answers exactly as `GenerateOutcomeAsWritten` |
| `Server.Respond` | server.py:51-220 | a JSON error has the outcome's status and a body holding only `error`; the health payload is `status: "healthy"` and `model_loaded`; the status page shows the model state; a non-error outcome answers 200 exactly when it is the status page, health, the preflight or a generation, and not-found answers 404; the content type is JSON exactly for errors and health |
| `Server.HandlerTarget` | server.py:119-122 | the target the handler reads from `self.path`: a target not starting with `//` is kept; otherwise the leading run of slashes becomes a single `/` and the rest is kept |
| `Server.LstripControl` | server.py:53 | the result is a suffix of the target, everything cut is a control character or space, and the result does not start with one |
| `Server.RemoveTabsAndNewlines` | server.py:53 | the result holds no tab, carriage return or line feed; a target without them is unchanged and a target made only of them becomes empty; with `RemoveTabsDistributes` this fixes the result: every other character is kept, in order |
| `ServerProperties.RemoveTabsDistributes` | server.py:53 | removing tabs and newlines from a concatenation removes them from each part and concatenates the results |
| `Server.BeforeQueryOrFragment` | server.py:53 | the result is the prefix before the first `?` or `#`, and holds neither |
| `Server.StripParams` | server.py:53 | the result is a prefix of the path, cut only at a `;` that no `/` follows; every `;` kept has a `/` after it |
| `Server.UrlPath` | server.py:53 | the path component holds no `?`, `#`, tab or newline, and does not start with a control character or space |
| `Server.Route` | server.py:51-124 | a POST whose target, after the `//` reduction, is exactly `/generate` gets the corrected handler's answer, code, message and arrays included; OPTIONS gets the preflight and any other method the 501 for that method; generation happens iff the request is a POST whose target, after the `//` reduction, is exactly `/generate` and passes every check; 404 iff a GET path is neither `/` nor `/health` or a POST target is not `/generate`; the status page and health answer iff the GET path is `/` or `/health`, and carry the model state; JSON errors come only from POST `/generate` |
| `ServerProperties.ModelCheckPrecedesParsing` | server.py:130-132 | without a loaded model every generation request gets 500 "Handwriting model not loaded", whatever its body |
| `ServerProperties.UndecodableBodyRejected` | server.py:138-142 | with a loaded model, a body that does not decode gets 400 "Invalid JSON data" and no member is examined |
| `ServerProperties.MissingFieldReported` | server.py:145-149 | when member k is absent and all members before it are present, the answer is 400 "Missing required field: " followed by member k's name |
| `ServerProperties.MissingFieldMessageNamesFirstAbsent` | server.py:145-149 | conversely, a missing-field answer names an absent required member whose predecessors are all present |
| `ServerProperties.MissingFieldMessageIsDistinct` | server.py:141-170 | a missing-field message differs from every other 400 message of the handler |
| `ServerProperties.EmptyLinesRejected` | server.py:159-161 | empty `lines` gets 400 "Lines cannot be empty", whatever the other arrays' lengths |
| `ServerProperties.OverlongLineRejected` | server.py:163-165 | a line longer than 75 characters gets 400 "Each line must be 75 characters or less", whatever the other arrays' lengths |
| `ServerProperties.LengthMismatchRejected` | server.py:167-171 | once `lines` is non-empty and within the limit, any array whose length differs from `lines` gets 400 "All arrays must have the same length as lines" |
| `ServerProperties.LineAtLimitAccepted` | server.py:163-188 | a line of exactly 75 characters is accepted and passed to generation unchanged |
| `ServerProperties.LineOverLimitRejected` | server.py:163-165 | a line of 76 characters is rejected |
| `ServerProperties.BlankLineAccepted` | server.py:159-165 | lines are not trimmed: a line of blanks is accepted |
| `ServerProperties.UrlPathIgnoresQuery` | server.py:53 | a query string after a path without `?` or `#` does not change the path component |
| `ServerProperties.UrlPathOfPlainTarget` | server.py:53 | for a target that starts with a single `/` and holds no control character, space, `?` or `#`, the path component is the target without the parameters of its last segment |
| `ServerProperties.PlainTargetIsItsOwnPath` | server.py:53 | such a target that also holds no `;` is its own path component |
| `ServerProperties.StripParamsCutsParameters` | server.py:53 | a path without `;` followed by `;` and text without `/` loses exactly that parameter part |
| `ServerProperties.PlainHealthTarget` | server.py:53-104 | the target `/health` has the path `/health` |
| `ServerProperties.HealthTargetWithParams` | server.py:53-104 | the target `/health;v=1` has the path `/health` |
| `ServerProperties.HealthTargetWithDoubledSlash` | server.py:53-104 | the target `//health` has the path `/health` |
| `ServerProperties.HealthReportsModelState` | server.py:104-114 | a GET on any target whose path component is `/health` (plain, with a query, with parameters or with a doubled slash) answers 200 JSON `status: "healthy"` and `model_loaded` equal to whether the model is loaded |
| `ServerProperties.StatusPageShowsModelState` | server.py:55-80 | a GET on any target whose path component is `/` answers the 200 HTML status page showing whether the model is loaded |
| `ServerProperties.DoubledSlashReachesGeneration` | server.py:121-122 | a POST to `//generate` is handled as a generation request |
| `ServerProperties.PostWithQueryNotFound` | server.py:119-124 | POST compares the whole target, so `/generate?` plus any query gets 404 |
| `ServerProperties.ErrorResponsesCarryOnlyTheMessage` | server.py:212-220 | every non-200 JSON response has status 400 or 500 and a body whose only member is `error`, holding one of the handler's messages |
| `ServerProperties.BadRequestOnlyFromGeneration` | server.py:119-171 | a 400 answer only comes from a POST to `/generate` with the model loaded |
| `ServerProperties.AsWrittenAgreesOnUtf8Bodies` | server.py:138-142 | the handler as written and the corrected one answer alike on every body that is UTF-8 |
| `ServerProperties.NonUtf8BodyAnsweredAsServerError` | server.py:138-210 | as written, a non-UTF-8 body gets a 500 internal error, which differs from the 400 invalid-JSON answer |

## Findings

| source | as written | input that shows it | evidently intended | confidence | as-written member | corrected member |
|---|---|---|---|---|---|---|
| server.py:138-142 | the body is decoded as UTF-8 inside the `try` whose only handler is for JSON decoding errors; a decoding error from the codec is not a JSON decoding error, so it reaches the outer catch-all and the client gets 500 "Internal server error: ..." | a POST to `/generate` with the model loaded and a body of the single byte 0xFF | a body that cannot be read as JSON gets 400 "Invalid JSON data" | medium; not executed | `Server.HandleGenerateRequest`, `Server.GenerateOutcomeAsWritten` (with `ServerProperties.NonUtf8BodyAnsweredAsServerError`) | `Server.GenerateOutcome` and `Server.Route`, which uses it (with `ServerProperties.UndecodableBodyRejected`) |

## Left out

- The HTTP machinery: the request handler base class, headers, CORS headers, reading the body by `Content-Length`, writing to the socket, `run_server` and the command line (server.py:226-248). The CORS preflight of `do_OPTIONS` (server.py:43-49) is modelled only as a 200 answer with no payload; its headers are left out. A missing `Content-Length` header raises and falls into the catch-all 500; that path is not modelled.
- The handwriting model (`Hand`) and its `write` call, with the temporary SVG file (server.py:17-23, 176-206). They are a foreign neural-network library and file I/O. Generation is the opaque `Generate` outcome, and its response payload is `GeneratedSvg`.
- JSON decoding itself (server.py:139). The body is given already decoded. Only a JSON object at the top level is modelled; a top-level array, string, number or null is not.
- The catch-all 500 "Internal server error" (server.py:208-210), except for the non-UTF-8 body in Findings. It catches foreign exceptions, such as a failing `write` or a temporary-file error.
- WellTyped: the members `lines`, `biases`, `styles`, `stroke_colors` and `stroke_widths` have fixed array types; it is a precondition of `GenerateOutcome`, `GenerateOutcomeAsWritten` and `HandleGenerateRequest`, and of `Route` for a POST to `/generate`, the only request whose body is read. The answers to other JSON types are not modelled: a falsy `lines` (null, false, 0, "" or an empty object) gets 400 "Lines cannot be empty"; a string `lines` is checked character by character; a member without a length (a number, say) ends in the catch-all 500. `Value` has no null, boolean, scalar number or nested object, so such a `filename` (which the server accepts and never reads) cannot be expressed either.
- The HTML text of the status page, and the text of the standard 404 and 501 error pages. They are presentation only; the model keeps the status code, the content type and whether the model is loaded.
- Logging (server.py:173, 201, 209, 222-224). It is a side effect only.
- The one-time, class-level model initialisation in `__init__` (server.py:30-41). It only holds a foreign object; whether the model loaded is a boolean input.
- The exact JSON text written by `json.dumps`. Responses are modelled as JSON values with ordered members.
- UrlPath: models the path component for targets without a scheme or a network location. A target that starts with `//` once leading control characters are stripped and tabs and newlines removed (for instance a NUL character followed by `//`), or that carries a scheme, is split differently by the URL parser, and that split is not modelled.
- HandlerTarget: follows the request handler of Python 3.12. Versions without the gh-87389 fix keep a leading `//`, so there a POST to `//generate` gets 404.
- The client-side request builder and the stroke animator. Their code is not part of this model.
