# Atlas Stream Processing web client — verified model of its request core

`web_api_client.py` is a small Flask application. It serves a single page
for managing MongoDB Atlas Stream Processing: listing, creating, starting,
stopping and deleting stream processors, stream processing instances and
their connections. Every action button of the page posts a JSON body to
one of eleven `/api/...` routes. The route validates the body, builds one call to
the Atlas Administration API (version 2), makes it with HTTP digest
authentication, and turns whatever comes back into a JSON envelope for the
page. The page can also fill its connection form from a pasted
`key = value` configuration text.

This project models three parts of it in Dafny and proves their properties.

- **Routing** (`router.dfy`, module `Router`). `get_request_data` and the
  eleven handlers become one pure function, `Resolve(route, body)`. It
  takes a JSON body and returns either the upstream call (verb, URL,
  Accept, Content-Type, JSON body, credentials) or the handler's failure.
  A failure is either a 400 message or a Python exception that escapes the
  handler.
  - The handlers are modelled branch by branch (`Dispatch`) and checked
    against an independent endpoint table (`Endpoints`: resource ×
    operation → verb, path, media type).
  - Python truthiness, `dict.get` and `data['atlas_host']` are modelled as
    Python evaluates them.
  - URLs are kept as templates of literal text and interpolated JSON
    values. They are rendered to text when every interpolated value is
    null, a boolean, an integer or a string.
- **Outcome normalisation** (`gateway.dfy`, module `Gateway`). The
  `try`/`except` of `make_atlas_request` becomes `Normalise(outcome)`. It
  maps the outcome of the HTTP call to the envelope and status the page
  receives. `Serve` composes routing and normalisation, and `Classify`
  reads a reply back into the error taxonomy:
  - input rejected;
  - upstream rejection;
  - transport failure;
  - internal failure;
  - crash.
- **Configuration text** (`config.dfy`, module `ConfigText`). The page's
  `parseAndPopulateConfig` becomes a class over the five form inputs, with
  a method that loops over the lines and updates the inputs in place. The
  method is proved equal to a fold (`ApplyLines`) of a per-line
  specification built from JavaScript's `split` and `trim`, modelled
  exactly.

`json.dfy` (module `Json`) holds the Python JSON values, truthiness and the
`str()` of printable values; `wrappers.dfy` holds `Option` and `Result`.

In these places the code does something a reader may not expect; the
model follows the code:

- A 2xx response other than 204 whose body is not JSON does not pass
  through. `response.json()` raises requests' `JSONDecodeError`, which is a
  `RequestException`, so the page gets "A network error occurred." with
  status 500.
- `raise_for_status` raises only for 400–599. A 1xx or 3xx final response
  with a JSON body is passed through with 200, like a 2xx.
- Input problems are not always 400s:
  - A body whose `atlas_host` key is absent passes the common gate (the
    host is defaulted). The handler's `data['atlas_host']` then raises
    `KeyError`, which becomes Flask's 500 page.
  - A truthy body that is not a JSON object fails on `data.get` with
    `AttributeError`.
  - `manage_processor` builds its URL before it checks the action, so an
    absent host wins over an invalid action. `manage_connection` checks the
    action first.
- `debug_info` echoes the headers as sent, including the digest
  `Authorization` header.

## Model

| member | source | states |
|---|---|---|
| Router.Resolve | web_api_client.py:934-1126 | An empty or absent body gives 400 "Invalid request format. Expected JSON.". A truthy body that is not an object raises AttributeError. Any falsy credential gives 400 "Missing required fields.", with the host defaulted only when its key is absent. A call is made exactly for admissible bodies, and it is the call the endpoint table prescribes. |
| Router.ResolveMissingFields | web_api_client.py:949-1107 | Past the common gate, a route whose own required fields are falsy (or whose `spi_body` is not a dict) is refused with that route's own 400 message, before any call. |
| Router.ResolveRouteGates | web_api_client.py:959-1113 | With the route's fields present, an absent `atlas_host` key raises KeyError, except where manage_connection has already refused the action. An unknown action gives "Invalid action specified." or "Invalid action specified for connection.". |
| Router.DispatchFollowsTable | web_api_client.py:949-1126 | Once the common gate is passed, each handler refuses exactly when its fields are missing or its action is unknown, raises exactly on the absent host, and otherwise calls the verb, path, Accept and Content-Type of the table row for its resource and action. |
| Router.ManageProcessorFollowsTable | web_api_client.py:963-991 | start and stop POST to the processor URL followed by `:start` or `:stop`. delete sends DELETE to the processor URL unchanged. Any other action gives 400 "Invalid action specified.". The URL is built, and can raise, before the action is checked. |
| Router.ProcessorRoutesFollowTable | web_api_client.py:949-1021 | fetch_data, create_processor and get_processor_stats agree with the processor rows of the table, with the processor media type as Accept and the processor body sent only on create. |
| Router.InstanceRoutesFollowTable | web_api_client.py:1023-1126 | create_spi requires `spi_body` to be a truthy dict. delete_spi requires an instance name. list_spis requires nothing beyond the common gate. All three use the instance media type. |
| Router.ConnectionRoutesFollowTable | web_api_client.py:1051-1116 | The connection routes agree with the connection rows of the table. manage_connection accepts only `delete` and refuses any other action with "Invalid action specified for connection." before touching the host. |
| Router.RenderedUrl | web_api_client.py:959-1124 | For string identifiers, the URL of a resolved call renders as `https://{host}/api/atlas/v2/groups/{project}` followed by the table path with the identifiers copied in unescaped. Only the identifiers the URL uses must be strings: create_spi and list_spis need no instance name, and only the stats, details and management routes need a processor or connection name. |
| Router.FillUsedOnly | web_api_client.py:959-1124 | The URL path of every route depends only on the identifiers that route uses: neither an instance name for create_spi and list_spis, nor a processor or connection name outside the stats, details and management routes. Every operation a request can ask for also has a table entry. |
| Router.RenderInstantiate | web_api_client.py:959-1124 | Rendering a path template filled with string identifiers gives the same text as substituting the identifiers into the path's segments. |
| Router.RenderAppend | web_api_client.py:976-986 | Rendering distributes over concatenating URL templates, as appending `:start` or `:stop` to the base URL does. |
| Router.ProcessorStartExample | web_api_client.py:976-980 | Starting processor p1 on instance i1 POSTs to a URL ending exactly in `/processor/p1:start`. |
| Json.ParseNatText | web_api_client.py:914 | The decimal text `str()` gives a natural number reads back as that number. |
| Json.NatTextInjective | web_api_client.py:914 | Distinct numbers have distinct decimal texts. |
| Gateway.ResolvedHeaders | web_api_client.py:894-1126 | make_atlas_request passes exactly two headers to requests, Accept and Content-Type. Accept is `application/vnd.atlas.2024-05-30+json` on the four processor routes and `application/vnd.atlas.2023-02-01+json` on all the others. Content-Type is that instance media type on create_connection and `application/json` everywhere else. |
| Gateway.Normalise | web_api_client.py:900-932 | No exception escapes. 204 becomes the acknowledgement with 200. A non-error JSON response passes through with 200. A non-error response other than 204 whose body is not JSON gives "A network error occurred." with 500 and the decoder's message as details. A 4xx or 5xx keeps its status and reports "HTTP Error: {status} {reason}", with the body as JSON details or, if unparsable, as raw text. debug_info is present exactly when the error response carries its request, and echoes that request's method, URL and headers. Transport failures and other exceptions give 500 with their message. The status is 200 exactly when the upstream call succeeded. |
| Gateway.ToJson | web_api_client.py:910-932 | The acknowledgement is `{"success": true, "message": "Action completed successfully."}`. An error object has `error`, has `details` exactly when there are details, has `debug_info` exactly when there is debug information, and has no other member. `details` holds the parsed body, or the raw text as a JSON string. `debug_info` is exactly `{method, url, headers}`, with each header as a string. |
| Gateway.HttpErrorJson | web_api_client.py:913-928 | The JSON of a 4xx or 5xx reply keeps the upstream status and has `error` = "HTTP Error: {status} {reason}". Its `details` is the parsed body, or the raw text when the body is not JSON. `debug_info` is present exactly when the response carries its request, and then holds that request's method and URL. |
| Gateway.FailureJson | web_api_client.py:929-932 | A transport failure, another exception, or a non-error response whose body is not JSON gives status 500 and a JSON object with exactly `error` and `details`. The marker is "A network error occurred." (or "An unexpected server error occurred." for other exceptions), and the details are the message. |
| Gateway.Serve | web_api_client.py:894-953 | A request makes one upstream call when it resolves and none otherwise. A rejected request gets its handler's 400 message alone. An exception in the handler gives the framework's 500 page. A resolved request gets make_atlas_request's reply for the outcome. |
| Gateway.RejectionIgnoresUpstream | web_api_client.py:952-953 | A request that makes no call gets a reply independent of anything upstream. |
| Gateway.NormaliseIsClassified | web_api_client.py:909-932 | From the reply alone, the page can tell a success from an upstream rejection, a transport failure and an internal failure, and each outcome falls in exactly its own category. |
| Gateway.ServeIsClassified | web_api_client.py:894-1126 | Input rejections, crashes and the upstream categories are disjoint, and each reply is recognised as the category of what happened to its request. |
| Gateway.HttpErrorLineRoundTrip | web_api_client.py:913-914 | The status and reason can be read back from the "HTTP Error: {status} {reason}" line. |
| Gateway.DigitRunOfDigits | web_api_client.py:914 | The run of digits at the start of a status text followed by a space is exactly the status text. |
| ConfigText.SplitCount | web_api_client.py:418-421 | `split` with a one-character separator gives one more piece than there are separators, so exactly two pieces means exactly one '='. |
| ConfigText.SplitSeparatorFree | web_api_client.py:418-421 | No piece of a split contains the separator. |
| ConfigText.SplitJoins | web_api_client.py:418-421 | Joining the pieces of a split with the separator gives back the text. |
| ConfigText.SplitJoin | web_api_client.py:418-421 | Splitting separator-free pieces joined by the separator gives back the pieces. |
| ConfigText.JoinUnique | web_api_client.py:418-421 | Two lists of separator-free pieces that join to the same text are equal. |
| ConfigText.Trim | web_api_client.py:422-423 | A trimmed key or value neither starts nor ends with JavaScript whitespace or a line terminator. |
| ConfigText.LeadingSpace | web_api_client.py:422-423 | Trim removes exactly the whitespace run at the start of the text, up to the first other character. |
| ConfigText.TrailingSpace | web_api_client.py:422-423 | Trim removes exactly the whitespace run at the end of the text, back to the last other character. |
| ConfigText.TrimIsMiddle | web_api_client.py:422-423 | What trim keeps is a contiguous middle of the text, with only whitespace removed on either side. |
| ConfigText.TrimExactly | web_api_client.py:422-423 | Whitespace around text that has no whitespace at its ends is exactly what trim removes. |
| ConfigText.TrimIdempotent | web_api_client.py:422-423 | Trimming twice is trimming once. |
| ConfigText.FieldOf | web_api_client.py:424-440 | A recognised key is the key of the field it fills. |
| ConfigText.FieldOfKeyOf | web_api_client.py:424-440 | `public_key`, `private_key` and `project_id` fill the same-named inputs. `spi_name` fills the instance name and `api_host` fills the Atlas host. The five keys are distinct. |
| ConfigText.Set | web_api_client.py:426-438 | Setting one input gives it the value and leaves the other four unchanged. |
| ConfigText.Assignment | web_api_client.py:419-441 | A line assigns something only if it contains exactly one '='. |
| ConfigText.AssignmentOfLine | web_api_client.py:419-441 | A line `key=value` with a single '=' and a recognised trimmed key assigns the trimmed value to that key's input. |
| ConfigText.UnknownKeyAssignsNothing | web_api_client.py:424-440 | A line whose trimmed key is not one of the five assigns nothing. |
| ConfigText.ApplyLineGet | web_api_client.py:419-441 | A line sets the input it assigns and leaves every other input unchanged. |
| ConfigText.Unassigned | web_api_client.py:418-442 | An input that no line assigns keeps its value, so lines with unknown keys or without exactly one '=' change nothing. |
| ConfigText.LastAssignmentWins | web_api_client.py:418-442 | When several lines assign an input, the last of them decides its value. |
| ConfigText.ConfigForm.Populate | web_api_client.py:424-440 | The switch on the trimmed key sets the recognised key's input to the value and changes nothing for any other key. |
| ConfigText.ConfigForm.ParseAndPopulateConfig | web_api_client.py:417-442 | After the loop over the lines split on '\n', the inputs hold the fold of the per-line assignments over their previous contents. |

## Left out

- Flask plumbing: the route registration, `request.get_json`, `jsonify` and `render_template_string` (web_api_client.py:32, 889-892). The body is an input value, and envelopes are the `Envelope` datatype with `ToJson` giving their JSON shape.
- The HTTP call itself: `requests.request`, HTTP digest authentication (RFC 7616) and the 30-second timeout (web_api_client.py:901-908). They are I/O in a library outside the model, so their outcome is the `Exchange` input of `Normalise`. How requests prepares the URL (percent-encoding, IDNA hosts) is part of this and is not modelled.
- JSON decoding of response bodies: a body is given as parsed or not parsed, with the decoder's message.
- The HTML, CSS and every other piece of the page's JavaScript (web_api_client.py:36-416, 445-880), including the DOM lookups by element id and hiding the modal after parsing (line 443). These are user interface and browser I/O.
- The `__main__` block with dotenv, the TLS file checks and `app.run` (web_api_client.py:1131-1148): process start-up and file-system access.
- Router.RenderedUrl: states the rendered text only for string identifiers, which the page always sends. Integer, boolean and null identifiers render through `Render` (as `str()` writes them), but no lemma states their URL text. URLs holding a float, list or dict identifier are not rendered at all: Python's `str()` of those depends on float formatting and on dict insertion order, which a Dafny map does not keep. Such URLs stay templates, and only their structure is proved.
- ConfigText.ConfigForm.Populate: stores the value as the text after the '=' with its ends trimmed. The five targets are text and password inputs (web_api_client.py:186-202), and the browser strips carriage returns and line feeds from a value assigned to them. So a line `public_key=a\rb` leaves `ab` on the page, where the model holds `a\rb`. This value sanitisation belongs to the browser and is not modelled.
- Gateway.Normalise: the reply for a non-error response whose body is not JSON assumes requests 2.27 or later without simplejson installed, where `response.json()` raises requests' `JSONDecodeError` (a `RequestException`). With an older requests it raises json's `ValueError`, and the reply is "An unexpected server error occurred.". With simplejson installed, the `except json.JSONDecodeError` at web_api_client.py:917 does not catch the error raised for an HTTP error body, and Flask's 500 page results. Neither variant is modelled.
- Json.Value: JSON numbers are integers or reals. NaN, the infinities and 64-bit float rounding are not modelled. Strings are sequences of Unicode scalar values, so a lone surrogate escape such as `"\ud800"`, which Python's `json` accepts in an identifier, is not representable.
- Gateway.ResolvedHeaders: covers only the headers dict that make_atlas_request passes to requests (web_api_client.py:896-899). The headers requests adds on the wire are not modelled. These are User-Agent, Accept-Encoding and Connection from the session defaults, Content-Length, and the `Authorization` header that digest authentication adds on the retried request. `debug_info` echoes the headers of the request as requests prepared it, which is an input of the model.
- ConfigText.Split: works on sequences of Unicode scalar values, whereas JavaScript strings are UTF-16 code units. The two agree for the '\n' and '=' separators and for the whitespace set of `trim`, but unpaired surrogates are not representable.
