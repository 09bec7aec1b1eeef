# CVP MCP server: line-delimited reads and the tag workspace transaction

This project models the two pieces of sequential logic in `mcp_server_rest.py`,
an MCP server that talks to an Arista CloudVision (CVP) controller over its
REST resource API.

- **Reads (`get_request_cvp`).** The controller answers a resource GET with
  line-delimited JSON. The client strips the body and splits it into lines
  the way Python's `str.strip()` and `str.splitlines()` do. It strips every
  line again and skips blank ones. Each remaining line goes to `json.loads`
  on its own. A line that does not parse is reported and dropped, and
  decoding carries on. The function sends two GETs to the same URL:
  - The first GET is decoded, but its values are thrown away.
  - The result comes from the second GET alone.
  - A transport failure on the first GET exits the process.
  - A bad status on the first GET escapes as an exception.
  - Any failure of the second GET gives `None`.
- **Tag creation (`create_tag`).** The client builds four JSON bodies for one
  workspace: create the workspace, stage a device tag in it, start a build
  and submit. It POSTs them in the order create, tag, build, a ten-second
  wait, then submit. It returns the serialised response to the submit.
  `post_request_cvp` ends a call on the first POST that does not succeed:
  - A transport failure exits the process.
  - A non-2xx status raises.
  - A body that is not JSON raises.

Modules:

- `Json`: JSON values, with objects kept as ordered field lists.
- `TextLines`: Python's `strip` and `splitlines`.
- `LineDecoder`: the decode loop and its specification.
- `Http`: requests, replies and the ways a Python call can end.
- `ReadClient`: `get_request_cvp`.
- `Payloads`: the four request bodies.
- `WorkspaceTransaction`: the POST sequence. It runs as a `Session` class with
  these fields:
  - `trace`: every step taken, in order.
  - `state`: the workspace state machine (none, unsubmitted, building,
    submitted, or failed).
  - `history` (ghost): the states the latest transaction went through.

Outside influences are parameters:
- the network, as a function from request to reply (a mocked controller);
- `json.loads`, as `parse: string -> Option<Json>`;
- `json.dumps`, as `dump: Json -> string`;
- the three `uuid4` ids (the workspace id and the two request ids).

The read path sends two GETs to the same URL and returns only the values of
the second; the model has both. The source keeps no workspace state of its
own: `Session.state` and `Session.history` are the model's record of the
controller-side workspace state machine. `Session.CreateTag` builds the four
requests and hands them to `Session.Transact`. The source does all of this in
one function. Transact takes the requests as parameters, so its proof does
not depend on the contents of the payloads.

## Model

| member | source | states |
|---|---|---|
| TextLines.StripEmptyIff | mcp_server_rest.py:54-56 | a line strips to the empty string exactly when it is all whitespace, so exactly the whitespace-only lines are skipped |
| TextLines.StripShape | mcp_server_rest.py:53-54 | `strip()` returns a slice of its input with only whitespace before and after it, and the slice neither starts nor ends with whitespace |
| TextLines.StripIsMiddle | mcp_server_rest.py:53-54 | whitespace, then a middle part with no whitespace at either end, then whitespace, strips to that middle part |
| TextLines.StripIdempotent | mcp_server_rest.py:53-54 | stripping a stripped line changes nothing more |
| TextLines.SplitLines | mcp_server_rest.py:53 | no line of `splitlines()` contains a line boundary, and there are no lines exactly when the text is empty |
| TextLines.Strip | mcp_server_rest.py:53-54 | `str.strip()`; characterised by StripShape and StripIsMiddle |
| TextLines.SplitLinesJoin | mcp_server_rest.py:53 | `splitlines()` gives back exactly the break-free lines that were joined by one separator (any single line boundary, or CR LF), the shape a stripped body has, when the last line is not empty |
| TextLines.SplitLinesTerminated | mcp_server_rest.py:53 | on its own terms, not on a stripped body: `splitlines()` gives back exactly the lines of a text that ends every line with LF, or every line with CR LF, with no empty line after the last; CR LF is one boundary |
| LineDecoder.BodyLines | mcp_server_rest.py:53 | the lines the decode loop walks: `body.strip().splitlines()` |
| LineDecoder.Decoded | mcp_server_rest.py:78-88 | the list the read returns for a body: the values of its lines' verdicts, in order; DecodedExactly states what it holds |
| LineDecoder.Diagnostics | mcp_server_rest.py:82-86 | the stripped lines of a body reported as "Failed to parse", in order; DecodedBound and DecodeJoined state how many and which |
| LineDecoder.Classify | mcp_server_rest.py:54-61 | a line is skipped as blank exactly when it is all whitespace; otherwise its stripped text is parsed or reported |
| LineDecoder.DecodeBody | mcp_server_rest.py:78-86 | the loop returns exactly the specified decoded values and the specified diagnostics for the body |
| LineDecoder.ValuesAppend | mcp_server_rest.py:78-86 | decoding two runs of lines one after the other gives the values of the first followed by those of the second |
| LineDecoder.FailuresAppend | mcp_server_rest.py:82-86 | the diagnostics of two runs of lines are those of the first followed by those of the second |
| LineDecoder.ValuesCount | mcp_server_rest.py:79-86 | every non-blank line gives exactly one value or one diagnostic, and a blank line gives neither; so there are no more values than non-blank lines, and no more non-blank lines than lines |
| LineDecoder.OriginsFrom | mcp_server_rest.py:78-86 | the positions of the lines that parse are parsed positions in the range, listed in ascending order |
| LineDecoder.OriginsFromComplete | mcp_server_rest.py:78-86 | every line that parses is among those positions |
| LineDecoder.ValuesFrom | mcp_server_rest.py:78-86 | the k-th decoded value is what the line at the k-th of those positions parsed to |
| LineDecoder.DecodedExactly | mcp_server_rest.py:78-88 | the result holds exactly the values of the lines that parse, in line order: one value per such line, each from its own line, positions ascending, and none missing |
| LineDecoder.DecodeJoined | mcp_server_rest.py:53-88 | a body of break-free lines joined by one separator, with whitespace around them, has exactly those lines, and decodes to the values and diagnostics of those lines in order, blank, valid and malformed lines interleaved |
| LineDecoder.DecodedBound | mcp_server_rest.py:79-81 | values plus diagnostics number exactly the non-blank lines, which are at most all the lines of the body |
| LineDecoder.DecodeBlankBody | mcp_server_rest.py:78 | an empty or all-whitespace body decodes to the empty list and reports nothing |
| LineDecoder.DecodeSkipsOnly | mcp_server_rest.py:82-86 | a line that fails to parse (or is blank) is dropped and decoding carries on: the result is that of the other lines; a line that parses puts its value between those of the lines before and after it |
| LineDecoder.DecodeAllParse | mcp_server_rest.py:82-84 | when every line parses, the result has one value per line, in order, and nothing is reported |
| ReadClient.FirstGet | mcp_server_rest.py:37-46 | the first GET: Accept `application/json`, TLS verification off, the library's default timeout |
| ReadClient.SecondGet | mcp_server_rest.py:63-72 | the second GET: Accept `application/geo+json`, TLS verification on, a 30 second timeout |
| Http.ControllerUrl | mcp_server_rest.py:163-166 | the f-string URLs: `https://`, the controller host, then the resource path |
| Http.IsSuccess | mcp_server_rest.py:47 | a status `raise_for_status` lets through: 200 to 299 |
| ReadClient.GetRequestCvp | mcp_server_rest.py:36-88 | a transport failure on the first GET exits; a non-2xx first GET raises its status error; after a good first GET, any failure of the second GET returns `None` and never a partial list; otherwise the result is the decoded body of the second GET alone; a 204 with an empty body returns the empty list |
| Payloads.SameWorkspace | mcp_server_rest.py:167-204 | all four payloads name the same workspace id, and the three workspace payloads carry the same display name |
| Payloads.DisplayName | mcp_server_rest.py:172 | the display name is the id's first eight characters (all of them for a shorter id, as a Python slice gives) followed by "API demo" |
| Payloads.CreatePayload | mcp_server_rest.py:168-174 | the create body: the workspace key, its display name and the description; what it answers is stated by SameWorkspace and BuildAndSubmitDiffer |
| Payloads.RequestPayload | mcp_server_rest.py:175-196 | the create body's fields followed by a `request` and its `requestParams.requestId`; what it answers is stated by RequestPayloadLookup |
| Payloads.BuildPayload | mcp_server_rest.py:175-185 | the workspace request body asking for REQUEST_START_BUILD with the build's own request id |
| Payloads.SubmitPayload | mcp_server_rest.py:186-196 | the workspace request body asking for REQUEST_SUBMIT with the submit's own request id |
| Payloads.TagPayload | mcp_server_rest.py:197-204 | the tag body: under `key`, the workspace id, the device element type, and the tag's label and value; SameWorkspace states its workspace id |
| Payloads.RequestPayloadLookup | mcp_server_rest.py:175-196 | a build or submit payload answers `request` and `requestParams` from its request part, and every other key as the create payload does |
| Payloads.BuildAndSubmitDiffer | mcp_server_rest.py:175-196 | build and submit agree with create on every other key; create has no `request`; build asks for REQUEST_START_BUILD and submit for REQUEST_SUBMIT, each with its own request id |
| WorkspaceTransaction.PostResult | mcp_server_rest.py:91-108 | a POST exits on a transport failure; it returns exactly when the status is 2xx and the body parses, and then it returns the parsed body; otherwise it raises |
| WorkspaceTransaction.Performed | mcp_server_rest.py:207-215 | the steps of a plan actually taken: all of them up to and including the first POST that does not return; PerformedFailFast and PerformedUpTo state it |
| WorkspaceTransaction.Plan | mcp_server_rest.py:208-215 | the steps of a transaction in the source's order: create, tag, build, the 10 second wait, submit |
| WorkspaceTransaction.TagPlan | mcp_server_rest.py:163-215 | the plan of `create_tag`: its four POSTs for one workspace and its two request ids |
| WorkspaceTransaction.RunResult | mcp_server_rest.py:207-218 | how a transaction ends: as the first POST that does not return, or with the serialised submit response; RunResultSpec states it |
| WorkspaceTransaction.StatePath | mcp_server_rest.py:207-218 | the workspace states of a transaction: UNSUBMITTED after the create POST returns, BUILDING after the tag and build POSTs return, SUBMITTED after the submit POST returns, FAILED at the first POST that does not; StatePathWalk states it |
| WorkspaceTransaction.PerformedFailFast | mcp_server_rest.py:207-215 | the steps taken are a prefix of the plan in which only the last step can have failed, and they stop short of the plan only at a failure |
| WorkspaceTransaction.PerformedUpTo | mcp_server_rest.py:207-215 | when the k-th step is the first to fail, exactly the steps up to and including it are taken; when none fails, all of them are |
| WorkspaceTransaction.PlanRun | mcp_server_rest.py:207-215 | the steps of a transaction are its plan (create, tag, build, wait, submit) taken fail-fast, and the plan succeeds exactly when all four POSTs do |
| WorkspaceTransaction.RunResultSpec | mcp_server_rest.py:207-218 | a transaction returns exactly when every step succeeds, and then it returns the serialised submit response; otherwise it ends as the last POST it sent ended |
| WorkspaceTransaction.CreateRequest | mcp_server_rest.py:166-208 | the create POST: the create body to the workspace endpoint of the host, with the token |
| WorkspaceTransaction.TagRequest | mcp_server_rest.py:163-210 | the tag POST: the tag body to the tag endpoint of the host, with the token |
| WorkspaceTransaction.BuildRequest | mcp_server_rest.py:166-211 | the build POST: the build body to the workspace endpoint, with the token |
| WorkspaceTransaction.SubmitRequest | mcp_server_rest.py:166-215 | the submit POST: the submit body to the workspace endpoint, with the token |
| WorkspaceTransaction.StatePathWalk | mcp_server_rest.py:207-218 | the states a transaction passes through start with no workspace, move only along edges of the state machine, and end SUBMITTED when it returns and FAILED otherwise; it returns exactly when they are NONE, UNSUBMITTED, BUILDING, SUBMITTED |
| WorkspaceTransaction.TagRequestsDistinct | mcp_server_rest.py:163-204 | the four POSTs are four different requests |
| WorkspaceTransaction.SubmitOnlyAfterBuild | mcp_server_rest.py:207-215 | the submit is sent exactly when create, tag and build all succeeded; if one of them fails, no step after it is taken |
| WorkspaceTransaction.Session.PostRequest | mcp_server_rest.py:91-108 | one POST is appended to the trace, and its outcome is that of `post_request_cvp` |
| WorkspaceTransaction.Session.Wait | mcp_server_rest.py:214 | the wait is appended to the trace and nothing else happens |
| WorkspaceTransaction.Session.Transact | mcp_server_rest.py:207-218 | the trace grows by exactly the steps of the fail-fast run; the result is the run's result; the workspace ends SUBMITTED when the call returns and FAILED otherwise; `history` is the run's state path, which StatePathWalk shows moves only along edges |
| WorkspaceTransaction.Session.CreateTag | mcp_server_rest.py:156-221 | the trace grows by the `create_tag` plan up to its first failing POST; the call returns exactly when every POST succeeded, and then it returns the serialised submit response; otherwise it ends as the POST that stopped it ended; the state ends SUBMITTED or FAILED to match, `history` is the state path of the `create_tag` requests, a walk along the edges of the state machine ending in that state, and the call returns exactly when `history` is NONE, UNSUBMITTED, BUILDING, SUBMITTED |

## Left out

- The HTTP transport is a function from request to reply. A GET keeps its
  Accept header, its TLS flag and its timeout as fields. A POST keeps only
  its URL, token and body: its fixed headers (Accept and Content-Type
  `application/json`) and its `verify=False` are left out, since no result
  depends on them. Connection handling, cookies as a mechanism and redirects
  are left out too, and time does not pass in the model.
- `sys.exit(1)` is the `Exited` outcome. Process termination itself is not
  modelled.
- `time.sleep(10)` is only a `Sleep(10)` step in the trace. Time does not pass
  in the model.
- The internals of `json.loads` and `json.dumps` are left out, because they are
  library code. Both are parameters. The JSON datatype has integer numbers
  only, with no floats.
- Duplicate keys in a JSON object are left out. Lookup finds the first one,
  and these payloads never repeat a key.
- `uuid.uuid4()` is random, so the workspace id and the two request ids are
  parameters. Their uniqueness is not modelled.
- Environment and credential loading (`get_env_vars`, `load_dotenv`) is left
  out. The controller host and the token are parameters.
- Logging, FastMCP tool registration, `async`/`await` and `mcp.run()` are left
  out. They carry no logic of the core.
- `get_inventory`, `get_events` and `get_connectivity_monitor` are left out.
  Each is a URL plus `json.dumps` of what `get_request_cvp` returns.
- The messages printed to stderr and stdout are left out: the debug prints,
  the 204 notice and the per-line parse errors. The lines reported as
  unparseable are returned as the diagnostics of `DecodeBody`, but the text
  of the messages is not modelled.
- The `except TypeError` of `create_tag`, which would make the call return
  `None`, is left out. Nothing it guards can raise a TypeError: the POST
  errors are transport, status and JSON decode errors, and `json.dumps` of
  parsed JSON does not raise. The model has no path for it.
- `get_request_cvp` can raise from decoding only through the parser, which
  is a total parameter here. Errors other than `JSONDecodeError` from
  `json.loads` are left out.
