# Simple MCP server: a Dafny model

This project models `SimpleMCPServer`, a small Model Context Protocol server. It speaks JSON-RPC 2.0 and offers three tools:

- `add`: sums `a` and `b`, defaulting each to 0;
- `multiply`: multiplies `a` and `b`, defaulting each to 1;
- `uppercase`: upper-cases `text`, defaulting to "".

The model covers, module by module:

- **Registry**: the tool table built in `__init__`: names, Chinese descriptions and input schemas, in registration order.
- **Dispatcher**: `handle_request`. It answers `initialize`, `tools/list`, `tools/call` and `ping`, and answers anything else with a -32601 error dict.
  - Tool calls follow Python's own semantics for the JSON values `json.loads` produces:
    - `+` and `*` on bool, int, str and list, with repetition of strs and lists (PyOps);
    - the exact `TypeError` and `AttributeError` texts raised on other operands (PyOps);
    - `str()` and `repr()` of the result and of the argument dict (PyText);
    - `str.upper` (PyText).
  - The debug line each tool prints is part of the outcome.
- **JsonRpc**: the JSON-RPC 2.0 envelope both transports wrap around the handler's dict. It carries `jsonrpc` "2.0", the echoed `id`, and `error` when the dict has an "error" key, `result` otherwise. When the handler raises, the envelope is a -32603 error carrying the exception text.
- **StdioTransport**: `run_stdio`, a loop over input lines until end of input, written as an imperative method proved against a recursive specification `Run`. Two behaviours of the code are captured exactly:
  - A line that fails to decode is answered with an -32603 error. Its `id` is that of the last request decoded on an earlier line, because the `request` variable survives between iterations; it is `None` if no line has decoded yet.
  - A line that decodes to something other than an object (`[1]`, `"x"`, `3`) raises again inside the `except` branch, which ends the loop.
- **HttpTransport**: the FastAPI routes:
  - `POST /mcp`: status 200 for every answer of the handler, including -32601 errors, and 500 with an -32603 envelope on an exception. It always carries the permissive CORS headers. A non-object body makes the exception escape the endpoint.
  - `OPTIONS /mcp` and `GET /`.

Decoding (`json.loads`) is taken as given. Each stdio line or HTTP body arrives as either `Parsed(value)` or `Unparsable(message)`, where the message is the decoder's exception text. Every output line is a `Printed` debug text or a `Sent` JSON-RPC response.

The loop breaks only when `readline()` returns "", at end of file, so a blank line is handed to `json.loads` and answered with an -32603 decode error.

## Model

| member | source | states |
|---|---|---|
| Registry.CatalogContents | mcp_server_example.py:26-63 | the tool table holds add, multiply and uppercase in that order under distinct names; each schema's `required` lists exactly the arguments the tool reads (a, b, or text) |
| Registry.ToolsJson | mcp_server_example.py:86 | the descriptors `tools/list` returns are objects carrying, position by position, the tool names `list(self.tools.keys())` gives, the list `GET /` shows |
| Registry.CatalogSchemasWellFormed | mcp_server_example.py:31-61 | every input schema in the table is of type "object" with a `properties` object, and its `required` list names only declared properties |
| Registry.DescriptorJson | mcp_server_example.py:28-62 | each stored descriptor carries its tool's name under "name" |
| Dispatcher.HandleRequest | mcp_server_example.py:65-118 | handling a request prints at most one debug line, and prints or raises only when the method is `tools/call` |
| Dispatcher.CallTool | mcp_server_example.py:90-111 | a params value that is not a dict raises the `'get'` AttributeError and prints nothing; a debug line is printed exactly when `name` is a registered tool, and it holds a line break exactly when `arguments` is a str holding one |
| Dispatcher.DebugLineBreak | mcp_server_example.py:95-105 | `prefix + str(arguments)` with a one-line prefix breaks exactly when the arguments are a str holding a line break, since `str()` of any other value has none |
| Dispatcher.Arithmetic | mcp_server_example.py:94-102 | arguments that are not a dict raise the `'get'` AttributeError; otherwise add or multiply returns exactly when `+` or `*` accepts the operands after defaulting (0 for add, 1 for multiply), and what it returns is a text content block |
| Dispatcher.Uppercase | mcp_server_example.py:104-108 | uppercase returns exactly when the arguments are a dict whose `text` (default "") is a str; otherwise it raises the `'get'` or `'upper'` AttributeError of the offending value |
| Dispatcher.InitializeIsConstant | mcp_server_example.py:71-81 | `initialize` returns the fixed server description whatever the params, prints nothing, and reports protocol version "2024-11-05" and a `tools` capability |
| Dispatcher.ToolsListIsCatalog | mcp_server_example.py:84-87 | `tools/list` returns the same dict for every request: the three registered descriptors under "tools" |
| Dispatcher.PingIsConstant | mcp_server_example.py:114-115 | `ping` returns `{"status": "ok"}` and prints nothing |
| Dispatcher.AddOnInts | mcp_server_example.py:96-97 | the add tool with int (or defaulted) operands a and b answers the decimal text of a + b |
| Dispatcher.AddReturnsSum | mcp_server_example.py:94-97 | a tools/call of add prints `add: ` followed by `str()` of the arguments; it returns a text content block whose text reads back as a + b |
| Dispatcher.MultiplyOnInts | mcp_server_example.py:101-102 | the multiply tool with int (or defaulted) operands answers the decimal text of a * b |
| Dispatcher.MultiplyReturnsProduct | mcp_server_example.py:99-102 | a tools/call of multiply prints `multiply: ` followed by `str()` of the arguments; it returns a text block whose text reads back as a * b, with 1 for a missing operand |
| Dispatcher.UppercaseReturnsUpper | mcp_server_example.py:104-108 | a tools/call of uppercase prints its arguments and returns the upper-cased text; a missing `text` gives "" |
| Dispatcher.ArithmeticExamples | mcp_server_example.py:94-102 | add {a: 15, b: 27} answers "42"; multiply {a: 42, b: 3} answers "126" |
| Dispatcher.DefaultOperandExamples | mcp_server_example.py:96-101 | with b missing, add {a: 5} and multiply {a: 5} both answer "5" |
| Dispatcher.UppercaseExamples | mcp_server_example.py:106-108 | uppercase {text: "hello"} answers "HELLO"; uppercase {} answers "" |
| Dispatcher.UnknownToolIsNotFound | mcp_server_example.py:110-111 | a tools/call naming no registered tool returns the -32601 dict whose message is the prefix then `str(tool_name)`; nothing is printed |
| Dispatcher.UnknownMethodIsNotFound | mcp_server_example.py:117-118 | any method other than the four known ones returns the -32601 dict naming the method |
| Dispatcher.KnownToolsAreRegistered | mcp_server_example.py:94-111 | the names dispatched as tools are exactly the names in the tool table |
| Dispatcher.ErrorKeyOnlyInErrorResult | mcp_server_example.py:72-118 | of the dicts the handler builds, only the error dict has an "error" key |
| Dispatcher.ErrorDictExactlyForNotFound | mcp_server_example.py:65-118 | the handler returns a dict with "error" if and only if the method is unknown or the tool is unknown, and its code is then -32601 |
| Dispatcher.RaisesAndPrintsOnlyForTools | mcp_server_example.py:90-108 | the handler raises only in tools/call, and never for an unknown tool; it prints only when it runs a registered tool |
| JsonValues.Get | mcp_server_example.py:67-68 | `dict.get(key)` finds a value if and only if the key is present, and the value found is bound to that key |
| JsonValues.GetOr | mcp_server_example.py:92 | `dict.get(key, default)` gives the default exactly when the key is absent |
| PyOps.Add | mcp_server_example.py:96 | `+` succeeds exactly on two numbers (bool counting as int), two strs or two lists, and raises otherwise; numbers give an int, and a str or list result is the first operand followed by the second |
| PyOps.Mul | mcp_server_example.py:101 | `*` succeeds exactly on two numbers, or on a str or list and a number in either order whose repetition passes CPython's size checks; the result is an int exactly when both operands are numbers |
| PyOps.Repetition | mcp_server_example.py:101 | `seq * n` succeeds exactly when n fits a signed 64-bit index and, for n >= 2, the result length n times the operand's stays within `PY_SSIZE_T_MAX`; otherwise it raises OverflowError (or MemoryError for a list); a result keeps the operand's kind |
| PyOps.RepeatValue | mcp_server_example.py:101 | repeating a str gives a str and a list a list, n times as long (empty for n <= 0) |
| PyOps.MulCommutes | mcp_server_example.py:101 | whenever `a * b` succeeds, `b * a` gives the same value |
| PyOps.AddZeroIdentity | mcp_server_example.py:96 | 0, the default operand of add, leaves a number unchanged |
| PyOps.MulOneIdentity | mcp_server_example.py:101 | 1, the default operand of multiply, leaves a number, str or list unchanged on either side |
| PyOps.Repeat | mcp_server_example.py:101 | repeating a sequence n times has length n times its length (0 for n <= 0), and its i-th element is element i mod length of the sequence, so every block is a copy |
| PyText.Digits | mcp_server_example.py:97 | the decimal digits of a natural number are non-empty and canonical: no leading zero except "0" itself |
| PyText.DecimalRoundTrip | mcp_server_example.py:97 | `str(n)` of an int is a well-formed decimal that reads back as n |
| PyText.DecimalString | mcp_server_example.py:97 | `str(n)` is non-empty, starts with '-' exactly when n is negative, and is otherwise all digits |
| PyText.DecimalStringInjective | mcp_server_example.py:97 | distinct results give distinct texts |
| PyText.Upper | mcp_server_example.py:107 | `upper()` keeps the length, leaves no lowercase ASCII letter, shifts exactly the lowercase letters by 32, and keeps every other character |
| PyText.UpperIdempotent | mcp_server_example.py:107 | upper-casing twice is upper-casing once |
| PyText.StrRepr | mcp_server_example.py:95 | the repr of a str is enclosed in the quote Python picks, contains no raw line break, and the text between the quotes reads back, escape by escape, as the str |
| PyText.EscapeAllReadsBack | mcp_server_example.py:95 | the escaped body of a str literal reads back as the original text |
| PyText.Repr | mcp_server_example.py:95-105 | `repr()` of any decoded value (None, bools, ints, strs, lists, dicts) holds no line break |
| PyText.Str | mcp_server_example.py:95-118 | `str()` of a str is the text itself; of any other value it is its repr, with no line break |
| JsonRpc.Envelope | mcp_server_example.py:133-144 | the envelope is a JSON-RPC 2.0 response for the request's id; it carries `error` (the handler's error member) if and only if the handler's dict has "error", and the dict itself under `result` otherwise |
| JsonRpc.InternalError | mcp_server_example.py:148-153 | the exception envelope is a response for the given id with only an error of code -32603 and the exception text |
| JsonRpc.Respond | mcp_server_example.py:129-144 | a decoded request object is always answered with a well-formed response echoing `request.get("id")` |
| JsonRpc.RespondErrors | mcp_server_example.py:128-153 | a response carries an error exactly for an unknown method or tool (-32601) or an exception (-32603 with its text); otherwise it carries the handler's dict as result |
| StdioTransport.ServeLine | mcp_server_example.py:128-155 | one loop pass: a non-object line raises out of the `except` with the AttributeError text and writes nothing; any other line writes the tool's prints and then its response, and updates the `request` binding |
| StdioTransport.RunStdio | mcp_server_example.py:120-155 | the loop writes exactly what the specification `Run` gives for the whole input, and ends the same way (end of input or crash) |
| StdioTransport.HandledCount | mcp_server_example.py:122-155 | the loop handles the lines before the first non-object line, and that line is the one that ends it |
| StdioTransport.RunCount | mcp_server_example.py:122-155 | one response per handled line; the loop reaches end of input exactly when no line is fatal; a crash carries the AttributeError text |
| StdioTransport.RunResponses | mcp_server_example.py:122-155 | the k-th response answers the k-th line: `Respond` for a decoded object, and an -32603 error with the decoder's message and the leaked id for an undecodable line |
| StdioTransport.OneResponsePerLine | mcp_server_example.py:122-155 | on input without non-object lines, the loop runs to end of input with exactly one response per line |
| StdioTransport.BoundIsLastDecoded | mcp_server_example.py:128-151 | the `request` binding after some lines is the last line that decoded to an object, or the starting binding if none did |
| StdioTransport.UndecodableLineId | mcp_server_example.py:148-153 | an undecodable line is answered with -32603 and the decoder's message; its id is None if no earlier line decoded, else the id of the last decoded request before it |
| HttpTransport.McpEndpoint | mcp_server_example.py:166-227 | every HTTP response carries the CORS headers and status 200 or 500; the exception escapes the endpoint exactly when the body decodes to a non-object |
| HttpTransport.EndpointStatus | mcp_server_example.py:172-227 | an undecodable body gives 500 with an -32603 error and id None; a request object gives 200 exactly when the handler returns and 500 exactly when it raises |
| HttpTransport.EndpointResponds | mcp_server_example.py:178-207 | a request object gets the same envelope the stdio loop builds for it, echoing its id |
| HttpTransport.EndpointAgreesWithStdio | mcp_server_example.py:184-197 | whatever lines came first on stdio, the response stdio writes for a decoded request is the content POST /mcp returns for it |
| HttpTransport.NotFoundIsStatus200 | mcp_server_example.py:184-207 | an unknown method or tool is answered with status 200 and a -32601 error in the envelope |
| HttpTransport.McpOptions | mcp_server_example.py:230-235 | the preflight answer is `{"status": "ok"}` |
| HttpTransport.Root | mcp_server_example.py:238-246 | `GET /` answers an object listing the registered tool names add, multiply, uppercase in registration order and naming the endpoint `/mcp` |

## Left out

- JSON decoding and encoding (`json.loads`, `json.dumps`, UTF-8 decoding of the body): the model receives each line or body already decoded, with the decoder's error text when decoding fails.
- Duplicate keys in a JSON object: `json.loads` keeps the last value, while `Get` returns the first. Decoded objects are assumed to have distinct keys.
- Floating-point numbers: JSON numbers are modelled as integers only, so float arithmetic, float `str()` and int/float mixes are not modelled.
- PyText.Upper: upper-cases only the ASCII letters a-z, not the full Unicode case mapping of Python's `str.upper` (such as "ß" to "SS").
- PyText.StrRepr: escapes quotes, backslash, control characters, DEL, the C1 range, U+00A0 and U+00AD the way Python does. It treats every other character above U+00A0 as printable, which is not Python's full printability table. The read-back is stated against the model's own `Unescape`, which covers the escapes repr emits here, not Python's full literal syntax.
- PyText.DecimalString: does not model CPython's limit of 4300 digits on int-to-str conversion.
- PyOps.Mul: assumes a 64-bit build for `PY_SSIZE_T_MAX`, and does not model a `MemoryError` from a repetition that passes the size checks but exceeds the memory available.
- `sys.stdin`/`sys.stdout`, flushing and the real FastAPI/uvicorn server: the input is a sequence of decoded lines, the output a sequence of writes, and the HTTP routes are functions from decoded body to response.
- HttpTransport.McpEndpoint: when the exception escapes the endpoint, the model stops at `Unhandled`. It does not model the framework's own 500 page.
- The tool's debug print in HTTP mode goes to the server console, not the response, so the HTTP model omits it.
- Concurrent HTTP requests: the handler keeps no mutable state, so requests are modelled one at a time.
- `run_http_server` and the command-line entry point (lines 249 onward) only start a server or pick a mode, so they are not part of this model. The agent scripts that use the server are not part of this model either.
