/**
 * The stdio transport (`run_stdio`): read a line, decode it, dispatch it,
 * write one JSON-RPC response line, until end of input. Decoding is taken
 * as given: the input is the sequence of decode outcomes of the lines read
 * before end of input. An exception while handling a line becomes an
 * -32603 response whose id is read from whatever `request` is still bound:
 * the current request once it has been decoded, otherwise the last request
 * decoded on an EARLIER line, or None before any. A line that decodes to
 * something other than an object makes that second `request.get` raise
 * inside the `except` branch, which ends the loop.
 */
module StdioTransport {
  import opened Wrappers
  import opened JsonValues
  import opened PyOps
  import opened Dispatcher
  import opened JsonRpc

  /** One write to stdout: a tool's debug print, or a response serialised on a line of its own. */
  datatype Write = Printed(text: string) | Sent(response: Object)

  /** How the loop ends: at end of input, or by the exception that escapes the `except` branch. */
  datatype Exit = EndOfInput | Crashed(message: string)

  /** A line that decodes to a value other than an object: the loop cannot survive it. */
  predicate IsFatal(line: Decoded) {
    line.Parsed? && !line.value.JObject?
  }

  /** The `request` binding after a line: rebound by every successful decode, kept by a failed one. */
  function Next(request: Option<Object>, line: Decoded): Option<Object> {
    if line.Parsed? && line.value.JObject? then Some(line.value.members) else request
  }

  /** The id the `except` branch reads from the `request` binding (None if nothing was ever bound). */
  function LeakedId(request: Option<Object>): Json {
    if request.Some? then RequestId(request.value) else JNull
  }

  function Prints(texts: seq<string>): seq<Write> {
    seq(|texts|, k requires 0 <= k < |texts| => Printed(texts[k]))
  }

  /** The response to one handled line, given the `request` binding left by the earlier lines. */
  function LineResponse(request: Option<Object>, line: Decoded): Object
    requires !IsFatal(line)
  {
    match line
    case Unparsable(message) => InternalError(LeakedId(request), message)
    case Parsed(v) => Respond(v.members)
  }

  /** What one handled line writes: the tool's debug print, if any, then its response. */
  function StepWrites(request: Option<Object>, line: Decoded): seq<Write>
    requires !IsFatal(line)
  {
    (if line.Parsed? then Prints(HandleRequest(line.value.members).printed) else [])
      + [Sent(LineResponse(request, line))]
  }

  /** What the loop writes for `lines`, and how it ends, starting with `request` bound. */
  function Run(lines: seq<Decoded>, request: Option<Object>): (seq<Write>, Exit)
    decreases |lines|
  {
    if lines == [] then ([], EndOfInput)
    else if IsFatal(lines[0]) then ([], Crashed(NoAttribute(lines[0].value, "get")))
    else
      var rest := Run(lines[1..], Next(request, lines[0]));
      (StepWrites(request, lines[0]) + rest.0, rest.1)
  }

  /** One handled line at the head of the input: its writes, then the run over the rest. */
  lemma RunStep(lines: seq<Decoded>, request: Option<Object>)
    requires lines != [] && !IsFatal(lines[0])
    ensures Run(lines, request).0 == StepWrites(request, lines[0]) + Run(lines[1..], Next(request, lines[0])).0
    ensures Run(lines, request).1 == Run(lines[1..], Next(request, lines[0])).1
  {
  }

  /** A fatal line at the head of the input ends the run with nothing written. */
  lemma RunStop(lines: seq<Decoded>, request: Option<Object>)
    requires lines != [] && IsFatal(lines[0])
    ensures Run(lines, request) == ([], Crashed(NoAttribute(lines[0].value, "get")))
  {
  }

  /**
   * One pass of the loop body: decode outcome in, the lines written and the
   * new `request` binding out, or the exception that escapes the loop.
   */
  method ServeLine(request: Option<Object>, line: Decoded) returns (writes: seq<Write>, next: Option<Object>, crash: Option<string>)
    ensures crash.Some? <==> IsFatal(line)
    ensures IsFatal(line) ==> writes == [] && crash == Some(NoAttribute(line.value, "get"))
    ensures !IsFatal(line) ==> writes == StepWrites(request, line) && next == Next(request, line)
  {
    next, crash := request, None;
    match line {
      case Unparsable(message) =>
        writes := [Sent(InternalError(LeakedId(request), message))];
      case Parsed(v) =>
        if !v.JObject? {
          writes, crash := [], Some(NoAttribute(v, "get"));
          return;
        }
        next := Some(v.members);
        var requestId := RequestId(v.members);
        var handled := HandleRequest(v.members);
        writes := Prints(handled.printed);
        match handled.outcome {
          case Returned(result) =>
            writes := writes + [Sent(Envelope(requestId, result))];
          case Raised(message) =>
            writes := writes + [Sent(InternalError(requestId, message))];
        }
    }
  }

  /** `run_stdio()` over the decoded input lines. */
  method RunStdio(input: seq<Decoded>) returns (output: seq<Write>, exit: Exit)
    ensures (output, exit) == Run(input, None)
  {
    output := [];
    var request: Option<Object> := None;
    var i := 0;
    assert input[0..] == input && [] + Run(input, None).0 == Run(input, None).0;
    while i < |input|
      invariant 0 <= i <= |input|
      invariant Run(input, None).0 == output + Run(input[i..], request).0
      invariant Run(input, None).1 == Run(input[i..], request).1
    {
      assert input[i..][0] == input[i] && input[i..][1..] == input[i + 1..];
      var writes, next, crash := ServeLine(request, input[i]);
      if crash.Some? {
        RunStop(input[i..], request);
        assert output + [] == output;
        exit := Crashed(crash.value);
        return;
      }
      RunStep(input[i..], request);
      assert output + (writes + Run(input[i + 1..], next).0) == (output + writes) + Run(input[i + 1..], next).0;
      output, request := output + writes, next;
      i := i + 1;
    }
    assert input[i..] == [] && output + [] == output;
    exit := EndOfInput;
  }

  /** The responses among the writes, in order. */
  function Responses(writes: seq<Write>): (rs: seq<Object>)
    ensures |rs| <= |writes|
  {
    if writes == [] then []
    else if writes[0].Sent? then [writes[0].response] + Responses(writes[1..])
    else Responses(writes[1..])
  }

  lemma {:induction false} ResponsesAppend(a: seq<Write>, b: seq<Write>)
    ensures Responses(a + b) == Responses(a) + Responses(b)
    decreases |a|
  {
    if a == [] {
      assert a + b == b;
    } else {
      assert (a + b)[0] == a[0] && (a + b)[1..] == a[1..] + b;
      ResponsesAppend(a[1..], b);
      if a[0].Sent? {
        assert Responses(a + b) == [a[0].response] + Responses(a[1..] + b);
      } else {
        assert Responses(a + b) == Responses(a[1..] + b);
      }
    }
  }

  lemma {:induction false} NoResponsesInPrints(texts: seq<string>)
    ensures Responses(Prints(texts)) == []
    decreases |texts|
  {
    if texts != [] {
      assert Prints(texts)[1..] == Prints(texts[1..]);
      NoResponsesInPrints(texts[1..]);
    }
  }

  /** How many lines the loop handles: those before the first fatal line. */
  function HandledCount(lines: seq<Decoded>): (n: nat)
    ensures n <= |lines|
    ensures forall k :: 0 <= k < n ==> !IsFatal(lines[k])
    ensures n < |lines| ==> IsFatal(lines[n])
  {
    if lines == [] || IsFatal(lines[0]) then 0 else 1 + HandledCount(lines[1..])
  }

  /** The `request` binding after `lines`, starting from `request`. */
  function Bound(lines: seq<Decoded>, request: Option<Object>): Option<Object>
    decreases |lines|
  {
    if lines == [] then request else Bound(lines[1..], Next(request, lines[0]))
  }

  predicate IsObjectLine(line: Decoded) {
    line.Parsed? && line.value.JObject?
  }

  /**
   * The binding is the request of the LAST line that decoded to an object,
   * or the starting binding if no line did.
   */
  lemma {:induction false} BoundIsLastDecoded(lines: seq<Decoded>, request: Option<Object>)
    ensures (forall j :: 0 <= j < |lines| ==> !IsObjectLine(lines[j])) ==> Bound(lines, request) == request
    ensures (exists j :: 0 <= j < |lines| && IsObjectLine(lines[j])) ==>
      && Bound(lines, request).Some?
      && exists k :: 0 <= k < |lines| && lines[k] == Parsed(JObject(Bound(lines, request).value))
           && forall j :: k < j < |lines| ==> !IsObjectLine(lines[j])
    decreases |lines|
  {
    if lines != [] {
      var next := Next(request, lines[0]);
      BoundIsLastDecoded(lines[1..], next);
      var b := Bound(lines, request);
      if exists j :: 1 <= j < |lines| && IsObjectLine(lines[j]) {
        var j :| 1 <= j < |lines| && IsObjectLine(lines[j]);
        assert IsObjectLine(lines[1..][j - 1]);
        var k :| 0 <= k < |lines[1..]| && lines[1..][k] == Parsed(JObject(b.value))
          && forall i :: k < i < |lines[1..]| ==> !IsObjectLine(lines[1..][i]);
        assert lines[k + 1] == Parsed(JObject(b.value));
        forall i | k + 1 < i < |lines| ensures !IsObjectLine(lines[i]) {
          assert lines[i] == lines[1..][i - 1];
        }
      } else if IsObjectLine(lines[0]) {
        assert forall j :: 0 <= j < |lines[1..]| ==> !IsObjectLine(lines[1..][j]);
        assert b == next;
      } else {
        assert forall j :: 0 <= j < |lines[1..]| ==> lines[1..][j] == lines[j + 1];
      }
    }
  }

  lemma StepWritesResponses(request: Option<Object>, line: Decoded)
    requires !IsFatal(line)
    ensures Responses(StepWrites(request, line)) == [LineResponse(request, line)]
  {
    var printed := if line.Parsed? then Prints(HandleRequest(line.value.members).printed) else [];
    ResponsesAppend(printed, [Sent(LineResponse(request, line))]);
    if line.Parsed? {
      NoResponsesInPrints(HandleRequest(line.value.members).printed);
    }
  }

  /** The responses of a run: the first handled line's, then those of the rest. */
  lemma RunUnfold(lines: seq<Decoded>, request: Option<Object>)
    requires lines != [] && !IsFatal(lines[0])
    ensures Responses(Run(lines, request).0) ==
      [LineResponse(request, lines[0])] + Responses(Run(lines[1..], Next(request, lines[0])).0)
    ensures Run(lines, request).1 == Run(lines[1..], Next(request, lines[0])).1
  {
    ResponsesAppend(StepWrites(request, lines[0]), Run(lines[1..], Next(request, lines[0])).0);
    StepWritesResponses(request, lines[0]);
  }

  /** One response per handled line; the loop reaches end of input exactly when no line is fatal. */
  lemma {:induction false} RunCount(lines: seq<Decoded>, request: Option<Object>)
    ensures var (out, exit) := Run(lines, request);
      && |Responses(out)| == HandledCount(lines)
      && (exit == EndOfInput <==> HandledCount(lines) == |lines|)
      && (exit.Crashed? ==> exit == Crashed(NoAttribute(lines[HandledCount(lines)].value, "get")))
    decreases |lines|
  {
    if lines != [] && !IsFatal(lines[0]) {
      RunCount(lines[1..], Next(request, lines[0]));
      RunUnfold(lines, request);
    }
  }

  /** The k-th response answers the k-th line, under the binding the first k lines left. */
  lemma {:induction false} RunResponseAt(lines: seq<Decoded>, request: Option<Object>, k: nat)
    requires k < HandledCount(lines)
    ensures k < |Responses(Run(lines, request).0)|
    ensures Responses(Run(lines, request).0)[k] == LineResponse(Bound(lines[..k], request), lines[k])
    decreases k
  {
    RunUnfold(lines, request);
    if k == 0 {
      assert Bound(lines[..0], request) == request;
    } else {
      var next := Next(request, lines[0]);
      RunResponseAt(lines[1..], next, k - 1);
      BoundOfPrefix(lines, request, k);
    }
  }

  lemma BoundOfPrefix(lines: seq<Decoded>, request: Option<Object>, k: nat)
    requires 0 < k <= |lines|
    ensures Bound(lines[..k], request) == Bound(lines[1..][..k - 1], Next(request, lines[0]))
  {
    assert lines[..k][0] == lines[0];
    assert lines[..k][1..] == lines[1..][..k - 1];
  }

  /**
   * The loop answers every line it handles with exactly one response, in
   * input order, and stops at end of input exactly when no line is fatal.
   * A decoded request gets the same response as over HTTP; a line that
   * fails to decode gets an -32603 error carrying the decoder's message and
   * the id of the request still bound from earlier lines (None if none).
   */
  lemma RunResponses(lines: seq<Decoded>)
    ensures var (out, exit) := Run(lines, None);
      && |Responses(out)| == HandledCount(lines)
      && (exit == EndOfInput <==> HandledCount(lines) == |lines|)
      && (exit.Crashed? ==> exit == Crashed(NoAttribute(lines[HandledCount(lines)].value, "get")))
      && (forall k :: 0 <= k < HandledCount(lines) && lines[k].Parsed? ==>
            Responses(out)[k] == Respond(lines[k].value.members))
      && (forall k :: 0 <= k < HandledCount(lines) && lines[k].Unparsable? ==>
            Responses(out)[k] == InternalError(LeakedId(Bound(lines[..k], None)), lines[k].message))
  {
    RunCount(lines, None);
    forall k | 0 <= k < HandledCount(lines)
      ensures Responses(Run(lines, None).0)[k] == LineResponse(Bound(lines[..k], None), lines[k])
    {
      RunResponseAt(lines, None, k);
    }
  }

  /** On an input without fatal lines, the loop reaches end of input with one response per line. */
  lemma OneResponsePerLine(lines: seq<Decoded>)
    requires forall k :: 0 <= k < |lines| ==> !IsFatal(lines[k])
    ensures Run(lines, None).1 == EndOfInput
    ensures |Responses(Run(lines, None).0)| == |lines|
  {
    RunCount(lines, None);
  }

  /**
   * A line that fails to decode is answered with an -32603 error whose id is
   * that of the last request decoded before it, or None if there was none.
   */
  lemma UndecodableLineId(lines: seq<Decoded>, k: nat)
    requires k < HandledCount(lines) && lines[k].Unparsable?
    ensures k < |Responses(Run(lines, None).0)|
    ensures var response := Responses(Run(lines, None).0)[k];
      && HasError(response, InternalErrorCode, lines[k].message)
      && ((forall j :: 0 <= j < k ==> !IsObjectLine(lines[j])) ==> Get(response, "id") == Some(JNull))
      && (forall j :: 0 <= j < k && IsObjectLine(lines[j]) && (forall i :: j < i < k ==> !IsObjectLine(lines[i])) ==>
            Get(response, "id") == Some(RequestId(lines[j].value.members)))
  {
    RunResponseAt(lines, None, k);
    var id := LeakedId(Bound(lines[..k], None));
    InternalErrorId(id, lines[k].message);
    LeakedIdOfPrefix(lines, k);
  }

  /** The id leaked to line k is that of the last object line before it, or None. */
  lemma LeakedIdOfPrefix(lines: seq<Decoded>, k: nat)
    requires k <= |lines|
    ensures var id := LeakedId(Bound(lines[..k], None));
      && ((forall j :: 0 <= j < k ==> !IsObjectLine(lines[j])) ==> id == JNull)
      && (forall j :: 0 <= j < k && IsObjectLine(lines[j]) && (forall i :: j < i < k ==> !IsObjectLine(lines[i])) ==>
            id == RequestId(lines[j].value.members))
  {
    forall j | 0 <= j < k && IsObjectLine(lines[j]) && (forall i :: j < i < k ==> !IsObjectLine(lines[i]))
      ensures Bound(lines[..k], None) == Some(lines[j].value.members)
    {
      BoundAfterObjectLine(lines, k, j);
    }
    if forall j :: 0 <= j < k ==> !IsObjectLine(lines[j]) {
      BoundWithoutObjectLine(lines, k);
    }
  }

  lemma InternalErrorId(id: Json, message: string)
    ensures Get(InternalError(id, message), "id") == Some(id)
  {
    var e := InternalError(id, message);
    assert e[0].0 == "jsonrpc" && e[1] == ("id", id);
  }

  lemma BoundAfterObjectLine(lines: seq<Decoded>, k: nat, j: nat)
    requires j < k <= |lines| && IsObjectLine(lines[j])
    requires forall i :: j < i < k ==> !IsObjectLine(lines[i])
    ensures Bound(lines[..k], None) == Some(lines[j].value.members)
  {
    var prefix := lines[..k];
    assert IsObjectLine(prefix[j]);
    BoundIsLastDecoded(prefix, None);
    var m :| 0 <= m < |prefix| && prefix[m] == Parsed(JObject(Bound(prefix, None).value))
      && forall i :: m < i < |prefix| ==> !IsObjectLine(prefix[i]);
    assert prefix[m] == lines[m];
    assert m == j;
  }

  lemma BoundWithoutObjectLine(lines: seq<Decoded>, k: nat)
    requires k <= |lines|
    requires forall j :: 0 <= j < k ==> !IsObjectLine(lines[j])
    ensures Bound(lines[..k], None) == None
  {
    var prefix := lines[..k];
    assert forall j :: 0 <= j < |prefix| ==> !IsObjectLine(prefix[j]);
    BoundIsLastDecoded(prefix, None);
  }
}
