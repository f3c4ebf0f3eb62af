/**
 * Python's `+` and `*` on the values json.loads produces, as the add and
 * multiply tools apply them to their arguments, and the AttributeError a
 * method call on a value of the wrong class raises. An operation either
 * yields a value or raises an exception, whose `str(e)` is the message kept.
 *
 * bool is a subclass of int in Python, so true and false take part in
 * arithmetic as 1 and 0.
 */
module PyOps {
  import opened JsonValues

  datatype Eval = Value(v: Json) | Raise(message: string)

  /** Values that Python treats as integers: ints and bools. */
  predicate IsIntLike(j: Json) {
    j.JInt? || j.JBool?
  }

  function AsInt(j: Json): int
    requires IsIntLike(j)
  {
    if j.JBool? then (if j.b then 1 else 0) else j.i
  }

  /** Values with sequence concatenation and repetition: str and list. */
  predicate IsSequence(j: Json) {
    j.JStr? || j.JArray?
  }

  /** `obj.attr(...)` on a value whose class has no such method. */
  function NoAttribute(j: Json, attr: string): string {
    "'" + TypeName(j) + "' object has no attribute '" + attr + "'"
  }

  function Unsupported(op: string, x: Json, y: Json): string {
    "unsupported operand type(s) for " + op + ": '" + TypeName(x) + "' and '" + TypeName(y) + "'"
  }

  /** `s * n`: `n` copies of `s` one after another, nothing when `n` is not positive. */
  function Repeat<T>(s: seq<T>, n: int): (r: seq<T>)
    ensures |r| == if n <= 0 then 0 else n * |s|
    ensures |s| > 0 ==> forall i :: 0 <= i < |r| ==> r[i] == s[i % |s|]
    decreases n
  {
    if n <= 0 then []
    else
      assert n * |s| == |s| + (n - 1) * |s|;
      var rest := Repeat(s, n - 1);
      if |s| > 0 then PrependBlock(s, rest); s + rest else s + rest
  }

  /** One more copy of `s` in front of a run of copies is still a run of copies. */
  lemma PrependBlock<T>(s: seq<T>, rest: seq<T>)
    requires |s| > 0
    requires forall i :: 0 <= i < |rest| ==> rest[i] == s[i % |s|]
    ensures forall i :: 0 <= i < |s + rest| ==> (s + rest)[i] == s[i % |s|]
  {
    forall i | |s| <= i < |s + rest| ensures (s + rest)[i] == s[i % |s|] {
      assert (s + rest)[i] == rest[i - |s|];
      ModShift(i, |s|);
    }
  }

  lemma ModShift(i: int, m: int)
    requires 0 < m <= i
    ensures (i - m) % m == i % m
  {
    var q, r := (i - m) / m, (i - m) % m;
    assert i == (q + 1) * m + r && 0 <= r < m;
    DivModUnique(i, m, q + 1, r);
  }

  lemma DivModUnique(i: int, m: int, q: int, r: int)
    requires 0 < m && 0 <= r < m && i == q * m + r
    ensures i % m == r
  {
    var q', r' := i / m, i % m;
    var d := q - q';
    assert d * m == r' - r by {
      assert q * m - q' * m == d * m;
    }
    MultipleBounds(d, m);
  }

  /** A nonzero multiple of `m` is at least `m` away from zero. */
  lemma {:induction false} MultipleBounds(d: int, m: int)
    requires m > 0
    ensures d >= 1 ==> d * m >= m
    ensures d <= -1 ==> d * m <= -m
    decreases if d < 0 then -d else d
  {
    if d > 1 {
      MultipleBounds(d - 1, m);
      assert d * m == (d - 1) * m + m;
    } else if d < -1 {
      MultipleBounds(d + 1, m);
      assert d * m == (d + 1) * m - m;
    }
  }

  /** The largest size CPython allows a sequence: `PY_SSIZE_T_MAX` on a 64-bit build. */
  const MaxSize: int := 0x7fff_ffff_ffff_ffff

  /** A count that fits the signed 64-bit index type a repetition count is converted to. */
  predicate FitsIndex(n: int) {
    -MaxSize - 1 <= n <= MaxSize
  }

  function Length(x: Json): nat
    requires IsSequence(x)
  {
    if x.JStr? then |x.s| else |x.items|
  }

  /**
   * `seq * n` passes both of CPython's size checks: the count is an index,
   * and a count of two or more leaves the result size within `MaxSize`
   * (a count of at most one cannot grow the sequence).
   */
  predicate RepeatFits(x: Json, n: int)
    requires IsSequence(x)
  {
    FitsIndex(n) && (n <= 1 || Length(x) <= MaxSize / n)
  }

  /** `seq * n` for a str or list `seq`. */
  function RepeatValue(x: Json, n: int): (r: Json)
    requires IsSequence(x)
    ensures IsSequence(r) && r.JStr? == x.JStr?
    ensures Length(r) == if n <= 0 then 0 else n * Length(x)
  {
    if x.JStr? then JStr(Repeat(x.s, n)) else JArray(Repeat(x.items, n))
  }

  /**
   * `seq * n` in CPython: the count is first converted to an index
   * (OverflowError outside the 64-bit range), then a result longer than
   * `MaxSize` is refused (OverflowError for str, a MemoryError with an empty
   * message for list).
   */
  function Repetition(x: Json, n: int): (r: Eval)
    requires IsSequence(x)
    ensures r.Value? <==> RepeatFits(x, n)
    ensures r.Value? ==> IsSequence(r.v) && r.v.JStr? == x.JStr?
    ensures r.Value? && n >= 2 ==> Length(r.v) == n * Length(x) <= MaxSize
  {
    if !FitsIndex(n) then Raise("cannot fit 'int' into an index-sized integer")
    else if n >= 2 && Length(x) > MaxSize / n then
      Raise(if x.JStr? then "repeated string is too long" else "")
    else
      assert n >= 2 ==> n * Length(x) <= n * (MaxSize / n) <= MaxSize;
      Value(RepeatValue(x, n))
  }

  /** The operand kinds on which `+` succeeds: two numbers, two strs or two lists. */
  predicate AddAccepts(x: Json, y: Json) {
    || (IsIntLike(x) && IsIntLike(y))
    || (x.JStr? && y.JStr?)
    || (x.JArray? && y.JArray?)
  }

  /** `x + y` */
  function Add(x: Json, y: Json): (r: Eval)
    ensures r.Value? <==> AddAccepts(x, y)
    ensures r.Value? ==> (r.v.JInt? <==> IsIntLike(x)) && (r.v.JStr? <==> x.JStr?)
    ensures x.JStr? && y.JStr? ==>
      r.Value? && r.v.JStr? && |r.v.s| == |x.s| + |y.s| && r.v.s[..|x.s|] == x.s && r.v.s[|x.s|..] == y.s
    ensures x.JArray? && y.JArray? ==>
      && r.Value? && r.v.JArray? && |r.v.items| == |x.items| + |y.items|
      && r.v.items[..|x.items|] == x.items && r.v.items[|x.items|..] == y.items
  {
    if IsIntLike(x) && IsIntLike(y) then Value(JInt(AsInt(x) + AsInt(y)))
    else if x.JStr? then
      if y.JStr? then Value(JStr(x.s + y.s))
      else Raise("can only concatenate str (not \"" + TypeName(y) + "\") to str")
    else if x.JArray? then
      if y.JArray? then Value(JArray(x.items + y.items))
      else Raise("can only concatenate list (not \"" + TypeName(y) + "\") to list")
    else Raise(Unsupported("+", x, y))
  }

  /** The operands on which `*` succeeds: two numbers, or a str or list and a count it can be repeated by. */
  predicate MulAccepts(x: Json, y: Json) {
    || (IsIntLike(x) && IsIntLike(y))
    || (IsSequence(x) && IsIntLike(y) && RepeatFits(x, AsInt(y)))
    || (IsIntLike(x) && IsSequence(y) && RepeatFits(y, AsInt(x)))
  }

  /** `x * y` */
  function Mul(x: Json, y: Json): (r: Eval)
    ensures r.Value? <==> MulAccepts(x, y)
    ensures r.Value? ==> (r.v.JInt? <==> IsIntLike(x) && IsIntLike(y))
  {
    if IsIntLike(x) && IsIntLike(y) then Value(JInt(AsInt(x) * AsInt(y)))
    else if IsSequence(x) then
      if IsIntLike(y) then Repetition(x, AsInt(y))
      else Raise("can't multiply sequence by non-int of type '" + TypeName(y) + "'")
    else if IsSequence(y) then
      if IsIntLike(x) then Repetition(y, AsInt(x))
      else Raise("can't multiply sequence by non-int of type '" + TypeName(x) + "'")
    else Raise(Unsupported("*", x, y))
  }

  /** Whenever `x * y` succeeds, so does `y * x`, with the same value. */
  lemma MulCommutes(x: Json, y: Json)
    requires Mul(x, y).Value?
    ensures Mul(y, x) == Mul(x, y)
  {
  }

  /** 0 is the identity of `+` on numbers: the add tool's default operand. */
  lemma AddZeroIdentity(x: Json)
    requires IsIntLike(x)
    ensures Add(x, JInt(0)) == Value(JInt(AsInt(x)))
    ensures Add(JInt(0), x) == Value(JInt(AsInt(x)))
  {
  }

  /** 1 is the identity of `*` on numbers, strs and lists: the multiply tool's default operand. */
  lemma {:induction false} MulOneIdentity(x: Json)
    requires IsIntLike(x) || IsSequence(x)
    ensures Mul(x, JInt(1)) == Value(if IsIntLike(x) then JInt(AsInt(x)) else x)
    ensures Mul(JInt(1), x) == Value(if IsIntLike(x) then JInt(AsInt(x)) else x)
  {
    if x.JStr? {
      assert Repeat(x.s, 1) == x.s + Repeat(x.s, 0);
    } else if x.JArray? {
      assert Repeat(x.items, 1) == x.items + Repeat(x.items, 0);
    }
  }
}
