/**
 * Column arithmetic worksheets: numbers laid out in rows, one operator ('+' or '*') per
 * column in an operator row, and each column folded with its operator.
 */
module Postfix {
  import opened Wrappers
  import opened Ascii
  import Layout

  // ---------------------------------------------------------------------------
  // Leading runs of bytes

  /** The two kinds of run the parser skips or reads: spaces, and decimal digits. */
  datatype ByteClass = Spaces | Digits

  predicate InClass(cls: ByteClass, b: byte) {
    match cls
    case Spaces => b == SPACE
    case Digits => IsDigit(b)
  }

  /** The length of the longest prefix of s whose bytes all belong to cls. */
  function LeadingRun(s: seq<byte>, cls: ByteClass): (r: nat)
    ensures r <= |s|
  {
    if |s| == 0 || !InClass(cls, s[0]) then 0 else 1 + LeadingRun(s[1..], cls)
  }

  /** The run is maximal: every byte before it belongs to the class, the byte after it does not. */
  lemma {:induction false} LeadingRunSpans(s: seq<byte>, cls: ByteClass)
    ensures forall k :: 0 <= k < LeadingRun(s, cls) ==> InClass(cls, s[k])
    ensures LeadingRun(s, cls) < |s| ==> !InClass(cls, s[LeadingRun(s, cls)])
  {
    if |s| > 0 && InClass(cls, s[0]) {
      LeadingRunSpans(s[1..], cls);
      forall k | 1 <= k < LeadingRun(s, cls) ensures InClass(cls, s[k]) {
        assert s[k] == s[1..][k - 1];
      }
    }
  }

  /** The three properties above pin the run length down. */
  lemma {:induction false} LeadingRunUnique(s: seq<byte>, cls: ByteClass, r: nat)
    requires r <= |s|
    requires forall k :: 0 <= k < r ==> InClass(cls, s[k])
    requires r < |s| ==> !InClass(cls, s[r])
    ensures r == LeadingRun(s, cls)
  {
    if r > 0 {
      assert InClass(cls, s[0]);
      forall k | 0 <= k < r - 1 ensures InClass(cls, s[1..][k]) {
        assert s[1..][k] == s[k + 1];
      }
      LeadingRunUnique(s[1..], cls, r - 1);
    }
  }

  /** A run ends where the first byte outside the class appears, whatever follows it. */
  lemma LeadingRunOfConcat(run: seq<byte>, rest: seq<byte>, cls: ByteClass)
    requires forall k :: 0 <= k < |run| ==> InClass(cls, run[k])
    requires |rest| > 0 ==> !InClass(cls, rest[0])
    ensures LeadingRun(run + rest, cls) == |run|
  {
    LeadingRunUnique(run + rest, cls, |run|);
  }

  // ---------------------------------------------------------------------------
  // ascii_to_u64

  datatype InvalidAsciiU64 = InvalidAsciiU64

  predicate AllDigits(s: seq<byte>) {
    forall k :: 0 <= k < |s| ==> IsDigit(s[k])
  }

  /**
   * The most-significant-first decimal value of a run of digit bytes. The parser applies
   * it to digit runs only; a byte outside '0'..='9' would count as 0.
   */
  function DecimalValue(s: seq<byte>): nat {
    if |s| == 0 then 0
    else DecimalValue(s[..|s| - 1]) * 10 + (if IsDigit(s[|s| - 1]) then DigitValue(s[|s| - 1]) else 0)
  }

  function Pow10(e: nat): (p: nat)
    ensures p >= 1
  {
    if e == 0 then 1 else 10 * Pow10(e - 1)
  }

  /** One more digit: the positional sum of `ascii_to_u64` agrees with the left-to-right value. */
  lemma DecimalStep(s: seq<byte>, i: nat, e: nat)
    requires i < |s| && AllDigits(s)
    ensures AllDigits(s[..i]) && AllDigits(s[..i + 1])
    ensures DecimalValue(s[..i]) * Pow10(e + 1) + DigitValue(s[i]) * Pow10(e)
            == DecimalValue(s[..i + 1]) * Pow10(e)
  {
    assert s[..i + 1][..i] == s[..i];
    var d := DecimalValue(s[..i]);
    var p := Pow10(e);
    calc {
      d * Pow10(e + 1) + DigitValue(s[i]) * p;
      d * (10 * p) + DigitValue(s[i]) * p;
      { assert d * (10 * p) == (d * 10) * p; }
      (d * 10 + DigitValue(s[i])) * p;
    }
  }

  /**
   * `ascii_to_u64`: reads the maximal run of leading digits and returns its value and
   * length; fails when there is no leading digit.
   */
  method AsciiToU64(bytes: seq<byte>) returns (r: Result<(nat, nat), InvalidAsciiU64>)
    ensures r.Err? <==> |bytes| == 0 || !IsDigit(bytes[0])
    ensures r.Ok? ==> 1 <= r.value.1 <= |bytes|
    ensures r.Ok? ==> r.value.1 == LeadingRun(bytes, Digits)
    ensures r.Ok? ==> AllDigits(bytes[..r.value.1]) && r.value.0 == DecimalValue(bytes[..r.value.1])
  {
    var end := 0;
    while end < |bytes|
      invariant end <= |bytes|
      invariant forall k :: 0 <= k < end ==> IsDigit(bytes[k])
    {
      if bytes[end] < ZERO || bytes[end] > NINE {
        break;
      }
      end := end + 1;
    }
    LeadingRunUnique(bytes, Digits, end);
    var digits := bytes[..end];
    assert AllDigits(digits);
    var res: nat := 0;
    var idx := 0;
    while idx < end
      invariant idx <= end
      invariant res == DecimalValue(digits[..idx]) * Pow10(end - idx)
    {
      var val := bytes[idx] - ZERO;
      DecimalStep(digits, idx, end - idx - 1);
      res := res + val * Pow10(end - idx - 1);
      idx := idx + 1;
    }
    assert digits[..idx] == digits;
    if idx == 0 {
      return Err(InvalidAsciiU64);
    } else {
      return Ok((res, idx));
    }
  }

  /** The decimal digits of n, most significant first, without leading zeros. */
  function DecimalBytes(n: nat): (s: seq<byte>)
    ensures |s| >= 1 && AllDigits(s)
  {
    if n < 10 then [ZERO + n] else DecimalBytes(n / 10) + [ZERO + n % 10]
  }

  lemma {:induction false} DecimalBytesValue(n: nat)
    ensures DecimalValue(DecimalBytes(n)) == n
  {
    if n >= 10 {
      var s := DecimalBytes(n);
      assert s[..|s| - 1] == DecimalBytes(n / 10);
      DecimalBytesValue(n / 10);
    }
  }

  /**
   * Round trip: written in decimal and followed by anything that does not start with a
   * digit, n is read back with exactly its own digits.
   */
  lemma DecimalRoundTrip(n: nat, rest: seq<byte>)
    requires |rest| > 0 ==> !IsDigit(rest[0])
    ensures LeadingRun(DecimalBytes(n) + rest, Digits) == |DecimalBytes(n)|
    ensures (DecimalBytes(n) + rest)[..|DecimalBytes(n)|] == DecimalBytes(n)
    ensures DecimalValue(DecimalBytes(n)) == n
  {
    LeadingRunOfConcat(DecimalBytes(n), rest, Digits);
    assert (DecimalBytes(n) + rest)[..|DecimalBytes(n)|] == DecimalBytes(n);
    DecimalBytesValue(n);
  }

  // ---------------------------------------------------------------------------
  // consume_space

  /** `consume_space`: the number of leading spaces. */
  method ConsumeSpace(bytes: seq<byte>) returns (c: nat)
    ensures c <= |bytes|
    ensures forall k :: 0 <= k < c ==> bytes[k] == SPACE
    ensures c < |bytes| ==> bytes[c] != SPACE
    ensures c == LeadingRun(bytes, Spaces)
  {
    c := 0;
    while c < |bytes| && bytes[c] == SPACE
      invariant c <= |bytes|
      invariant forall k :: 0 <= k < c ==> bytes[k] == SPACE
    {
      c := c + 1;
    }
    LeadingRunUnique(bytes, Spaces, c);
  }

  // ---------------------------------------------------------------------------
  // Operators and line types

  datatype MathOp = Sum | Product

  datatype InvalidMathOp = InvalidMathOp(c: byte)

  /** `get_op`: '+' is a sum, '*' a product, any other byte is rejected with itself. */
  function GetOp(c: byte): (r: Result<MathOp, InvalidMathOp>)
    ensures r.Ok? <==> c == PLUS || c == STAR
    ensures r.Err? ==> r.error == InvalidMathOp(c)
  {
    if c == PLUS then Ok(Sum)
    else if c == STAR then Ok(Product)
    else Err(InvalidMathOp(c))
  }

  /** The byte that denotes an operator. */
  function OpByte(op: MathOp): byte {
    match op
    case Sum => PLUS
    case Product => STAR
  }

  /** `get_op` decodes exactly the operator bytes, each to the operator it denotes. */
  lemma GetOpRoundTrip(op: MathOp, c: byte)
    ensures GetOp(OpByte(op)) == Ok(op)
    ensures GetOp(c).Ok? ==> OpByte(GetOp(c).value) == c
  {
  }

  datatype LineType = Numbers | Ops | Empty

  /**
   * Why a line cannot be classified: a first non-space byte that starts neither a number
   * nor an operator, or no non-space byte at all (the line is indexed past its end).
   */
  datatype ClassifyError = UnknownLineType | IndexOutOfBounds

  /**
   * `classify_line_type`: the first non-space byte decides. The byte is read before the
   * emptiness test, so an empty or all-space line fails and `Empty` is never returned.
   */
  function ClassifyLineType(bytes: seq<byte>): (r: Result<LineType, ClassifyError>)
    ensures r != Ok(Empty)
  {
    var idx := LeadingRun(bytes, Spaces);
    if idx >= |bytes| then Err(IndexOutOfBounds)
    else if IsDigit(bytes[idx]) then Ok(Numbers)
    else if GetOp(bytes[idx]).Ok? then Ok(Ops)
    else if |bytes| - idx == 0 then Ok(Empty)
    else Err(UnknownLineType)
  }

  /** A line fails with an out-of-bounds read exactly when it is empty or all spaces. */
  lemma ClassifyOutOfBounds(bytes: seq<byte>)
    ensures ClassifyLineType(bytes) == Err(IndexOutOfBounds) <==> forall k :: 0 <= k < |bytes| ==> bytes[k] == SPACE
  {
    LeadingRunSpans(bytes, Spaces);
    if forall k :: 0 <= k < |bytes| ==> bytes[k] == SPACE {
      LeadingRunUnique(bytes, Spaces, |bytes|);
    }
  }

  /** The class of a line is decided by its first non-space byte, wherever it is. */
  lemma ClassifyByFirstNonSpace(bytes: seq<byte>, k: nat)
    requires k < |bytes| && bytes[k] != SPACE
    requires forall j :: 0 <= j < k ==> bytes[j] == SPACE
    ensures ClassifyLineType(bytes) ==
              if IsDigit(bytes[k]) then Ok(Numbers)
              else if bytes[k] == PLUS || bytes[k] == STAR then Ok(Ops)
              else Err(UnknownLineType)
  {
    LeadingRunUnique(bytes, Spaces, k);
  }

  // ---------------------------------------------------------------------------
  // Reading one line

  /**
   * The numbers a line holds, as `process_num_line` reads them: skip spaces, read a run
   * of digits, repeat; reading stops at the end of the line or at the first place where
   * no digit follows the spaces.
   */
  function NumRow(line: seq<byte>): seq<nat>
    decreases |line|
  {
    var s := LeadingRun(line, Spaces);
    if s == |line| || !IsDigit(line[s]) then []
    else
      var d := LeadingRun(line[s..], Digits);
      assert line[s..][0] == line[s];
      [DecimalValue(line[s..][..d])] + NumRow(line[s + d..])
  }

  /** The operators a line holds, as `process_op_line` reads them. */
  function OpRow(line: seq<byte>): seq<MathOp>
    decreases |line|
  {
    var s := LeadingRun(line, Spaces);
    if s < |line| && GetOp(line[s]).Ok? then [GetOp(line[s]).value] + OpRow(line[s + 1..])
    else []
  }

  datatype ParseError =
    | NoLines
    | FirstLineOps
    | BadLine(cause: ClassifyError)
    | LineTooWide(expected: nat)
    | MismatchedWidth(got: nat, expected: nat)
    | OpsCount(got: nat, expected: nat)

  /** One step of `NumRow`: the spaces, then the digits that follow them, if any. */
  lemma NumRowStep(rest: seq<byte>, sp: nat, d: nat)
    requires sp == LeadingRun(rest, Spaces)
    requires d == LeadingRun(rest[sp..], Digits)
    ensures d == 0 ==> NumRow(rest) == []
    ensures d > 0 ==> NumRow(rest) == [DecimalValue(rest[sp..][..d])] + NumRow(rest[sp + d..])
  {
    if d > 0 {
      assert rest[sp..][0] == rest[sp];
    }
  }

  /** One step of `OpRow`. */
  lemma OpRowStep(rest: seq<byte>, sp: nat)
    requires sp == LeadingRun(rest, Spaces)
    ensures sp < |rest| && GetOp(rest[sp]).Ok? ==> OpRow(rest) == [GetOp(rest[sp]).value] + OpRow(rest[sp + 1..])
    ensures !(sp < |rest| && GetOp(rest[sp]).Ok?) ==> OpRow(rest) == []
  {
  }

  /** Reading one number moves the reader past its spaces and digits. */
  lemma NumRowAdvance(line: seq<byte>, idx: nat, sp: nat, num: nat, offs: nat)
    requires idx <= |line|
    requires sp == LeadingRun(line[idx..], Spaces)
    requires idx + sp <= |line|
    requires offs == LeadingRun(line[idx + sp..], Digits) && offs > 0
    requires num == DecimalValue(line[idx + sp..][..offs])
    ensures idx + sp + offs <= |line|
    ensures NumRow(line[idx..]) == [num] + NumRow(line[idx + sp + offs..])
  {
    SuffixOfSuffix(line, idx, sp);
    NumRowStep(line[idx..], sp, offs);
    SuffixOfSuffix(line, idx, sp + offs);
  }

  /** Reading stops where the spaces are followed by no digit. */
  lemma NumRowStop(line: seq<byte>, idx: nat, sp: nat)
    requires idx <= |line|
    requires sp == LeadingRun(line[idx..], Spaces)
    requires idx + sp <= |line|
    requires idx + sp == |line| || !IsDigit(line[idx + sp])
    ensures NumRow(line[idx..]) == []
  {
    SuffixOfSuffix(line, idx, sp);
    NumRowStep(line[idx..], sp, LeadingRun(line[idx + sp..], Digits));
  }

  /** Reading one operator moves the reader past its spaces and the operator byte. */
  lemma OpRowAdvance(line: seq<byte>, idx: nat, sp: nat)
    requires idx <= |line|
    requires sp == LeadingRun(line[idx..], Spaces)
    requires idx + sp < |line| && GetOp(line[idx + sp]).Ok?
    ensures OpRow(line[idx..]) == [GetOp(line[idx + sp]).value] + OpRow(line[idx + sp + 1..])
  {
    assert line[idx..][sp] == line[idx + sp];
    OpRowStep(line[idx..], sp);
    SuffixOfSuffix(line, idx, sp + 1);
  }

  lemma SuffixOfSuffix<T>(s: seq<T>, i: nat, j: nat)
    requires i + j <= |s|
    ensures s[i..][j..] == s[i + j..]
  {
  }

  /**
   * One round of the numbers closure: skip the spaces at idx, then read the number that
   * follows; None when no digit follows the spaces.
   */
  method ReadNumber(line: seq<byte>, idx: nat) returns (r: Option<(nat, nat)>)
    requires idx <= |line|
    ensures r.None? ==> NumRow(line[idx..]) == []
    ensures r.Some? ==> idx < r.value.1 <= |line|
    ensures r.Some? ==> NumRow(line[idx..]) == [r.value.0] + NumRow(line[r.value.1..])
  {
    var sp := ConsumeSpace(line[idx..]);
    var parsed := AsciiToU64(line[idx + sp..]);
    if parsed.Err? {
      NumRowStop(line, idx, sp);
      return None;
    }
    var (num, offs) := parsed.value;
    NumRowAdvance(line, idx, sp, num, offs);
    return Some((num, idx + sp + offs));
  }

  /**
   * One round of the operators closure: skip the spaces at idx, then read an operator;
   * None at the end of the line or at a byte that is not an operator.
   */
  method ReadOp(line: seq<byte>, idx: nat) returns (r: Option<(MathOp, nat)>)
    requires idx <= |line|
    ensures r.None? ==> OpRow(line[idx..]) == []
    ensures r.Some? ==> idx < r.value.1 <= |line|
    ensures r.Some? ==> OpRow(line[idx..]) == [r.value.0] + OpRow(line[r.value.1..])
  {
    var sp := ConsumeSpace(line[idx..]);
    OpRowStep(line[idx..], sp);
    if idx + sp < |line| {
      assert line[idx..][sp] == line[idx + sp];
      var op := GetOp(line[idx + sp]);
      if op.Ok? {
        OpRowAdvance(line, idx, sp);
        return Some((op.value, idx + sp + 1));
      }
    }
    return None;
  }

  /**
   * The numbers closure of `new_from_lines`: the numbers of the line, failing as soon as
   * there are more than `expected` of them when a width is expected.
   */
  method ProcessNumLine(line: seq<byte>, expected: Option<nat>) returns (r: Result<seq<nat>, ParseError>)
    ensures r.Ok? <==> expected.None? || |NumRow(line)| <= expected.value
    ensures r.Ok? ==> r.value == NumRow(line)
    ensures r.Err? ==> r == Err(LineTooWide(expected.value))
  {
    var row: seq<nat> := [];
    var w := 0;
    var idx := 0;
    while true
      invariant idx <= |line|
      invariant w == |row|
      invariant row + NumRow(line[idx..]) == NumRow(line)
      invariant expected.Some? ==> w <= expected.value
      decreases |line| - idx
    {
      var read := ReadNumber(line, idx);
      if read.None? {
        break;
      }
      var (num, next) := read.value;
      assert (row + [num]) + NumRow(line[next..]) == row + NumRow(line[idx..]);
      row := row + [num];
      idx := next;
      w := w + 1;
      if expected.Some? && w > expected.value {
        return Err(LineTooWide(expected.value));
      }
    }
    return Ok(row);
  }

  /**
   * The operators closure of `new_from_lines`: the operators of the line, failing as soon
   * as there are more than `expected` of them when a width is expected.
   */
  method ProcessOpLine(line: seq<byte>, expected: Option<nat>) returns (r: Result<seq<MathOp>, ParseError>)
    ensures r.Ok? <==> expected.None? || |OpRow(line)| <= expected.value
    ensures r.Ok? ==> r.value == OpRow(line)
    ensures r.Err? ==> r == Err(LineTooWide(expected.value))
  {
    var row: seq<MathOp> := [];
    var w := 0;
    var idx := 0;
    while true
      invariant idx <= |line|
      invariant w == |row|
      invariant row + OpRow(line[idx..]) == OpRow(line)
      invariant expected.Some? ==> w <= expected.value
      decreases |line| - idx
    {
      var read := ReadOp(line, idx);
      if read.None? {
        break;
      }
      var (op, next) := read.value;
      assert (row + [op]) + OpRow(line[next..]) == row + OpRow(line[idx..]);
      row := row + [op];
      idx := next;
      w := w + 1;
      if expected.Some? && w > expected.value {
        return Err(LineTooWide(expected.value));
      }
    }
    return Ok(row);
  }

  // ---------------------------------------------------------------------------
  // The worksheet

  /**
   * A worksheet: `height` rows of `width` numbers stored row after row, and one operator
   * per column.
   */
  datatype MathProblems = MathProblems(height: nat, width: nat, numbers: seq<nat>, operators: seq<MathOp>)
  {
    predicate Valid() {
      |operators| == width && |numbers| == height * width
    }

    /** The first k numbers of column p, top to bottom. */
    function Column(p: nat, k: nat): (c: seq<nat>)
      requires Valid() && p < width && k <= height
      ensures |c| == k
      ensures forall h :: 0 <= h < k ==> h * width + p < |numbers| && c[h] == numbers[h * width + p]
    {
      Layout.ColumnInRange(p, width, height);
      seq(k, h requires 0 <= h < k => numbers[h * width + p])
    }
  }

  /** What the loop of `new_from_lines` takes from one line. */
  datatype LineRead =
    | NumberLine(row: seq<nat>)
    | OpLine(ops: seq<MathOp>)
    | Unreadable(cause: ClassifyError)

  /** A numbers line gives its numbers, an operators line its operators. */
  function ReadLine(line: seq<byte>): LineRead {
    match ClassifyLineType(line)
    case Ok(Numbers) => NumberLine(NumRow(line))
    case Ok(Ops) => OpLine(OpRow(line))
    case Err(e) => Unreadable(e)
  }

  /** A line after the first is accepted when it holds exactly w numbers or w operators. */
  predicate Fits(rd: LineRead, w: nat) {
    match rd
    case NumberLine(row) => |row| == w
    case OpLine(ops) => |ops| == w
    case Unreadable(_) => false
  }

  /** The rows of numbers among the first n lines, in order. */
  function NumberRows(readings: seq<LineRead>, n: nat): seq<seq<nat>>
    requires n <= |readings|
  {
    if n == 0 then []
    else NumberRows(readings, n - 1) + (if readings[n - 1].NumberLine? then [readings[n - 1].row] else [])
  }

  /** The operators among the first n lines, in order. */
  function OpItems(readings: seq<LineRead>, n: nat): seq<MathOp>
    requires n <= |readings|
  {
    if n == 0 then []
    else OpItems(readings, n - 1) + (if readings[n - 1].OpLine? then readings[n - 1].ops else [])
  }

  /** The number of operator lines among the first n lines. */
  function OpLineCount(readings: seq<LineRead>, n: nat): nat
    requires n <= |readings|
  {
    if n == 0 then 0
    else OpLineCount(readings, n - 1) + (if readings[n - 1].OpLine? then 1 else 0)
  }

  /**
   * The input rule of `new_from_lines`: a numbers line first, which fixes the width; every
   * later line a numbers or operators line of exactly that width; and as many operators
   * in all as the width.
   */
  predicate ReadsOk(readings: seq<LineRead>) {
    && |readings| >= 1
    && readings[0].NumberLine?
    && (forall i :: 1 <= i < |readings| ==> Fits(readings[i], |readings[0].row|))
    && |OpItems(readings, |readings|)| == |readings[0].row|
  }

  /** What each line gives, in order. */
  function Readings(lines: seq<seq<byte>>): (rs: seq<LineRead>)
    ensures |rs| == |lines|
  {
    if |lines| == 0 then [] else Readings(lines[..|lines| - 1]) + [ReadLine(lines[|lines| - 1])]
  }

  lemma {:induction false} ReadingAt(lines: seq<seq<byte>>, i: nat)
    requires i < |lines|
    ensures Readings(lines)[i] == ReadLine(lines[i])
  {
    if i < |lines| - 1 {
      ReadingAt(lines[..|lines| - 1], i);
    }
  }

  predicate LinesOk(lines: seq<seq<byte>>) {
    ReadsOk(Readings(lines))
  }

  /** A line whose first non-space byte is a digit holds at least one number. */
  lemma NumbersLineNonEmpty(line: seq<byte>)
    requires ClassifyLineType(line) == Ok(Numbers)
    ensures ReadLine(line) == NumberLine(NumRow(line))
    ensures |NumRow(line)| >= 1
  {
  }

  /** Each row of numbers among the first n lines has width w when they all fit w. */
  lemma {:induction false} PrefixRowWidths(readings: seq<LineRead>, n: nat, w: nat)
    requires n <= |readings|
    requires n >= 1 ==> readings[0].NumberLine? && |readings[0].row| == w
    requires forall i :: 1 <= i < n ==> Fits(readings[i], w)
    ensures forall j :: 0 <= j < |NumberRows(readings, n)| ==> |NumberRows(readings, n)[j]| == w
  {
    if n > 0 {
      PrefixRowWidths(readings, n - 1, w);
      if n > 1 {
        assert Fits(readings[n - 1], w);
      }
    }
  }

  /** Every one of the first n lines is a numbers line or an operators line of width w. */
  lemma {:induction false} PrefixCounts(readings: seq<LineRead>, n: nat, w: nat)
    requires n <= |readings|
    requires n >= 1 ==> readings[0].NumberLine?
    requires forall i :: 1 <= i < n ==> Fits(readings[i], w)
    ensures |NumberRows(readings, n)| + OpLineCount(readings, n) == n
    ensures |OpItems(readings, n)| == OpLineCount(readings, n) * w
  {
    if n > 0 {
      PrefixCounts(readings, n - 1, w);
      if n > 1 {
        assert Fits(readings[n - 1], w);
      }
      MulSucc(OpLineCount(readings, n - 1), w);
    }
  }

  lemma MulSucc(c: nat, w: nat)
    ensures (c + 1) * w == c * w + w
  {
  }

  /** Exactly one operator line when the operators number w >= 1. */
  lemma OneOpLine(c: nat, w: nat)
    requires w >= 1 && c * w == w
    ensures c == 1
  {
    if c >= 2 {
      Layout.MulMonotone(2, c, w);
    }
  }

  /**
   * An accepted input of width w >= 1 has exactly one operators line; every other line is
   * a row of w numbers, stored row after row.
   */
  lemma AcceptedShape(readings: seq<LineRead>, w: nat)
    requires ReadsOk(readings) && w == |readings[0].row| >= 1
    ensures OpLineCount(readings, |readings|) == 1
    ensures |NumberRows(readings, |readings|)| == |readings| - 1
    ensures forall j :: 0 <= j < |readings| - 1 ==> |NumberRows(readings, |readings|)[j]| == w
    ensures |Layout.Flatten(NumberRows(readings, |readings|))| == (|readings| - 1) * w
  {
    PrefixRowWidths(readings, |readings|, w);
    PrefixCounts(readings, |readings|, w);
    OneOpLine(OpLineCount(readings, |readings|), w);
    Layout.FlattenLength(NumberRows(readings, |readings|), w);
  }

  /**
   * One line after the first, as the loop of `new_from_lines` handles it: a numbers line
   * gives its numbers, an operators line its operators, each exactly `width` of them; any
   * other line is rejected.
   */
  method ProcessLaterLine(line: seq<byte>, width: nat) returns (r: Result<LineRead, ParseError>)
    ensures r.Ok? <==> Fits(ReadLine(line), width)
    ensures r.Ok? ==> r.value == ReadLine(line)
  {
    var kind := ClassifyLineType(line);
    if kind.Err? {
      return Err(BadLine(kind.error));
    }
    if kind.value == Numbers {
      var processed := ProcessNumLine(line, Some(width));
      if processed.Err? {
        return Err(processed.error);
      }
      var w := |processed.value|;
      if w != width {
        return Err(MismatchedWidth(w, width));
      }
      return Ok(NumberLine(processed.value));
    } else {
      var processed := ProcessOpLine(line, Some(width));
      if processed.Err? {
        return Err(processed.error);
      }
      var w := |processed.value|;
      if w != width {
        return Err(MismatchedWidth(w, width));
      }
      return Ok(OpLine(processed.value));
    }
  }

  /**
   * The loop of `new_from_lines` over the lines after the first, whose numbers `first`
   * fix the width: every line must fit that width; the numbers are gathered row after
   * row and the operators in order.
   */
  method ReadLaterLines(lines: seq<seq<byte>>, first: seq<nat>)
    returns (r: Result<(seq<nat>, seq<MathOp>), ParseError>)
    requires |lines| >= 1 && Readings(lines)[0] == NumberLine(first)
    ensures r.Ok? <==> forall i :: 1 <= i < |lines| ==> Fits(Readings(lines)[i], |first|)
    ensures r.Ok? ==>
              && r.value.0 == Layout.Flatten(NumberRows(Readings(lines), |lines|))
              && r.value.1 == OpItems(Readings(lines), |lines|)
  {
    ghost var readings := Readings(lines);
    var width := |first|;
    var numbers := first;
    var ops: seq<MathOp> := [];
    var nlines := 1;
    Layout.FlattenAppend([], first);
    while nlines < |lines|
      invariant 1 <= nlines <= |lines|
      invariant forall i :: 1 <= i < nlines ==> Fits(readings[i], width)
      invariant numbers == Layout.Flatten(NumberRows(readings, nlines))
      invariant ops == OpItems(readings, nlines)
    {
      var read := ProcessLaterLine(lines[nlines], width);
      ReadingAt(lines, nlines);
      if read.Err? {
        return Err(read.error);
      }
      assert readings[nlines] == read.value;
      match read.value {
        case NumberLine(row) =>
          assert NumberRows(readings, nlines + 1) == NumberRows(readings, nlines) + [row];
          assert OpItems(readings, nlines + 1) == OpItems(readings, nlines);
          Layout.FlattenAppend(NumberRows(readings, nlines), row);
          numbers := numbers + row;
        case OpLine(lineOps) =>
          assert NumberRows(readings, nlines + 1) == NumberRows(readings, nlines);
          assert OpItems(readings, nlines + 1) == OpItems(readings, nlines) + lineOps;
          ops := ops + lineOps;
      }
      nlines := nlines + 1;
    }
    return Ok((numbers, ops));
  }

  /**
   * `new_from_lines`: reading the lines into a worksheet. The first line must be a numbers
   * line and fixes the width; the numbers are stored row after row and the height is the
   * number of lines but one.
   */
  method NewFromLines(lines: seq<seq<byte>>) returns (r: Result<MathProblems, ParseError>)
    ensures r.Ok? <==> LinesOk(lines)
    ensures r.Ok? ==>
              && r.value.Valid()
              && r.value.width == |NumRow(lines[0])| >= 1
              && r.value.height == |lines| - 1
              && r.value.numbers == Layout.Flatten(NumberRows(Readings(lines), |lines|))
              && r.value.operators == OpItems(Readings(lines), |lines|)
  {
    if |lines| == 0 {
      return Err(NoLines);
    }
    ghost var readings := Readings(lines);
    ReadingAt(lines, 0);
    var first := lines[0];
    var firstKind := ClassifyLineType(first);
    if firstKind.Err? {
      return Err(BadLine(firstKind.error));
    }
    if firstKind.value == Ops {
      return Err(FirstLineOps);
    }
    // The remaining case is Numbers: Empty is never returned.
    NumbersLineNonEmpty(first);
    var firstRow := ProcessNumLine(first, None);
    var width := |firstRow.value|;
    var rest := ReadLaterLines(lines, firstRow.value);
    if rest.Err? {
      return Err(rest.error);
    }
    var (numbers, ops) := rest.value;
    if |ops| != width {
      return Err(OpsCount(|ops|, width));
    }
    AcceptedShape(readings, width);
    return Ok(MathProblems(|lines| - 1, width, numbers, ops));
  }

  /** The sum of a column (0 for none). */
  function SeqSum(xs: seq<nat>): nat {
    if |xs| == 0 then 0 else SeqSum(xs[..|xs| - 1]) + xs[|xs| - 1]
  }

  /** The product of a column (1 for none). */
  function SeqProduct(xs: seq<nat>): nat {
    if |xs| == 0 then 1 else SeqProduct(xs[..|xs| - 1]) * xs[|xs| - 1]
  }

  /** A column folded with its operator. */
  function Fold(op: MathOp, xs: seq<nat>): nat {
    match op
    case Sum => SeqSum(xs)
    case Product => SeqProduct(xs)
  }

  /** Folding one more number into a column. */
  lemma FoldStep(op: MathOp, xs: seq<nat>, x: nat)
    ensures Fold(op, xs + [x]) == if op == Sum then Fold(op, xs) + x else Fold(op, xs) * x
  {
    assert (xs + [x])[..|xs|] == xs;
  }

  /** One more row of a column. */
  lemma ColumnStep(mp: MathProblems, p: nat, h: nat)
    requires mp.Valid() && p < mp.width && h < mp.height
    ensures h * mp.width + p < |mp.numbers|
    ensures mp.Column(p, h + 1) == mp.Column(p, h) + [mp.numbers[h * mp.width + p]]
  {
    Layout.IndexInRange(p, h, mp.width, mp.height);
  }

  /**
   * One pass of the row loop of `solve`: row h of the numbers is folded into every
   * column's accumulator.
   */
  method FoldRow(mp: MathProblems, acc: array<nat>, h: nat)
    requires mp.Valid() && h < mp.height && acc.Length == mp.width
    requires forall q :: 0 <= q < mp.width ==> acc[q] == Fold(mp.operators[q], mp.Column(q, h))
    modifies acc
    ensures forall q :: 0 <= q < mp.width ==> acc[q] == Fold(mp.operators[q], mp.Column(q, h + 1))
  {
    for p := 0 to mp.width
      invariant forall q :: 0 <= q < p ==> acc[q] == Fold(mp.operators[q], mp.Column(q, h + 1))
      invariant forall q :: p <= q < mp.width ==> acc[q] == Fold(mp.operators[q], mp.Column(q, h))
    {
      ColumnStep(mp, p, h);
      var val := mp.numbers[h * mp.width + p];
      FoldStep(mp.operators[p], mp.Column(p, h), val);
      match mp.operators[p] {
        case Sum => acc[p] := acc[p] + val;
        case Product => acc[p] := acc[p] * val;
      }
    }
  }

  /**
   * `solve`: entry p is column p folded with operator p: the sum of the column for '+',
   * its product for '*', the fold starting from 0 or 1.
   */
  method Solve(mp: MathProblems) returns (res: seq<nat>)
    requires mp.Valid()
    ensures |res| == mp.width
    ensures forall p :: 0 <= p < mp.width ==> res[p] == Fold(mp.operators[p], mp.Column(p, mp.height))
  {
    var acc := new nat[mp.width];
    for p := 0 to mp.width
      invariant forall q :: 0 <= q < p ==> acc[q] == Fold(mp.operators[q], mp.Column(q, 0))
    {
      match mp.operators[p] {
        case Sum => acc[p] := 0;
        case Product => acc[p] := 1;
      }
    }
    for h := 0 to mp.height
      invariant forall q :: 0 <= q < mp.width ==> acc[q] == Fold(mp.operators[q], mp.Column(q, h))
    {
      FoldRow(mp, acc, h);
    }
    return acc[..];
  }

  /** Folding a three-row column, one row at a time. */
  lemma FoldThree(op: MathOp, a: nat, b: nat, c: nat)
    ensures Fold(op, [a, b, c]) == if op == Sum then a + b + c else a * b * c
  {
    FoldStep(op, [], a);
    assert [] + [a] == [a];
    FoldStep(op, [a], b);
    assert [a] + [b] == [a, b];
    FoldStep(op, [a, b], c);
    assert [a, b] + [c] == [a, b, c];
  }

  /**
   * A worked example: problems 123 * 45 * 6, 328 + 64 + 98, 51 * 387 * 215 and
   * 64 + 23 + 314, laid out in three rows under one operator row.
   */
  function SampleProblems(): MathProblems {
    MathProblems(3, 4, [123, 328, 51, 64, 45, 64, 387, 23, 6, 98, 215, 314], [Product, Sum, Product, Sum])
  }

  /** The columns of the worked example, top to bottom. */
  lemma SampleColumns()
    ensures var mp := SampleProblems();
            && mp.Valid()
            && mp.Column(0, 3) == [123, 45, 6]
            && mp.Column(1, 3) == [328, 64, 98]
            && mp.Column(2, 3) == [51, 387, 215]
            && mp.Column(3, 3) == [64, 23, 314]
  {
    var mp := SampleProblems();
    var c0, c1, c2, c3 := mp.Column(0, 3), mp.Column(1, 3), mp.Column(2, 3), mp.Column(3, 3);
    assert c0 == [123, 45, 6] by { assert c0[0] == 123 && c0[1] == 45 && c0[2] == 6; }
    assert c1 == [328, 64, 98] by { assert c1[0] == 328 && c1[1] == 64 && c1[2] == 98; }
    assert c2 == [51, 387, 215] by { assert c2[0] == 51 && c2[1] == 387 && c2[2] == 215; }
    assert c3 == [64, 23, 314] by { assert c3[0] == 64 && c3[1] == 23 && c3[2] == 314; }
  }

  /** The worked example's answers, each column folded with its operator. */
  lemma SampleWorksheet()
    ensures var mp := SampleProblems();
            && mp.Valid()
            && Fold(mp.operators[0], mp.Column(0, 3)) == 33210
            && Fold(mp.operators[1], mp.Column(1, 3)) == 490
            && Fold(mp.operators[2], mp.Column(2, 3)) == 4243455
            && Fold(mp.operators[3], mp.Column(3, 3)) == 401
  {
    SampleColumns();
    FoldThree(Product, 123, 45, 6);
    FoldThree(Sum, 328, 64, 98);
    FoldThree(Product, 51, 387, 215);
    FoldThree(Sum, 64, 23, 314);
  }
}
