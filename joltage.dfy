/**
 * The battery-bank puzzle (3/joltage): each line is a bank of digit batteries,
 * and a bank's joltage is the largest two-digit number formed by two of its digits in order.
 */
module Joltage {
  import opened Wrappers
  import opened Ascii
  import Layout

  // ---------------------------------------------------------------------------
  // argmax

  /** The position of the first largest element. */
  function FirstMax(s: seq<nat>): (i: nat)
    requires |s| > 0
    ensures i < |s|
    ensures forall j :: 0 <= j < |s| ==> s[j] <= s[i]
    ensures forall j :: 0 <= j < i ==> s[j] < s[i]
  {
    if |s| == 1 then 0
    else
      var k := FirstMax(s[..|s| - 1]);
      if s[|s| - 1] > s[k] then |s| - 1 else k
  }

  /** `argmax`: scan left to right, moving only to a strictly larger element. */
  method ArgMax(slice: seq<nat>) returns (argmax: nat)
    requires |slice| > 0
    ensures argmax < |slice|
    ensures forall j :: 0 <= j < |slice| ==> slice[j] <= slice[argmax]
    ensures forall j :: 0 <= j < argmax ==> slice[j] < slice[argmax]
    ensures argmax == FirstMax(slice)
  {
    argmax := 0;
    for i := 0 to |slice|
      invariant argmax < |slice|
      invariant argmax <= i || argmax == 0
      invariant i > 0 ==> argmax == FirstMax(slice[..i])
    {
      if slice[i] > slice[argmax] {
        argmax := i;
      }
      assert slice[..i + 1][..i] == slice[..i];
    }
    assert slice[..|slice|] == slice;
  }

  /** Being a largest element with only smaller ones before it picks out FirstMax. */
  lemma FirstMaxUnique(s: seq<nat>, i: nat)
    requires i < |s|
    requires forall j :: 0 <= j < |s| ==> s[j] <= s[i]
    requires forall j :: 0 <= j < i ==> s[j] < s[i]
    ensures FirstMax(s) == i
  {
    var k := FirstMax(s);
    assert !(k < i) && !(i < k);
  }

  /** The unit test of argmax: 3 on the whole sample, 1 on its first three, 7 via offset 4. */
  lemma ArgMaxTestValues()
    ensures FirstMax([1, 3, 3, 9, 2, 4, 1, 6]) == 3
    ensures FirstMax([1, 3, 3, 9, 2, 4, 1, 6][..3]) == 1
    ensures 4 + FirstMax([1, 3, 3, 9, 2, 4, 1, 6][4..]) == 7
  {
    var v: seq<nat> := [1, 3, 3, 9, 2, 4, 1, 6];
    FirstMaxUnique(v, 3);
    assert v[..3] == [1, 3, 3];
    FirstMaxUnique([1, 3, 3], 1);
    assert v[4..] == [2, 4, 1, 6];
    FirstMaxUnique([2, 4, 1, 6], 3);
  }

  // ---------------------------------------------------------------------------
  // The banks

  /** `nbanks` banks of `bankWidth` digits each, laid out bank after bank in `banks`. */
  datatype BatteryBank = BatteryBank(nbanks: nat, bankWidth: nat, banks: seq<nat>)
  {
    predicate Valid() {
      |banks| == nbanks * bankWidth
    }

    /** Every stored battery is a single decimal digit. */
    predicate DigitsOnly() {
      forall i :: 0 <= i < |banks| ==> banks[i] <= 9
    }

    /**
     * `bank_offset_val`: the battery at `offset` of bank `bankno`. The two guards admit
     * bankno == nbanks and offset == bankWidth; only the Vec index itself must be in range.
     */
    function BankOffsetVal(bankno: nat, offset: nat): (v: nat)
      requires bankno <= nbanks && offset <= bankWidth
      requires bankno * bankWidth + offset < |banks|
    {
      banks[bankno * bankWidth + offset]
    }

    /**
     * The bounds check `bank_offset_val` is evidently meant to make: a battery exists
     * exactly for bankno < nbanks and offset < bankWidth, and it lies in that bank.
     */
    function CheckedOffsetVal(bankno: nat, offset: nat): (r: Option<nat>)
      requires Valid()
      ensures r.Some? <==> bankno < nbanks && offset < bankWidth
      ensures r.Some? ==> bankno * bankWidth + bankWidth <= |banks| && r.value == Bank(bankno)[offset]
    {
      if bankno >= nbanks || offset >= bankWidth then None
      else
        BankInRange(bankno);
        Some(BankOffsetVal(bankno, offset))
    }

    /** `bank`: the bankWidth batteries of bank `bankno`. The slice must lie inside the Vec. */
    function Bank(bankno: nat): (r: seq<nat>)
      requires bankno <= nbanks && bankno * bankWidth + bankWidth <= |banks|
      ensures |r| == bankWidth
      ensures forall o :: 0 <= o < bankWidth ==> r[o] == BankOffsetVal(bankno, o)
    {
      var base := bankno * bankWidth;
      banks[base..base + bankWidth]
    }

    /** A valid bank store holds every bank below nbanks. */
    lemma BankInRange(bankno: nat)
      requires Valid() && bankno < nbanks
      ensures bankno * bankWidth + bankWidth <= |banks|
    {
      Layout.MulMonotone(bankno + 1, nbanks, bankWidth);
      assert (bankno + 1) * bankWidth == bankno * bankWidth + bankWidth;
    }

    /** `bank_max_joltage`: the joltage of bank `bankno`. */
    function BankMaxJoltage(bankno: nat): (j: nat)
      requires Valid() && bankno < nbanks && bankWidth >= 2
    {
      BankInRange(bankno);
      MaxJoltage(Bank(bankno))
    }

    /** The sum of the joltages of the banks below k. */
    function TotalJoltage(k: nat): nat
      requires Valid() && k <= nbanks && (k > 0 ==> bankWidth >= 2)
    {
      if k == 0 then 0 else TotalJoltage(k - 1) + BankMaxJoltage(k - 1)
    }

    /** `sum_max_joltages`: add up the joltage of every bank. */
    method SumMaxJoltages() returns (sum: nat)
      requires Valid() && (nbanks > 0 ==> bankWidth >= 2)
      ensures sum == TotalJoltage(nbanks)
      ensures DigitsOnly() ==> sum <= 99 * nbanks
    {
      sum := 0;
      for b := 0 to nbanks
        invariant sum == TotalJoltage(b)
      {
        sum := sum + BankMaxJoltage(b);
      }
      if DigitsOnly() {
        TotalJoltageBound(this, nbanks);
      }
    }
  }

  /**
   * `bank_max_joltage` picks the first largest digit among all but the last position, then the
   * first largest digit after it; the joltage is the two-digit number they form.
   */
  function MaxJoltage(joltages: seq<nat>): nat
    requires |joltages| >= 2
  {
    var firstPos := FirstMax(joltages[..|joltages| - 1]);
    var secondPos := FirstMax(joltages[firstPos + 1..]) + firstPos + 1;
    joltages[firstPos] * 10 + joltages[secondPos]
  }

  /** The two-digit number formed by the digits at i and j. */
  function PairValue(d: seq<nat>, i: nat, j: nat): nat
    requires i < |d| && j < |d|
  {
    10 * d[i] + d[j]
  }

  /**
   * The greedy choice is optimal: for single digits, the joltage is formed by some
   * pair i < j, and no pair i < j forms a larger number.
   */
  lemma MaxJoltageIsBestPair(d: seq<nat>)
    requires |d| >= 2 && forall k :: 0 <= k < |d| ==> d[k] <= 9
    ensures exists i, j :: 0 <= i < j < |d| && PairValue(d, i, j) == MaxJoltage(d)
    ensures forall i, j :: 0 <= i < j < |d| ==> PairValue(d, i, j) <= MaxJoltage(d)
    ensures MaxJoltage(d) <= 99
  {
    var n := |d|;
    var head := d[..n - 1];
    var first := FirstMax(head);
    var tail := d[first + 1..];
    var second := FirstMax(tail) + first + 1;
    assert tail[second - first - 1] == d[second];
    assert PairValue(d, first, second) == MaxJoltage(d);
    forall i, j | 0 <= i < j < n ensures PairValue(d, i, j) <= MaxJoltage(d) {
      assert head[i] == d[i];
      if i < first {
        // d[i] < d[first], and one unit of the tens digit outweighs any units digit
        assert d[i] + 1 <= d[first];
        assert d[j] <= 9;
      } else {
        // d[i] <= d[first] and j lies after first, where d[second] is largest
        assert tail[j - first - 1] == d[j];
      }
    }
  }

  /** A bank's joltage is the best digit pair of that bank. */
  lemma BankMaxJoltageIsBestPair(bb: BatteryBank, bankno: nat)
    requires bb.Valid() && bankno < bb.nbanks && bb.bankWidth >= 2 && bb.DigitsOnly()
    ensures (bb.BankInRange(bankno);
             var d := bb.Bank(bankno);
             && (exists i, j :: 0 <= i < j < |d| && PairValue(d, i, j) == bb.BankMaxJoltage(bankno))
             && (forall i, j :: 0 <= i < j < |d| ==> PairValue(d, i, j) <= bb.BankMaxJoltage(bankno)))
    ensures bb.BankMaxJoltage(bankno) <= 99
  {
    bb.BankInRange(bankno);
    var d := bb.Bank(bankno);
    forall o | 0 <= o < |d| ensures d[o] <= 9 {
      assert d[o] == bb.banks[bankno * bb.bankWidth + o];
    }
    MaxJoltageIsBestPair(d);
  }

  /** Banks of joltage at most 99 each add up to at most 99 per bank. */
  lemma {:induction false} TotalOfBoundedBanks(bb: BatteryBank, k: nat)
    requires bb.Valid() && k <= bb.nbanks && (k > 0 ==> bb.bankWidth >= 2)
    requires forall b :: 0 <= b < k ==> bb.BankMaxJoltage(b) <= 99
    ensures bb.TotalJoltage(k) <= 99 * k
  {
    if k > 0 {
      TotalOfBoundedBanks(bb, k - 1);
    }
  }

  /** With single-digit batteries the total is at most 99 per bank. */
  lemma TotalJoltageBound(bb: BatteryBank, k: nat)
    requires bb.Valid() && bb.DigitsOnly() && k <= bb.nbanks && (k > 0 ==> bb.bankWidth >= 2)
    ensures bb.TotalJoltage(k) <= 99 * k
  {
    forall b | 0 <= b < k ensures bb.BankMaxJoltage(b) <= 99 {
      BankMaxJoltageIsBestPair(bb, b);
    }
    TotalOfBoundedBanks(bb, k);
  }

  /**
   * The guard of `bank_offset_val` admits offset == bankWidth, which reads the first
   * battery of the next bank rather than failing.
   */
  lemma OffsetPastBankReadsNextBank(bb: BatteryBank, bankno: nat)
    requires bb.Valid() && bankno + 1 < bb.nbanks && bb.bankWidth > 0
    ensures bankno * bb.bankWidth + bb.bankWidth < |bb.banks|
    ensures (bb.BankInRange(bankno + 1);
             bb.BankOffsetVal(bankno, bb.bankWidth) == bb.Bank(bankno + 1)[0])
  {
    bb.BankInRange(bankno + 1);
    assert (bankno + 1) * bb.bankWidth == bankno * bb.bankWidth + bb.bankWidth;
  }

  /** The unit test: banks 1339 and 2416 have joltages 39 and 46. */
  lemma BankTestValues()
    ensures BatteryBank(2, 4, [1, 3, 3, 9, 2, 4, 1, 6]).BankMaxJoltage(0) == 39
    ensures BatteryBank(2, 4, [1, 3, 3, 9, 2, 4, 1, 6]).BankMaxJoltage(1) == 46
  {
    var bb := BatteryBank(2, 4, [1, 3, 3, 9, 2, 4, 1, 6]);
    bb.BankInRange(0);
    bb.BankInRange(1);
    assert bb.Bank(0) == [1, 3, 3, 9];
    assert bb.Bank(0)[..3] == [1, 3, 3];
    assert FirstMax([1, 3, 3]) == 1;
    assert bb.Bank(0)[2..] == [3, 9];
    assert FirstMax([3, 9]) == 1;
    assert bb.Bank(1) == [2, 4, 1, 6];
    assert bb.Bank(1)[..3] == [2, 4, 1];
    assert FirstMax([2, 4, 1]) == 1;
    assert bb.Bank(1)[2..] == [1, 6];
    assert FirstMax([1, 6]) == 1;
  }

  // ---------------------------------------------------------------------------
  // Reading the banks from lines

  datatype BankError =
    | NoLines
    | BadDigit(c: byte)
    | LineTooWide(expected: nat)
    | MismatchedWidth(got: nat, expected: nat)

  /** A battery byte: '1'..='9' ('0' is rejected). */
  predicate IsBattery(c: byte) {
    ONE <= c <= NINE
  }

  predicate BatteryLine(line: seq<byte>) {
    forall k :: 0 <= k < |line| ==> IsBattery(line[k])
  }

  /** The digit values of a line of batteries. */
  function Row(line: seq<byte>): (r: seq<nat>)
    requires BatteryLine(line)
    ensures |r| == |line|
    ensures forall k :: 0 <= k < |line| ==> r[k] == DigitValue(line[k])
  {
    seq(|line|, k requires 0 <= k < |line| => DigitValue(line[k]))
  }

  /**
   * The input rule: at least one line, every byte a battery, and every line after the
   * first as wide as the first, except that the last line may be empty.
   */
  predicate WellFormed(lines: seq<seq<byte>>) {
    && |lines| >= 1
    && (forall i :: 0 <= i < |lines| ==> BatteryLine(lines[i]))
    && (forall i :: 1 <= i < |lines| ==>
          |lines[i]| == |lines[0]| || (i == |lines| - 1 && |lines[i]| == 0))
  }

  /** The number of banks: every line but a final empty one. */
  function BankCount(lines: seq<seq<byte>>): nat
    requires |lines| >= 1
  {
    if |lines| >= 2 && |lines[|lines| - 1]| == 0 then |lines| - 1 else |lines|
  }

  /** `process_line`: the digit values of one line, at most `expected` of them when given. */
  method ProcessLine(line: seq<byte>, expected: Option<nat>) returns (r: Result<seq<nat>, BankError>)
    ensures r.Ok? <==> BatteryLine(line) && (expected.Some? ==> |line| <= expected.value)
    ensures r.Ok? ==> r.value == Row(line)
  {
    var row: seq<nat> := [];
    var w := 0;
    for k := 0 to |line|
      invariant w == k == |row|
      invariant BatteryLine(line[..k])
      invariant forall m :: 0 <= m < k ==> row[m] == DigitValue(line[m])
      invariant expected.Some? ==> w <= expected.value
    {
      var c := line[k];
      if c <= ZERO || c > NINE {
        return Err(BadDigit(c));
      }
      row := row + [c - ZERO];
      w := w + 1;
      if expected.Some? && w > expected.value {
        return Err(LineTooWide(expected.value));
      }
      assert line[..k + 1] == line[..k] + [c];
    }
    assert line[..|line|] == line;
    return Ok(row);
  }

  /** The digit rows of lines 0 .. n - 1. */
  function Rows(lines: seq<seq<byte>>, n: nat): seq<seq<nat>>
    requires n <= |lines| && forall i :: 0 <= i < n ==> BatteryLine(lines[i])
  {
    seq(n, i requires 0 <= i < n => Row(lines[i]))
  }

  /** The digits of lines 0 .. n - 1, stored line after line. */
  function Stored(lines: seq<seq<byte>>, n: nat): seq<nat>
    requires n <= |lines| && forall i :: 0 <= i < n ==> BatteryLine(lines[i])
  {
    Layout.Flatten(Rows(lines, n))
  }

  /** Storing one more line appends its digits. */
  lemma StoredStep(lines: seq<seq<byte>>, n: nat)
    requires 0 < n <= |lines| && forall i :: 0 <= i < n ==> BatteryLine(lines[i])
    ensures Stored(lines, n) == Stored(lines, n - 1) + Row(lines[n - 1])
  {
    assert Rows(lines, n)[..n - 1] == Rows(lines, n - 1);
  }

  /** Lines of width w store n * w batteries. */
  lemma StoredLength(lines: seq<seq<byte>>, n: nat, w: nat)
    requires n <= |lines| && forall i :: 0 <= i < n ==> BatteryLine(lines[i]) && |lines[i]| == w
    ensures |Stored(lines, n)| == n * w
  {
    Layout.FlattenLength(Rows(lines, n), w);
  }

  /** Line y of width w is stored at y * w .. y * w + w. */
  lemma {:induction false} StoredRow(lines: seq<seq<byte>>, n: nat, w: nat, y: nat)
    requires n <= |lines| && forall i :: 0 <= i < n ==> BatteryLine(lines[i]) && |lines[i]| == w
    requires y < n
    ensures y * w + w <= |Stored(lines, n)| && Stored(lines, n)[y * w .. y * w + w] == Row(lines[y])
  {
    var prev := Stored(lines, n - 1);
    StoredLength(lines, n - 1, w);
    StoredStep(lines, n);
    if y < n - 1 {
      StoredRow(lines, n - 1, w, y);
      assert (prev + Row(lines[n - 1]))[y * w .. y * w + w] == prev[y * w .. y * w + w];
    } else {
      assert y * w == |prev|;
      assert (prev + Row(lines[n - 1]))[|prev| .. |prev| + w] == Row(lines[n - 1]);
    }
  }

  /** What `BatteryBank::new` builds from well-formed lines. */
  function Parsed(lines: seq<seq<byte>>): BatteryBank
    requires WellFormed(lines)
  {
    BatteryBank(BankCount(lines), |lines[0]|, Stored(lines, BankCount(lines)))
  }

  /**
   * The parsed banks: bank b holds the digits of line b, and every battery is a digit 1..9.
   */
  lemma ParsedBanks(lines: seq<seq<byte>>)
    requires WellFormed(lines)
    ensures var bb := Parsed(lines);
            && bb.Valid()
            && (forall b :: 0 <= b < bb.nbanks ==>
                  b * bb.bankWidth + bb.bankWidth <= |bb.banks| && bb.Bank(b) == Row(lines[b]))
            && (forall i :: 0 <= i < |bb.banks| ==> 1 <= bb.banks[i] <= 9)
  {
    var n, w := BankCount(lines), |lines[0]|;
    var bb := Parsed(lines);
    assert forall i :: 0 <= i < n ==> BatteryLine(lines[i]) && |lines[i]| == w;
    StoredLength(lines, n, w);
    forall b | 0 <= b < n ensures b * w + w <= |bb.banks| && bb.Bank(b) == Row(lines[b]) {
      StoredRow(lines, n, w, b);
    }
    StoredDigits(lines, n);
  }

  lemma {:induction false} StoredDigits(lines: seq<seq<byte>>, n: nat)
    requires n <= |lines| && forall i :: 0 <= i < n ==> BatteryLine(lines[i])
    ensures forall i :: 0 <= i < |Stored(lines, n)| ==> 1 <= Stored(lines, n)[i] <= 9
  {
    if n > 0 {
      StoredDigits(lines, n - 1);
      StoredStep(lines, n);
    }
  }

  /**
   * The line rule of `BatteryBank::new`: the first line fixes the bank width, every later
   * line must match it (a final empty line ends the input), and the digits are stored
   * bank after bank.
   */
  method NewFromLines(lines: seq<seq<byte>>) returns (r: Result<BatteryBank, BankError>)
    ensures r.Ok? <==> WellFormed(lines)
    ensures r.Ok? ==> r.value.Valid() && r.value == Parsed(lines)
  {
    if |lines| == 0 {
      return Err(NoLines);
    }
    var first := ProcessLine(lines[0], None);
    if first.Err? {
      return Err(first.error);
    }
    var width := |first.value|;
    var banks := first.value;
    var nlines := 1;
    StoredStep(lines, 1);
    while nlines < |lines|
      invariant 1 <= nlines <= |lines|
      invariant width == |lines[0]|
      invariant forall i :: 0 <= i < nlines ==> BatteryLine(lines[i]) && |lines[i]| == width
      invariant nlines == |lines| >= 2 ==> |lines[nlines - 1]| > 0
      invariant banks == Stored(lines, nlines)
      invariant |banks| == nlines * width
    {
      var processed := ProcessLine(lines[nlines], Some(width));
      if processed.Err? {
        return Err(processed.error);
      }
      var w := |processed.value|;
      if w == 0 && nlines + 1 == |lines| {
        break;
      }
      if w != width {
        return Err(MismatchedWidth(w, width));
      }
      banks := banks + processed.value;
      StoredStep(lines, nlines + 1);
      assert (nlines + 1) * width == nlines * width + width;
      nlines := nlines + 1;
    }
    return Ok(BatteryBank(nlines, width, banks));
  }
}
