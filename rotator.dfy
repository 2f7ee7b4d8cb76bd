/**
 * The dial puzzle (1/rotator): lines "R<n>" / "L<n>" turn a 100-position dial,
 * and the dial counts how often it points at 0.
 */
module Rotator {
  import opened Wrappers

  /** Number of positions on the dial. */
  const SIZE: int := 100

  // ---------------------------------------------------------------------------
  // Parsing a rotation line

  predicate IsDigitChar(c: char) {
    '0' <= c <= '9'
  }

  predicate AllDigits(s: string) {
    forall i :: 0 <= i < |s| ==> IsDigitChar(s[i])
  }

  /** Most-significant-first decimal value of a run of digits. */
  function DigitsValue(s: string): nat
    requires AllDigits(s)
  {
    if s == [] then 0 else DigitsValue(s[..|s| - 1]) * 10 + (s[|s| - 1] as int - '0' as int)
  }

  /**
   * Decimal integer parsing as `str::parse::<i32>` does it: an optional '+' or '-',
   * then one or more digits and nothing else.
   */
  function ParseInt(s: string): (r: Option<int>)
    ensures r.Some? ==> |s| > 0
  {
    if |s| > 0 && (s[0] == '+' || s[0] == '-') then
      var digits := s[1..];
      if |digits| > 0 && AllDigits(digits) then
        var v: int := DigitsValue(digits);
        Some(if s[0] == '-' then -v else v)
      else
        None
    else if |s| > 0 && AllDigits(s) then
      Some(DigitsValue(s))
    else
      None
  }

  /** A failed number parse after a direction letter, which the program treats as fatal. */
  datatype NotANumber = NotANumber

  /**
   * `parse_line`: Ok(None) for a line that is empty or does not start with a direction,
   * Ok(Some(step)) for "R<n>" (step n) or "L<n>" (step -n), and an error when the rest
   * of a direction line is not a number.
   */
  function ParseLine(s: string): (r: Result<Option<int>, NotANumber>)
    ensures r == Ok(None) <==> |s| == 0 || (s[0] != 'R' && s[0] != 'L')
    ensures r.Err? <==> |s| > 0 && (s[0] == 'R' || s[0] == 'L') && ParseInt(s[1..]).None?
    ensures r.Ok? && r.value.Some? ==> s[0] == 'R' || s[0] == 'L'
  {
    if |s| == 0 then Ok(None)
    else
      var sign := if s[0] == 'R' then 1 else if s[0] == 'L' then -1 else 0;
      if sign == 0 then Ok(None)
      else match ParseInt(s[1..])
        case Some(n) => Ok(Some(sign * n))
        case None => Err(NotANumber)
  }

  /** The shortest decimal spelling of a natural number. */
  function DecimalString(n: nat): (s: string)
    ensures |s| > 0 && AllDigits(s)
  {
    var d := [(('0' as int) + n % 10) as char];
    if n < 10 then d else DecimalString(n / 10) + d
  }

  lemma {:induction false} DecimalStringValue(n: nat)
    ensures DigitsValue(DecimalString(n)) == n
  {
    var s := DecimalString(n);
    assert s[..|s| - 1] == if n < 10 then [] else DecimalString(n / 10);
    if n >= 10 {
      DecimalStringValue(n / 10);
    }
  }

  /** The rotation line that a step is written as. */
  function FormatLine(step: int): string
  {
    (if step < 0 then "L" else "R") + DecimalString(if step < 0 then -step else step)
  }

  /** Parsing the line written for any step gives that step back. */
  lemma ParseFormatRoundTrip(step: int)
    ensures ParseLine(FormatLine(step)) == Ok(Some(step))
  {
    var m: nat := if step < 0 then -step else step;
    var s := FormatLine(step);
    assert s[1..] == DecimalString(m);
    DecimalStringValue(m);
    assert ParseInt(s[1..]) == Some(m);
  }

  // ---------------------------------------------------------------------------
  // Spinning the dial

  function Abs(a: int): nat {
    if a < 0 then -a else a
  }

  /** Rust's `/` on integers: the quotient truncated toward zero. */
  function TruncDiv(a: int, b: int): int
    requires b > 0
  {
    if a >= 0 then a / b else -((-a) / b)
  }

  /** Rust's `%` on integers: the remainder takes the sign of the dividend. */
  function TruncRem(a: int, b: int): int
    requires b > 0
  {
    a - TruncDiv(a, b) * b
  }

  /** The dial position after a spin of n from position s, as `spin` computes the new state. */
  function SpinState(s: int, n: int): (r: int)
    ensures 0 <= r < SIZE
    ensures r == (s + n) % SIZE
  {
    var div := TruncDiv(n, SIZE);
    var minN := n - div * SIZE;
    var rem := TruncRem(s + minN, SIZE);
    if rem < 0 then SIZE + rem else rem
  }

  /**
   * The zero count a spin of n from position s adds, as `spin` counts it:
   * the full turns, plus one when the spin ends on 0, passes below 0 or passes 100.
   */
  function Crossings(s: int, n: int): (c: nat)
    ensures Abs(TruncDiv(n, SIZE)) <= c <= Abs(TruncDiv(n, SIZE)) + 1
  {
    var div := TruncDiv(n, SIZE);
    var minN := n - div * SIZE;
    var unmod := s + minN;
    var cross := Abs(div);
    if SpinState(s, n) == 0 && n != 0 then cross + 1
    else if s > 0 && unmod < 0 then cross + 1
    else if unmod >= SIZE then cross + 1
    else cross
  }

  /** The crossing count with the end-on-0 test asking for a partial turn (minN != 0). */
  function FixedCrossings(s: int, n: int): (c: nat)
    ensures Abs(TruncDiv(n, SIZE)) <= c <= Abs(TruncDiv(n, SIZE)) + 1
  {
    var div := TruncDiv(n, SIZE);
    var minN := n - div * SIZE;
    var unmod := s + minN;
    var cross := Abs(div);
    if SpinState(s, n) == 0 && minN != 0 then cross + 1
    else if s > 0 && unmod < 0 then cross + 1
    else if unmod >= SIZE then cross + 1
    else cross
  }

  /**
   * Reference count: turning one click at a time in the direction of n's sign,
   * how many of the |n| clicks leave the dial at 0.
   */
  function ClickZeros(s: int, n: int): nat
    decreases Abs(n)
  {
    if n == 0 then 0
    else if n > 0 then ClickZeros(s, n - 1) + (if (s + n) % SIZE == 0 then 1 else 0)
    else ClickZeros(s, n + 1) + (if (s + n) % SIZE == 0 then 1 else 0)
  }

  lemma FloorStep(a: int)
    ensures a / SIZE - (a - 1) / SIZE == if a % SIZE == 0 then 1 else 0
  {
  }

  /** Clicks counted in closed form: the multiples of 100 that the clicks land on. */
  lemma {:induction false} ClickZerosClosedForm(s: int, n: int)
    ensures n >= 0 ==> ClickZeros(s, n) == (s + n) / SIZE - s / SIZE
    ensures n <= 0 ==> ClickZeros(s, n) == (s - 1) / SIZE - (s + n - 1) / SIZE
    decreases Abs(n)
  {
    if n > 0 {
      ClickZerosClosedForm(s, n - 1);
      FloorStep(s + n);
    } else if n < 0 {
      ClickZerosClosedForm(s, n + 1);
      FloorStep(s + n);
    }
  }

  /** A spin whose full turns bring the dial from 0 back to 0 exactly. */
  predicate WholeTurnsFromZero(s: int, n: int) {
    s == 0 && n != 0 && n % SIZE == 0
  }

  /**
   * From any valid position, the source's count is the number of clicks that land on 0,
   * except that a spin of whole turns starting at 0 is counted once more.
   */
  lemma {:induction false} CrossingsCountClicks(s: int, n: int)
    requires 0 <= s < SIZE
    ensures Crossings(s, n) == ClickZeros(s, n) + (if WholeTurnsFromZero(s, n) then 1 else 0)
  {
    ClickZerosClosedForm(s, n);
    CrossingCases(s, n);
  }

  /** The corrected count is exactly the number of clicks that land on 0. */
  lemma {:induction false} FixedCrossingsCountClicks(s: int, n: int)
    requires 0 <= s < SIZE
    ensures FixedCrossings(s, n) == ClickZeros(s, n)
  {
    ClickZerosClosedForm(s, n);
    CrossingCases(s, n);
  }

  /** The case analysis shared by the two counts, against the closed form of ClickZeros. */
  lemma CrossingCases(s: int, n: int)
    requires 0 <= s < SIZE
    ensures var div := TruncDiv(n, SIZE);
            var minN := n - div * SIZE;
            var clicks := if n >= 0 then (s + n) / SIZE - s / SIZE
                          else (s - 1) / SIZE - (s + n - 1) / SIZE;
            && (SpinState(s, n) == 0 <==> s + minN == 0 || s + minN == SIZE)
            && (minN == 0 <==> n % SIZE == 0)
            && clicks == Abs(div) + (if s + minN >= SIZE || (s + minN == 0 && minN != 0) || (s > 0 && s + minN < 0) then 1 else 0)
  {
    if n >= 0 {
      CrossingCasesRight(s, n);
    } else {
      CrossingCasesLeft(s, n);
    }
  }

  /** A right turn of q full turns and r more clicks reaches 0 q times, once more if s + r passes 100. */
  lemma CrossingCasesRight(s: int, n: int)
    requires 0 <= s < SIZE && n >= 0
    ensures TruncDiv(n, SIZE) == n / SIZE && n - TruncDiv(n, SIZE) * SIZE == n % SIZE
    ensures (s + n) / SIZE - s / SIZE == n / SIZE + (if s + n % SIZE >= SIZE then 1 else 0)
    ensures (s + n) % SIZE == 0 <==> s + n % SIZE == 0 || s + n % SIZE == SIZE
  {
    var q, r := n / SIZE, n % SIZE;
    assert (s + n) / SIZE == q + (s + r) / SIZE;
  }

  /** A left turn of q full turns and r more clicks reaches 0 q times, once more if it passes 0 from s > 0. */
  lemma CrossingCasesLeft(s: int, n: int)
    requires 0 <= s < SIZE && n < 0
    ensures TruncDiv(n, SIZE) == -((-n) / SIZE) && n - TruncDiv(n, SIZE) * SIZE == -((-n) % SIZE)
    ensures n % SIZE == 0 <==> (-n) % SIZE == 0
    ensures (s - 1) / SIZE - (s + n - 1) / SIZE == (-n) / SIZE + (if s > 0 && s - (-n) % SIZE <= 0 then 1 else 0)
    ensures (s + n) % SIZE == 0 <==> s - (-n) % SIZE == 0
  {
    var m := -n;
    var q, r := m / SIZE, m % SIZE;
    assert n == -q * SIZE - r;
    assert (s + n - 1) / SIZE == -q + (s - r - 1) / SIZE;
    assert (s + n) % SIZE == (s - r) % SIZE;
  }

  /** A spin of 0 from a valid position changes neither the position nor the count. */
  lemma SpinZeroUnchanged(s: int)
    requires 0 <= s < SIZE
    ensures SpinState(s, 0) == s && Crossings(s, 0) == 0
  {
  }

  /** The source overcounts: from 0, a spin of R100 passes 0 once but is counted twice. */
  lemma CrossingsOvercountAtZero()
    ensures ClickZeros(0, 100) == 1 && Crossings(0, 100) == 2
    ensures ClickZeros(0, -100) == 1 && Crossings(0, -100) == 2
  {
    assert ClickZeros(0, 100) == 1 by {
      ClickZerosClosedForm(0, 100);
    }
    assert ClickZeros(0, -100) == 1 by {
      ClickZerosClosedForm(0, -100);
    }
  }

  /** The dial: its position and how many times it has been at 0. */
  class Dial {
    var state: int
    var zeroCt: int

    predicate Valid()
      reads this
    {
      0 <= state < SIZE
    }

    /** The dial as the program starts it: at 50, nothing counted. */
    constructor ()
      ensures Valid() && state == 50 && zeroCt == 0
    {
      state := 50;
      zeroCt := 0;
    }

    /** `spin`: turn the dial by n clicks (right when n > 0) and count the zero crossings. */
    method Spin(n: int)
      modifies this
      ensures Valid()
      ensures state == (old(state) + n) % SIZE
      ensures zeroCt == old(zeroCt) + Crossings(old(state), n)
      ensures Abs(TruncDiv(n, SIZE)) <= zeroCt - old(zeroCt) <= Abs(TruncDiv(n, SIZE)) + 1
      ensures old(Valid()) ==>
                zeroCt - old(zeroCt) == ClickZeros(old(state), n) + (if WholeTurnsFromZero(old(state), n) then 1 else 0)
    {
      var size := SIZE;
      var div := TruncDiv(n, size);
      var minN := n - div * size;
      var unmod := state + minN;
      var oldstate := state;
      state := TruncRem(state + minN, size);
      if state < 0 {
        state := size + state;
      }
      assert state == SpinState(oldstate, n);
      var cross := Abs(div);
      if state == 0 && n != 0 {
        cross := cross + 1;
      } else if oldstate > 0 && unmod < 0 {
        cross := cross + 1;
      } else if unmod >= size {
        cross := cross + 1;
      }
      zeroCt := zeroCt + cross;
      if 0 <= oldstate < SIZE {
        CrossingsCountClicks(oldstate, n);
      }
    }

    /** `spin` with the end-on-0 test corrected: counts exactly the clicks that land on 0. */
    method SpinFixed(n: int)
      requires Valid()
      modifies this
      ensures Valid()
      ensures state == (old(state) + n) % SIZE
      ensures zeroCt == old(zeroCt) + ClickZeros(old(state), n)
    {
      var size := SIZE;
      var div := TruncDiv(n, size);
      var minN := n - div * size;
      var unmod := state + minN;
      var oldstate := state;
      state := TruncRem(state + minN, size);
      if state < 0 {
        state := size + state;
      }
      assert state == SpinState(oldstate, n);
      var cross := Abs(div);
      if state == 0 && minN != 0 {
        cross := cross + 1;
      } else if oldstate > 0 && unmod < 0 {
        cross := cross + 1;
      } else if unmod >= size {
        cross := cross + 1;
      }
      zeroCt := zeroCt + cross;
      FixedCrossingsCountClicks(oldstate, n);
    }
  }
}
