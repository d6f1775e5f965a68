/** How a criterion of a batch's snapshot is named in the screening messages, and read back. */
module CriterionIds {
  import opened Prelude

  /** The largest int of a 64-bit Go build, past which strconv.Atoi reports a range error. */
  const MAX_INT: int := 0x7fff_ffff_ffff_ffff

  predicate IsDigit(c: char) {
    '0' <= c <= '9'
  }

  ghost predicate AllDigits(s: string) {
    forall i :: 0 <= i < |s| ==> IsDigit(s[i])
  }

  function DigitChar(d: nat): (c: char)
    requires d < 10
    ensures IsDigit(c) && DigitValue(c) == d
  {
    ('0' as int + d) as char
  }

  function DigitValue(c: char): (d: nat)
    requires IsDigit(c)
    ensures d < 10
  {
    c as int - '0' as int
  }

  /** strconv.Itoa on a non-negative number. */
  function Itoa(n: nat): (s: string)
    ensures |s| > 0
    ensures AllDigits(s)
    ensures n > 0 ==> s[0] != '0'
  {
    if n < 10 then [DigitChar(n)] else Itoa(n / 10) + [DigitChar(n % 10)]
  }

  /** The number a run of digits denotes, whatever its leading zeros. */
  function Number(s: string): nat
    requires AllDigits(s)
  {
    if |s| == 0 then 0 else 10 * Number(s[..|s| - 1]) + DigitValue(s[|s| - 1])
  }

  /** A computable form of AllDigits, reading from the right as Number does. */
  predicate Digits(s: string)
    ensures Digits(s) == AllDigits(s)
  {
    |s| == 0 || (IsDigit(s[|s| - 1]) && Digits(s[..|s| - 1]))
  }

  /** strconv.Atoi: an optional sign, then one or more digits, within the range of int. */
  function Atoi(s: string): Option<int> {
    var signed := |s| > 0 && (s[0] == '+' || s[0] == '-');
    var digits := if signed then s[1..] else s;
    if |digits| == 0 || !Digits(digits) then None
    else
      var magnitude: int := Number(digits);
      var n := if signed && s[0] == '-' then -magnitude else magnitude;
      if -MAX_INT - 1 <= n <= MAX_INT then Some(n) else None
  }

  /** c1, c2, ... by position. */
  function CriterionID(position: nat): string {
    "c" + Itoa(position + 1)
  }

  predicate HasPrefix(s: string, c: char) {
    |s| > 0 && s[0] == c
  }

  function TrimPrefix(s: string, c: char): string {
    if HasPrefix(s, c) then s[1..] else s
  }

  function ParseCriterionID(id: string): Option<nat> {
    var n := Atoi(TrimPrefix(id, 'c'));
    if !HasPrefix(id, 'c') || n == None || n.value < 1 then None else Some(n.value - 1)
  }

  lemma {:induction false} NumberOfItoa(n: nat)
    ensures Number(Itoa(n)) == n
  {
    if n >= 10 {
      NumberOfItoa(n / 10);
      var s := Itoa(n);
      assert s[..|s| - 1] == Itoa(n / 10);
    }
  }

  /** Reading back an id gives the position it was made from, exactly while the number fits an int. */
  lemma ParseUndoesCriterionID(position: nat)
    ensures ParseCriterionID(CriterionID(position)) == Some(position) <==> position < 9_223_372_036_854_775_807
  {
    var id := CriterionID(position);
    assert TrimPrefix(id, 'c') == Itoa(position + 1);
    NumberOfItoa(position + 1);
  }

  /** An id is the letter c and the decimal numeral of the position counted from one. */
  lemma CriterionIDSpells(position: nat)
    ensures
      var id := CriterionID(position);
      |id| > 1 && id[0] == 'c' && AllDigits(id[1..]) && id[1] != '0' && Number(id[1..]) == position + 1
  {
    assert CriterionID(position)[1..] == Itoa(position + 1);
    NumberOfItoa(position + 1);
  }

  /** Different positions never share an id. */
  lemma CriterionIDIsInjective(p: nat, q: nat)
    requires CriterionID(p) == CriterionID(q)
    ensures p == q
  {
    assert CriterionID(p)[1..] == Itoa(p + 1) && CriterionID(q)[1..] == Itoa(q + 1);
    NumberOfItoa(p + 1);
    NumberOfItoa(q + 1);
  }

  lemma {:induction false} ItoaOfNumber(s: string)
    requires AllDigits(s) && |s| > 0 && s[0] != '0'
    ensures Number(s) > 0 && Itoa(Number(s)) == s
  {
    var last := |s| - 1;
    if last > 0 {
      ItoaOfNumber(s[..last]);
      assert s == s[..last] + [s[last]];
    }
  }

  /**
   * Which ids are read as a position: the one CriterionID prints, and nothing else but spellings
   * of the same number with a plus sign or leading zeros, which Atoi tolerates.
   */
  lemma ParsedIDsAreSpellingsOfThePosition(id: string, position: nat)
    requires ParseCriterionID(id) == Some(position)
    ensures position < MAX_INT
    ensures |id| > 1 && IsDigit(id[1]) && id[1] != '0' ==> id == CriterionID(position)
    ensures id == CriterionID(position) || (|id| > 2 && (id[1] == '+' || id[1] == '0'))
  {
    var rest := id[1..];
    assert id == "c" + rest;
    if IsDigit(rest[0]) && rest[0] != '0' {
      ItoaOfNumber(rest);
    }
  }
}
