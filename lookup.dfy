/** How a detail route finds its row: the router hands the view the raw `pk`
    text of the URL, the primary-key field converts it with int(), and the
    lookup goes through the soft-delete manager (a failed conversion or a
    missing or soft-deleted row is a 404). */
module Lookup {
  import opened Records

  predicate IsDigit(c: char) {
    '0' <= c <= '9'
  }

  predicate AllDigits(s: string) {
    forall i :: 0 <= i < |s| ==> IsDigit(s[i])
  }

  /** The value of a run of decimal digits, most significant first. */
  function DigitsValue(s: string): (n: nat)
    requires AllDigits(s)
    decreases |s|
  {
    if s == [] then 0 else 10 * DigitsValue(s[..|s| - 1]) + (s[|s| - 1] as int - '0' as int)
  }

  /** int(pk) for the texts the route can carry: an optional sign followed by one or
      more ASCII digits; anything else raises ValueError, which the lookup turns
      into "not found". */
  function ParsePk(pk: string): (r: Option<int>)
    ensures r.Some? ==> |pk| > 0
    ensures r.Some? && pk[0] != '-' ==> r.value >= 0
  {
    if |pk| > 0 && (pk[0] == '+' || pk[0] == '-') then
      var digits := pk[1..];
      if |digits| > 0 && AllDigits(digits) then
        var magnitude: int := DigitsValue(digits);
        Some(if pk[0] == '-' then -magnitude else magnitude)
      else None
    else if |pk| > 0 && AllDigits(pk) then Some(DigitsValue(pk))
    else None
  }

  /** str(n) for a non-negative id, as the tests build detail keys. */
  function Decimal(n: nat): (s: string)
    ensures |s| > 0 && AllDigits(s)
    ensures |s| > 1 ==> s[0] != '0'
  {
    if n < 10 then ['0' + n as char] else Decimal(n / 10) + ['0' + (n % 10) as char]
  }

  lemma {:induction false} DecimalValue(n: nat)
    ensures DigitsValue(Decimal(n)) == n
    decreases n
  {
    if n >= 10 {
      var s := Decimal(n);
      assert s[..|s| - 1] == Decimal(n / 10);
      DecimalValue(n / 10);
    }
  }

  /** Parsing what str() printed gives the id back. */
  lemma ParseDecimal(n: nat)
    ensures ParsePk(Decimal(n)) == Some(n)
  {
    DecimalValue(n);
  }

  /** Leading zeros do not change the value of a digit run. */
  lemma {:induction false} LeadingZeroValue(s: string)
    requires AllDigits(s)
    ensures AllDigits("0" + s) && DigitsValue("0" + s) == DigitsValue(s)
    decreases |s|
  {
    var z := "0" + s;
    if s != [] {
      assert z[..|z| - 1] == "0" + s[..|s| - 1];
      LeadingZeroValue(s[..|s| - 1]);
    }
  }

  /** Different URL texts address the same row: "0" + str(n) parses to n too. */
  lemma PaddedPkParses(n: nat)
    ensures ParsePk("0" + Decimal(n)) == Some(n)
  {
    DecimalValue(n);
    LeadingZeroValue(Decimal(n));
  }

  /** The get_object lookup through the soft-delete manager: the id the pk text
      names, provided that row exists and is active. */
  function FindActive<F>(rows: map<int, Record<F>>, pk: string): (r: Option<int>)
    ensures r.Some? <==> ParsePk(pk).Some? && ParsePk(pk).value in Active(rows)
    ensures r.Some? ==> r == ParsePk(pk)
  {
    match ParsePk(pk)
    case Some(id) => if id in rows && IsActive(rows[id]) then Some(id) else None
    case None => None
  }
}
