/** Identifier supply. The store draws every new id from `uuid.NewString()`; the model
    replaces that generator by a serial counter whose n-th id is the decimal spelling of n.
    What the store relies on is only that a new id differs from every id issued before,
    which follows here from decimal spelling being reversible. */
module Ids {

  function DigitChar(d: nat): (c: char)
    requires d < 10
    ensures '0' <= c <= '9' && c as int - '0' as int == d
  {
    ('0' as int + d) as char
  }

  /** Decimal spelling of `n`, most significant digit first. */
  function Decimal(n: nat): (s: string)
    ensures |s| > 0
    decreases n
  {
    if n < 10 then [DigitChar(n)] else Decimal(n / 10) + [DigitChar(n % 10)]
  }

  /** The number a string of decimal digits spells, or -1 for any other string. */
  function DecimalValue(s: string): int
    decreases |s|
  {
    if s == [] then 0
    else
      var prefix := DecimalValue(s[..|s| - 1]);
      var last := s[|s| - 1];
      if prefix < 0 || !('0' <= last <= '9') then -1 else prefix * 10 + (last as int - '0' as int)
  }

  lemma {:induction false} DecimalRoundTrip(n: nat)
    ensures DecimalValue(Decimal(n)) == n
    decreases n
  {
    if n >= 10 {
      DecimalRoundTrip(n / 10);
      var s := Decimal(n);
      assert s[..|s| - 1] == Decimal(n / 10);
    }
  }

  /** The id handed out when the counter stands at `serial`. */
  function NewId(serial: nat): string {
    Decimal(serial)
  }

  /** `id` spells, in decimal, a number below `bound`. Every id handed out while the
      counter stood below `bound` does; the predicate says no more than that. */
  predicate SerialBelow(id: string, bound: nat) {
    0 <= DecimalValue(id) < bound
  }

  /** The id drawn at `serial` spells a number below `bound` exactly when `serial` is
      below it; in particular the id drawn at the current counter differs from every id
      that spells a number below the counter. */
  lemma NewIdSerialBelow(serial: nat, bound: nat)
    ensures SerialBelow(NewId(serial), bound) <==> serial < bound
  {
    DecimalRoundTrip(serial);
  }

  /** Different counter values give different ids. */
  lemma NewIdInjective(a: nat, b: nat)
    ensures NewId(a) == NewId(b) ==> a == b
  {
    DecimalRoundTrip(a);
    DecimalRoundTrip(b);
  }
}
