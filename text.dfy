/**
 * The text building blocks of the action bar's messages: decimal rendering of
 * a count (the `%'d` conversion, without locale digit grouping) and the
 * singular/plural choice `ngettext` makes for an English message catalogue.
 */
module Text {

  predicate IsDigit(c: char) {
    '0' <= c <= '9'
  }

  predicate AllDigits(s: string) {
    forall i :: 0 <= i < |s| ==> IsDigit(s[i])
  }

  function DigitChar(d: nat): (c: char)
    requires d < 10
    ensures IsDigit(c) && c as int - '0' as int == d
  {
    ['0', '1', '2', '3', '4', '5', '6', '7', '8', '9'][d]
  }

  /** Decimal rendering of a count, most significant digit first, no leading zeros. */
  function Dec(n: nat): (r: string)
    ensures |r| > 0 && AllDigits(r)
    ensures |r| > 1 ==> r[0] != '0'
  {
    if n < 10 then [DigitChar(n)] else Dec(n / 10) + [DigitChar(n % 10)]
  }

  /** The value a string of decimal digits denotes: the inverse of Dec. */
  function DecValue(s: string): (n: nat)
    requires AllDigits(s)
  {
    if s == [] then 0 else DecValue(s[..|s| - 1]) * 10 + (s[|s| - 1] as int - '0' as int)
  }

  lemma {:induction false} DecRoundTrip(n: nat)
    ensures DecValue(Dec(n)) == n
  {
    if n >= 10 {
      DecRoundTrip(n / 10);
      var r := Dec(n);
      assert r[..|r| - 1] == Dec(n / 10);
    }
  }

  lemma DecInjective(m: nat, n: nat)
    requires Dec(m) == Dec(n)
    ensures m == n
  {
    DecRoundTrip(m);
    DecRoundTrip(n);
  }

  /**
   * A run of digits followed by text that starts with a non-digit splits in
   * exactly one way: the digits of a count can be read back from a message.
   */
  lemma DigitPrefixUnique(d1: string, t1: string, d2: string, t2: string)
    requires AllDigits(d1) && AllDigits(d2)
    requires |t1| > 0 && !IsDigit(t1[0]) && |t2| > 0 && !IsDigit(t2[0])
    requires d1 + t1 == d2 + t2
    ensures d1 == d2 && t1 == t2
  {
    var k := if |d1| < |d2| then |d1| else |d2|;
    assert (d1 + t1)[k] == (d2 + t2)[k];
    assert |d1| == |d2|;
    assert d1 == (d1 + t1)[..|d1|];
    assert d2 == (d2 + t2)[..|d2|];
  }

  /** The form `ngettext` selects for count `n` under the English plural rule. */
  function Plural(n: nat, singular: string, plural: string): (r: string)
  {
    if n == 1 then singular else plural
  }

  /** `%'d` followed by the singular or plural remainder of an `ngettext` message. */
  function CountPhrase(n: nat, singular: string, plural: string): (r: string)
    requires |singular| > 0 && !IsDigit(singular[0]) && |plural| > 0 && !IsDigit(plural[0])
    ensures |r| > 0 && IsDigit(r[0])
  {
    Dec(n) + Plural(n, singular, plural)
  }

  /** Two count phrases of one message are equal exactly when their counts are. */
  lemma CountPhraseInjective(m: nat, n: nat, singular: string, plural: string)
    requires |singular| > 0 && !IsDigit(singular[0]) && |plural| > 0 && !IsDigit(plural[0])
    requires CountPhrase(m, singular, plural) == CountPhrase(n, singular, plural)
    ensures m == n
  {
    DigitPrefixUnique(Dec(m), Plural(m, singular, plural), Dec(n), Plural(n, singular, plural));
    DecInjective(m, n);
  }
}
