/** The marks the tenant migrations leave in a column: `processed-duplicate-tenant-of-<value>-<counter>`. */
module TenantMarks {
  import opened LikePatterns

  const MARK_PREFIX := "processed-duplicate-tenant-of-"

  function Digit(n: nat): char
    requires n < 10
  {
    ('0' as int + n) as char
  }

  /** The decimal digits of a counter, as `%d` prints it. */
  function Digits(n: nat): (s: string)
    ensures s != ""
    ensures forall c :: c in s ==> '0' <= c <= '9'
  {
    if n < 10 then [Digit(n)] else Digits(n / 10) + [Digit(n % 10)]
  }

  function Mark(value: string, counter: nat): string {
    MARK_PREFIX + value + "-" + Digits(counter)
  }

  /** The test of the clean-up: `LIKE 'processed-duplicate-tenant-of-%'`. */
  predicate LooksProcessed(value: string) {
    HasPrefixPattern(value, MARK_PREFIX)
  }

  /** What a mark looks like. */
  lemma MarkIs(value: string)
    ensures Mark(value, 1) == "processed-duplicate-tenant-of-" + value + "-1"
    ensures Mark(value, 120) == "processed-duplicate-tenant-of-" + value + "-120"
  {
    assert Digits(1) == "1";
    assert Digits(12) == "12";
    assert Digits(120) == "120";
  }

  /** A decimal numeral: its last digit is the remainder by ten, what is before it the rest. */
  lemma DigitsAre(n: nat)
    ensures Digits(n)[|Digits(n)| - 1] as int == 48 + n % 10
    ensures Digits(n)[..|Digits(n)| - 1] == if n < 10 then "" else Digits(n / 10)
  {
  }

  lemma {:induction false} DigitsInjective(m: nat, n: nat)
    requires Digits(m) == Digits(n)
    ensures m == n
  {
    var s := Digits(m);
    if m < 10 && n < 10 {
      assert s[0] == Digit(m) == Digit(n);
    } else if m >= 10 && n >= 10 {
      assert s[..|s| - 1] == Digits(m / 10) == Digits(n / 10);
      assert s[|s| - 1] == Digit(m % 10) == Digit(n % 10);
      DigitsInjective(m / 10, n / 10);
    }
  }

  lemma NoDashAfter(a: string, d: string)
    requires '-' !in d
    ensures forall i :: |a| < i < |a + "-" + d| ==> (a + "-" + d)[i] != '-'
  {
    forall i | |a| < i < |a + "-" + d| ensures (a + "-" + d)[i] != '-' {
      assert (a + "-" + d)[i] == d[i - |a| - 1];
    }
  }

  /** A text is split in one way at its last dash. */
  lemma SplitAtLastDash(a: string, d: string, b: string, e: string)
    requires '-' !in d && '-' !in e
    requires a + "-" + d == b + "-" + e
    ensures a == b && d == e
  {
    var s := a + "-" + d;
    NoDashAfter(a, d);
    NoDashAfter(b, e);
    assert s[|a|] == '-' && s[|b|] == '-';
    assert s[..|a|] == a && s[..|b|] == b;
    assert s[|a| + 1..] == d && s[|b| + 1..] == e;
  }

  /** Two marks agree only for the same value and the same counter, although values may hold dashes
      and digits themselves. */
  lemma MarkInjective(value: string, counter: nat, otherValue: string, otherCounter: nat)
    requires Mark(value, counter) == Mark(otherValue, otherCounter)
    ensures value == otherValue && counter == otherCounter
  {
    SplitAtLastDash(MARK_PREFIX + value, Digits(counter), MARK_PREFIX + otherValue, Digits(otherCounter));
    assert (MARK_PREFIX + value)[|MARK_PREFIX|..] == value;
    assert (MARK_PREFIX + otherValue)[|MARK_PREFIX|..] == otherValue;
    DigitsInjective(counter, otherCounter);
  }

  /** The clean-up's pattern recognises exactly the values with the mark prefix. */
  lemma PrefixIsPattern(value: string)
    ensures LooksProcessed(value) <==> MARK_PREFIX <= value
  {
    PlainPrefix(MARK_PREFIX, value);
  }

  /** So it recognises every mark. */
  lemma MarksLookProcessed(value: string)
    ensures LooksProcessed(value) <==> MARK_PREFIX <= value
    ensures forall v, n :: value == Mark(v, n) ==> LooksProcessed(value)
  {
    PrefixIsPattern(value);
    forall v, n | value == Mark(v, n) ensures MARK_PREFIX <= value {
      assert Mark(v, n)[..|MARK_PREFIX|] == MARK_PREFIX;
    }
  }
}
