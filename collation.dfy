/** The order in which names are shown. The sheet compares names with
    `String.prototype.localeCompare`; this model uses the plain lexicographic
    order on character codes, which is a total order as the comparator needs. */
module Collation {

  /** `a` sorts before or together with `b`: a prefix sorts first, and
      otherwise the first differing character decides. */
  predicate NameLe(a: string, b: string)
    ensures a <= b ==> NameLe(a, b)
    ensures |a| > 0 && |b| > 0 && a[0] != b[0] ==> (NameLe(a, b) <==> a[0] < b[0])
    ensures |a| > 0 && |b| == 0 ==> !NameLe(a, b)
  {
    |a| == 0 || (|b| > 0 && (a[0] < b[0] || (a[0] == b[0] && NameLe(a[1..], b[1..]))))
  }

  lemma {:induction false} NameLeReflexive(a: string)
    ensures NameLe(a, a)
  {
    if |a| > 0 {
      NameLeReflexive(a[1..]);
    }
  }

  /** Any two names are comparable. */
  lemma {:induction false} NameLeTotal(a: string, b: string)
    ensures NameLe(a, b) || NameLe(b, a)
  {
    if |a| > 0 && |b| > 0 && a[0] == b[0] {
      NameLeTotal(a[1..], b[1..]);
    }
  }

  lemma {:induction false} NameLeTransitive(a: string, b: string, c: string)
    requires NameLe(a, b) && NameLe(b, c)
    ensures NameLe(a, c)
  {
    if |a| > 0 && a[0] == b[0] && b[0] == c[0] {
      NameLeTransitive(a[1..], b[1..], c[1..]);
    }
  }

  /** Two names that each sort before the other are the same name, so the
      comparator reports a tie only for equal names. */
  lemma {:induction false} NameLeAntisymmetric(a: string, b: string)
    requires NameLe(a, b) && NameLe(b, a)
    ensures a == b
  {
    if |a| > 0 {
      NameLeAntisymmetric(a[1..], b[1..]);
      assert a == [a[0]] + a[1..] && b == [b[0]] + b[1..];
    }
  }
}
