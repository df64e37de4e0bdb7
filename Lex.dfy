/**
 * The order of Java's `String.compareTo`, which is the order a
 * `TreeMap<String, _>` keeps its keys in: the first differing character
 * decides, and a proper prefix comes first.
 */
module Lex {
  import opened Numerals

  function LexLess(a: string, b: string): bool
  {
    if |a| == 0 then |b| > 0
    else if |b| == 0 then false
    else if a[0] != b[0] then a[0] < b[0]
    else LexLess(a[1..], b[1..])
  }

  lemma {:induction false} Irreflexive(a: string)
    ensures !LexLess(a, a)
  {
    if |a| > 0 { Irreflexive(a[1..]); }
  }

  lemma {:induction false} Transitive(a: string, b: string, c: string)
    requires LexLess(a, b) && LexLess(b, c)
    ensures LexLess(a, c)
  {
    if |a| > 0 && a[0] == b[0] && b[0] == c[0] {
      Transitive(a[1..], b[1..], c[1..]);
    }
  }

  lemma Asymmetric(a: string, b: string)
    requires LexLess(a, b)
    ensures !LexLess(b, a)
  {
    if LexLess(b, a) {
      Transitive(a, b, a);
      Irreflexive(a);
    }
  }

  lemma {:induction false} Total(a: string, b: string)
    requires a != b
    ensures LexLess(a, b) || LexLess(b, a)
  {
    if |a| > 0 && |b| > 0 && a[0] == b[0] {
      assert a == [a[0]] + a[1..] && b == [b[0]] + b[1..];
      Total(a[1..], b[1..]);
    }
  }

  /** Comparing two equally long strings extended by one character each. */
  lemma {:induction false} AppendChar(p: string, q: string, d: char, e: char)
    requires |p| == |q|
    ensures LexLess(p + [d], q + [e]) == (LexLess(p, q) || (p == q && d < e))
  {
    if |p| > 0 {
      assert (p + [d])[1..] == p[1..] + [d];
      assert (q + [e])[1..] == q[1..] + [e];
      if p[0] == q[0] {
        AppendChar(p[1..], q[1..], d, e);
        assert p == [p[0]] + p[1..] && q == [q[0]] + q[1..];
      }
    }
  }

  /**
   * On digit strings of one width, the string order is the numeric order.
   * This is what makes a TreeMap of time strings ordered by time.
   */
  lemma {:induction false} EqualWidthIsNumeric(a: string, b: string)
    requires |a| == |b| && AllDigits(a) && AllDigits(b)
    ensures LexLess(a, b) <==> Value(a) < Value(b)
    decreases |a|
  {
    if |a| > 0 {
      var n := |a| - 1;
      var p, q := a[..n], b[..n];
      assert a == p + [a[n]] && b == q + [b[n]];
      AppendChar(p, q, a[n], b[n]);
      EqualWidthIsNumeric(p, q);
      EqualWidthIsNumeric(q, p);
      if p != q { Total(p, q); }
    }
  }
}
