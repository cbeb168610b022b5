/** The lexicographic order of identifiers, as the source's ordered containers use it. */
module Text {
  predicate Less(a: string, b: string) {
    b != [] && (a == [] || a[0] < b[0] || (a[0] == b[0] && Less(a[1..], b[1..])))
  }

  lemma {:induction false} LessIsStrict(a: string, b: string)
    ensures !(Less(a, b) && Less(b, a))
    ensures !Less(a, a)
  {
    if a != [] {
      LessIsStrict(a[1..], a[1..]);
      if b != [] { LessIsStrict(a[1..], b[1..]); }
    }
  }

  lemma {:induction false} LessIsTotal(a: string, b: string)
    ensures a == b || Less(a, b) || Less(b, a)
  {
    if a != [] && b != [] && a[0] == b[0] {
      LessIsTotal(a[1..], b[1..]);
      if a[1..] == b[1..] { assert a == [a[0]] + a[1..] && b == [b[0]] + b[1..]; }
    }
  }

  lemma {:induction false} LessIsTransitive(a: string, b: string, c: string)
    requires Less(a, b) && Less(b, c)
    ensures Less(a, c)
  {
    if a != [] && a[0] == b[0] && b[0] == c[0] { LessIsTransitive(a[1..], b[1..], c[1..]); }
  }

  /** The texts agree before `k`, and there `a` ends first or has the smaller character. */
  predicate SmallerAt(a: string, b: string, k: int) {
    0 <= k <= |a| && k < |b| && a[..k] == b[..k] && (k == |a| || a[k] < b[k])
  }

  /** The order is that of the first difference. */
  lemma {:induction false} LessAtFirstDifference(a: string, b: string)
    ensures Less(a, b) <==> exists k :: SmallerAt(a, b, k)
  {
    if Less(a, b) {
      if a == [] || a[0] < b[0] {
        assert SmallerAt(a, b, 0);
      } else {
        LessAtFirstDifference(a[1..], b[1..]);
        var k :| SmallerAt(a[1..], b[1..], k);
        assert a[..k + 1] == [a[0]] + a[1..][..k] && b[..k + 1] == [b[0]] + b[1..][..k];
        assert SmallerAt(a, b, k + 1);
      }
    } else if exists k :: SmallerAt(a, b, k) {
      var k :| SmallerAt(a, b, k);
      if k > 0 {
        LessAtFirstDifference(a[1..], b[1..]);
        assert a[0] == a[..k][0] == b[..k][0] == b[0];
        assert a[1..][..k - 1] == a[..k][1..] && b[1..][..k - 1] == b[..k][1..];
        assert SmallerAt(a[1..], b[1..], k - 1);
      }
    }
  }
}
