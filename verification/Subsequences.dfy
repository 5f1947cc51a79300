/** Subsequences: what is left of a sequence after some elements have been taken out. */
module Subsequences {

  ghost predicate Subseq<T>(a: seq<T>, b: seq<T>)
    decreases |b|
  {
    if a == [] then true
    else if b == [] then false
    else
      || (a[|a| - 1] == b[|b| - 1] && Subseq(a[..|a| - 1], b[..|b| - 1]))
      || Subseq(a, b[..|b| - 1])
  }

  lemma {:induction false} SubseqAppend<T>(a: seq<T>, b: seq<T>, x: T)
    requires Subseq(a, b)
    ensures Subseq(a + [x], b + [x]) && Subseq(a, b + [x])
  {
    assert (a + [x])[..|a|] == a && (b + [x])[..|b|] == b;
  }

  lemma {:induction false} SubseqRefl<T>(a: seq<T>)
    ensures Subseq(a, a)
    decreases |a|
  {
    if a != [] {
      SubseqRefl(a[..|a| - 1]);
    }
  }

  lemma {:induction false} SubseqTrans<T>(a: seq<T>, b: seq<T>, c: seq<T>)
    requires Subseq(a, b) && Subseq(b, c)
    ensures Subseq(a, c)
    decreases |c|
  {
    if a != [] {
      var c' := c[..|c| - 1];
      if b[|b| - 1] == c[|c| - 1] && Subseq(b[..|b| - 1], c') {
        if a[|a| - 1] == b[|b| - 1] && Subseq(a[..|a| - 1], b[..|b| - 1]) {
          SubseqTrans(a[..|a| - 1], b[..|b| - 1], c');
        } else {
          SubseqTrans(a, b[..|b| - 1], c');
        }
      } else {
        SubseqTrans(a, b, c');
      }
    }
  }

  /** Taking elements out of the right part only. */
  lemma {:induction false} SubseqPrepend<T>(x: seq<T>, a: seq<T>, b: seq<T>)
    requires Subseq(a, b)
    ensures Subseq(x + a, x + b)
    decreases |b|
  {
    if b == [] {
      assert x + a == x && x + b == x;
      SubseqRefl(x);
    } else {
      var b' := b[..|b| - 1];
      assert (x + b)[..|x + b| - 1] == x + b';
      if a != [] && a[|a| - 1] == b[|b| - 1] && Subseq(a[..|a| - 1], b') {
        assert (x + a)[..|x + a| - 1] == x + a[..|a| - 1];
        SubseqPrepend(x, a[..|a| - 1], b');
      } else {
        SubseqPrepend(x, a, b');
      }
    }
  }

  lemma {:induction false} SuffixIsSubseq<T>(a: seq<T>, k: nat)
    requires k <= |a|
    ensures Subseq(a[k..], a)
    decreases |a| - k
  {
    if k < |a| {
      var a' := a[..|a| - 1];
      SuffixIsSubseq(a', k);
      assert a[k..][..|a[k..]| - 1] == a'[k..];
    }
  }

  lemma {:induction false} SubseqConcat<T>(a: seq<T>, b: seq<T>, x: seq<T>)
    requires Subseq(a, b)
    ensures Subseq(a + x, b + x)
    decreases |x|
  {
    if x == [] {
      assert a + x == a && b + x == b;
    } else {
      var y, last := x[..|x| - 1], x[|x| - 1];
      SubseqConcat(a, b, y);
      SubseqAppend(a + y, b + y, last);
      LastApart(a, x, y, last);
      LastApart(b, x, y, last);
    }
  }

  lemma {:induction false} LastApart<T>(a: seq<T>, x: seq<T>, y: seq<T>, last: T)
    requires x != [] && y == x[..|x| - 1] && last == x[|x| - 1]
    ensures a + x == a + y + [last]
  {
  }
}
