/**
 * General facts about strings that the error-message proofs need: one string
 * occurring inside another, cancelling a common prefix and suffix, and cutting
 * at the first occurrence of a character.
 */
module Text {

  /** `s` occurs in `t` as a contiguous piece. */
  ghost predicate Contains(t: string, s: string) {
    exists i, j :: 0 <= i <= j <= |t| && t[i..j] == s
  }

  lemma ContainsMiddle(a: string, s: string, b: string)
    ensures Contains(a + s + b, s)
  {
    assert (a + s + b)[|a|..|a| + |s|] == s;
  }

  /** Each of the values spliced into a message occurs in it. */
  lemma ContainsEachPiece(a: string, x: string, b: string, y: string, c: string, z: string)
    ensures Contains(a + x + b + y + c + z, x)
    ensures Contains(a + x + b + y + c + z, y)
    ensures Contains(a + x + b + y + c + z, z)
  {
    var t := a + x + b + y + c + z;
    assert t == a + x + (b + y + c + z);
    ContainsMiddle(a, x, b + y + c + z);
    assert t == (a + x + b) + y + (c + z);
    ContainsMiddle(a + x + b, y, c + z);
    assert t == (a + x + b + y + c) + z + [];
    ContainsMiddle(a + x + b + y + c, z, []);
  }

  /** Equal texts with the same surroundings have equal middles. */
  lemma CancelAround(pre: string, x: string, y: string, post: string)
    requires pre + x + post == pre + y + post
    ensures x == y
  {
    var t, u := pre + x + post, pre + y + post;
    assert |x| == |y|;
    assert t[|pre|..|pre| + |x|] == x;
    assert u[|pre|..|pre| + |y|] == y;
  }

  lemma DropPrefix(pre: string, x: string, y: string)
    requires pre + x == pre + y
    ensures x == y
  {
    assert (pre + x)[|pre|..] == x;
    assert (pre + y)[|pre|..] == y;
  }

  /** A text that is cut at the first `c` determines both sides of the cut. */
  lemma CutAtFirst(c: char, d1: string, x1: string, d2: string, x2: string)
    requires c !in d1 && c !in d2
    requires d1 + [c] + x1 == d2 + [c] + x2
    ensures d1 == d2 && x1 == x2
  {
    var t1, t2 := d1 + [c] + x1, d2 + [c] + x2;
    assert t1[|d1|] == c && t2[|d2|] == c;
    assert forall i :: 0 <= i < |d1| ==> t1[i] == d1[i];
    assert forall i :: 0 <= i < |d2| ==> t2[i] == d2[i];
    assert |d1| == |d2|;
    assert t1[..|d1|] == d1 && t2[..|d2|] == d2;
    assert t1[|d1| + 1..] == x1 && t2[|d2| + 1..] == x2;
  }

  /** Regroups a message made of a prefix, a delimited middle and a tail. */
  lemma Regroup(a: string, q: char, e: string, b: string, d: string, k: char, s: string, z: string)
    ensures a + ([q] + e + [q]) + b + d + ([k] + s) + z
         == (a + [q]) + (e + [q] + (b + (d + [k] + (s + z))))
  {
  }
}
