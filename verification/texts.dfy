/**
 * Facts about texts built by concatenation, stated for arbitrary parts so
 * that the query modules can use them without unfolding their long SQL
 * literals.
 */
module Texts {

  /** The middle of a text built as head, middle and tail is recovered by cutting both ends off. */
  lemma Framed(head: string, mid: string, tail: string)
    ensures var q := head + mid + tail;
      && |q| == |head| + |mid| + |tail|
      && q[..|head|] == head
      && q[|q| - |tail|..] == tail
      && q[|head|..|q| - |tail|] == mid
  {
  }

  /** Concatenation regrouped so that the head stands alone. */
  lemma RegroupHead(a: string, b: string, c: string, d: string, e: string)
    ensures a + b + c + d + e == a + (b + c + d + e)
  {
  }

  /** Concatenation regrouped so that the head and the tail stand alone. */
  lemma RegroupFrame(a: string, b: string, c: string, d: string, e: string)
    ensures a + b + c + d + e == a + (b + c + d) + e
  {
  }

  /** Whether a text continues its head with `)` is decided by the first character after the head. */
  lemma NextCharAfter(head: string, mid: string)
    requires |mid| > 0
    ensures var s := head + mid;
      |s| > |head| && (s[..|head| + 1] == head + ")" <==> mid[0] == ')')
  {
    var s := head + mid;
    assert s[..|head| + 1] == head + [mid[0]];
    assert (head + [mid[0]])[|head|] == mid[0] && (head + ")")[|head|] == ')';
  }
}
