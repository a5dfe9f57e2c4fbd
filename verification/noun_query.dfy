/**
 * The SQL text `get_nouns` (src/main.rs) builds for one noun requirement, and
 * the decoding of that text back into the two category patterns it embeds.
 */
module NounQuery {
  import opened Wrappers
  import opened Texts

  /** A noun requirement: the pattern for the first and for the second category column. */
  datatype NounPattern = NounPattern(cat1: string, cat2: string)

  const NounHead: string := "SELECT ainu, jpan FROM nouns WHERE cat1 LIKE '"
  const NounSeparator: string := "' OR cat2 LIKE '"
  const NounTail: string := "' ORDER BY RANDOM() LIMIT 1"

  /** The text holds no single quote, so it cannot end the SQL string literal it is pasted into. */
  predicate Unquoted(s: string)
  {
    '\'' !in s
  }

  /** Both patterns can be embedded in a quoted SQL literal unchanged. */
  predicate Embeddable(p: NounPattern)
  {
    Unquoted(p.cat1) && Unquoted(p.cat2)
  }

  /** The query `get_nouns` issues for one requirement: the two patterns pasted in order. */
  function NounQueryText(p: NounPattern): string
  {
    NounHead + p.cat1 + NounSeparator + p.cat2 + NounTail
  }

  /** The position of the first single quote in `s`, or `|s|` when there is none. */
  function QuoteIndex(s: string): (i: nat)
    ensures i <= |s|
    ensures Unquoted(s[..i])
    ensures i < |s| ==> s[i] == '\''
  {
    if s == [] then 0
    else if s[0] == '\'' then 0
    else
      var i := 1 + QuoteIndex(s[1..]);
      assert s[..i] == [s[0]] + s[1..][..i - 1];
      i
  }

  /** Reads a noun query back into its two patterns; `None` when the text has another shape. */
  function ParseNounQuery(q: string): Option<NounPattern>
  {
    if |q| < |NounHead| + |NounTail| || q[..|NounHead|] != NounHead
       || q[|q| - |NounTail|..] != NounTail
    then None
    else
      var mid := q[|NounHead|..|q| - |NounTail|];
      var i := QuoteIndex(mid);
      if i + |NounSeparator| <= |mid| && mid[i..i + |NounSeparator|] == NounSeparator
         && Unquoted(mid[i + |NounSeparator|..])
      then Some(NounPattern(mid[..i], mid[i + |NounSeparator|..]))
      else None
  }

  /**
   * A query decodes to exactly the patterns it was built from, in order (the
   * first matched against `cat1`, the second against `cat2`), if and only if
   * neither pattern holds a single quote.
   */
  lemma NounQueryRoundTrip(p: NounPattern)
    ensures ParseNounQuery(NounQueryText(p)) == Some(p) <==> Embeddable(p)
  {
    if Embeddable(p) {
      var mid := p.cat1 + NounSeparator + p.cat2;
      var q := NounQueryText(p);
      assert q == NounHead + mid + NounTail;
      Framed(NounHead, mid, NounTail);
      QuoteIndexAfter(p.cat1, NounSeparator + p.cat2);
      assert mid == p.cat1 + (NounSeparator + p.cat2);
      var n := |p.cat1|;
      assert mid[n..n + |NounSeparator|] == NounSeparator;
      assert mid[..n] == p.cat1;
      assert mid[n + |NounSeparator|..] == p.cat2;
    }
  }

  /** The first quote of a quote-free text followed by a quote is the one just after it. */
  lemma {:induction false} QuoteIndexAfter(a: string, b: string)
    requires Unquoted(a) && |b| > 0 && b[0] == '\''
    ensures QuoteIndex(a + b) == |a|
    decreases |a|
  {
    if a == [] {
      assert a + b == b;
    } else {
      assert (a + b)[1..] == a[1..] + b;
      QuoteIndexAfter(a[1..], b);
    }
  }
}
