/**
 * The SQL text `build_verb_query` (src/main.rs) builds from a verb mask, and
 * the decoding of that text back into the filter it expresses.
 */
module VerbQuery {
  import opened Wrappers
  import opened Texts
  import opened Masks
  import opened Decoder

  const VerbHead: string := "SELECT ainu, jpan, particle FROM verbs WHERE ("
  const ParticleFilter: string := " AND particle <> ''"
  const RandomOneTail: string := " ORDER BY RANDOM() LIMIT 1"
  const OrSeparator: string := " OR "

  /** What a verb query asks of a row: one of `conds`, and a non-empty particle when `needsParticle`. */
  datatype VerbFilter = VerbFilter(conds: seq<Condition>, needsParticle: bool)

  /** A condition whose two numbers print as single decimal digits. */
  predicate SmallCondition(c: Condition)
  {
    c.trans < 10 && c.plur < 10
  }

  /** The decimal digit for `n`, as `format!("{}", n)` prints it. */
  function Digit(n: nat): (ch: char)
    requires n < 10
    ensures '0' <= ch <= '9'
    ensures ch as int - '0' as int == n
  {
    (n + '0' as int) as char
  }

  /** The text of one disjunct, `format!("trans = {} AND plur = {}", ii, jj)`. */
  function ConditionText(c: Condition): (s: string)
    requires SmallCondition(c)
    ensures |s| == 22
  {
    "trans = " + [Digit(c.trans)] + " AND plur = " + [Digit(c.plur)]
  }

  /**
   * The disjuncts' texts, built as `build_verb_query` pushes them: the first
   * condition's text, then the rest's. There is one text per condition, and
   * every text is 22 characters long, so the joined list can be cut at fixed
   * offsets.
   */
  function ConditionTexts(cs: seq<Condition>): (ts: seq<string>)
    requires forall k :: 0 <= k < |cs| ==> SmallCondition(cs[k])
    ensures |ts| == |cs|
    ensures forall k :: 0 <= k < |ts| ==> |ts[k]| == 22
  {
    if cs == [] then [] else [ConditionText(cs[0])] + ConditionTexts(cs[1..])
  }

  /** `parts.join(sep)`: the parts with `sep` between consecutive ones. */
  function Join(parts: seq<string>, sep: string): string
  {
    if |parts| == 0 then ""
    else if |parts| == 1 then parts[0]
    else parts[0] + sep + Join(parts[1..], sep)
  }

  /** The query text for a condition list and a particle flag. */
  function VerbQueryText(f: VerbFilter): string
    requires forall k :: 0 <= k < |f.conds| ==> SmallCondition(f.conds[k])
  {
    VerbHead + Join(ConditionTexts(f.conds), OrSeparator) + ")"
      + (if f.needsParticle then ParticleFilter else "") + RandomOneTail
  }

  /** The filter `build_verb_query` encodes for `v`. */
  function FilterOf(v: Mask): (f: VerbFilter)
    ensures forall c :: c in f.conds <==> Accepts(v, c)
    ensures f.needsParticle <==> v & 0xC0 != 0
    ensures forall k :: 0 <= k < |f.conds| ==> SmallCondition(f.conds[k])
  {
    NeedsParticleIff(v);
    VerbFilter(Conditions(v), NeedsParticle(v))
  }

  /** `build_verb_query(v)`. */
  function BuildVerbQuery(v: Mask): string
  {
    VerbQueryText(FilterOf(v))
  }

  /** Every verb query starts with the fixed SELECT head and ends with the random one-row tail. */
  lemma VerbQueryFrame(v: Mask)
    ensures var q := BuildVerbQuery(v);
      && |q| >= |VerbHead| + |RandomOneTail|
      && q[..|VerbHead|] == VerbHead
      && q[|q| - |RandomOneTail|..] == RandomOneTail
  {
    BuildVerbQueryDecodes(v);
  }

  function ParseDigit(ch: char): Option<nat>
  {
    if '0' <= ch <= '9' then Some(ch as int - '0' as int) else None
  }

  /** Reads one 22-character disjunct back. */
  function ParseCondition(s: string): Option<Condition>
  {
    if |s| == 22 && s[..8] == "trans = " && s[9..21] == " AND plur = "
       && ParseDigit(s[8]).Some? && ParseDigit(s[21]).Some?
    then Some(Condition(ParseDigit(s[8]).value, ParseDigit(s[21]).value))
    else None
  }

  /** Reads a `" OR "`-joined list of disjuncts back; the empty text is the empty list. */
  function ParseConditionList(s: string): Option<seq<Condition>>
    decreases |s|
  {
    if s == [] then Some([])
    else if |s| < 22 then None
    else match ParseCondition(s[..22])
      case None => None
      case Some(c) =>
        if |s| == 22 then Some([c])
        else if |s| > 26 && s[22..26] == OrSeparator then
          match ParseConditionList(s[26..])
          case None => None
          case Some(rest) => Some([c] + rest)
        else None
  }

  /** Reads a verb query back into the filter it expresses; `None` when the text has another shape. */
  function ParseVerbQuery(q: string): Option<VerbFilter>
  {
    if |q| < |VerbHead| + |RandomOneTail| || q[..|VerbHead|] != VerbHead
       || q[|q| - |RandomOneTail|..] != RandomOneTail
    then None
    else
      var mid := q[|VerbHead|..|q| - |RandomOneTail|];
      var np := |mid| >= |ParticleFilter| && mid[|mid| - |ParticleFilter|..] == ParticleFilter;
      var body := if np then mid[..|mid| - |ParticleFilter|] else mid;
      if |body| == 0 || body[|body| - 1] != ')' then None
      else match ParseConditionList(body[..|body| - 1])
        case None => None
        case Some(cs) => Some(VerbFilter(cs, np))
  }

  lemma ConditionRoundTrip(c: Condition)
    requires SmallCondition(c)
    ensures ParseCondition(ConditionText(c)) == Some(c)
  {
    var s := ConditionText(c);
    assert s[..8] == "trans = " && s[8] == Digit(c.trans);
    assert s[9..21] == " AND plur = " && s[21] == Digit(c.plur);
  }

  /** The joined disjuncts read back as the conditions they were built from. */
  lemma {:induction false} ConditionListRoundTrip(cs: seq<Condition>)
    requires forall k :: 0 <= k < |cs| ==> SmallCondition(cs[k])
    ensures ParseConditionList(Join(ConditionTexts(cs), OrSeparator)) == Some(cs)
    decreases |cs|
  {
    var ts := ConditionTexts(cs);
    if |cs| == 0 {
    } else if |cs| == 1 {
      ConditionRoundTrip(cs[0]);
      assert Join(ts, OrSeparator) == ConditionText(cs[0]);
      assert ConditionText(cs[0])[..22] == ConditionText(cs[0]);
      assert cs == [cs[0]];
    } else {
      var tail := cs[1..];
      assert ConditionTexts(tail) == ts[1..];
      var rest := Join(ts[1..], OrSeparator);
      var s := Join(ts, OrSeparator);
      assert s == ConditionText(cs[0]) + OrSeparator + rest;
      ConditionListRoundTrip(tail);
      ConditionRoundTrip(cs[0]);
      JoinNonEmpty(ts[1..]);
      assert s[..22] == ConditionText(cs[0]);
      assert s[22..26] == OrSeparator;
      assert s[26..] == rest;
      assert cs == [cs[0]] + tail;
    }
  }

  /** A join of at least one disjunct is at least one disjunct long. */
  lemma {:induction false} JoinNonEmpty(ts: seq<string>)
    requires |ts| > 0
    requires forall k :: 0 <= k < |ts| ==> |ts[k]| == 22
    ensures |Join(ts, OrSeparator)| >= 22
  {
  }

  /**
   * Decoding the text of any filter whose numbers are single digits gives the
   * filter back: the query text determines the conditions, their order and the
   * particle flag.
   */
  lemma VerbQueryRoundTrip(f: VerbFilter)
    requires forall k :: 0 <= k < |f.conds| ==> SmallCondition(f.conds[k])
    ensures ParseVerbQuery(VerbQueryText(f)) == Some(f)
  {
    var j := Join(ConditionTexts(f.conds), OrSeparator);
    var p := if f.needsParticle then ParticleFilter else "";
    var mid := j + ")" + p;
    var q := VerbQueryText(f);
    RegroupFrame(VerbHead, j, ")", p, RandomOneTail);
    Framed(VerbHead, mid, RandomOneTail);
    var np := |mid| >= |ParticleFilter| && mid[|mid| - |ParticleFilter|..] == ParticleFilter;
    if f.needsParticle {
      assert mid[|mid| - |ParticleFilter|..] == ParticleFilter;
      assert mid[..|mid| - |ParticleFilter|] == j + ")";
    } else {
      assert mid == j + ")";
      assert mid[|mid| - 1] == ')';
      assert ParticleFilter[|ParticleFilter| - 1] == '\'';
      assert |mid| >= |ParticleFilter| ==>
        mid[|mid| - |ParticleFilter|..][|ParticleFilter| - 1] == mid[|mid| - 1];
    }
    assert np == f.needsParticle;
    var body := if np then mid[..|mid| - |ParticleFilter|] else mid;
    assert body == j + ")";
    assert body[|body| - 1] == ')';
    assert body[..|body| - 1] == j;
    ConditionListRoundTrip(f.conds);
  }

  /**
   * The query for mask `v` decodes to exactly the decoded condition list and to
   * a particle requirement exactly when `v & 0xC0 != 0`.
   */
  lemma BuildVerbQueryDecodes(v: Mask)
    ensures ParseVerbQuery(BuildVerbQuery(v)) == Some(VerbFilter(Conditions(v), v & 0xC0 != 0))
  {
    VerbQueryRoundTrip(FilterOf(v));
  }

  /** The `AND particle <> ''` clause sits before the tail exactly when the mask needs a particle. */
  lemma ParticleClauseIff(v: Mask)
    ensures var q := BuildVerbQuery(v);
      var n := |q| - |RandomOneTail| - |ParticleFilter|;
      (n >= |VerbHead| && q[n..|q| - |RandomOneTail|] == ParticleFilter) <==> v & 0xC0 != 0
  {
    BuildVerbQueryDecodes(v);
  }

  /** Flipping bit 0x08 never changes the query. */
  lemma QueryIgnoresBit3(v: Mask)
    ensures BuildVerbQuery(v ^ 0x08) == BuildVerbQuery(v)
  {
    Bit3Ignored(v);
  }

  /**
   * A mask with no valency bit or no plurality bit 0..2 yields the malformed
   * clause `WHERE ()`, and only such masks do.
   */
  lemma EmptyWhereIff(v: Mask)
    ensures var q := BuildVerbQuery(v);
      (|q| > |VerbHead| && q[..|VerbHead| + 1] == VerbHead + ")") <==> Malformed(v)
  {
    ConditionsEmptyIff(v);
    EmptyWhereText(FilterOf(v));
  }

  /** The text of a filter reads `WHERE ()` exactly when its condition list is empty. */
  lemma EmptyWhereText(f: VerbFilter)
    requires forall k :: 0 <= k < |f.conds| ==> SmallCondition(f.conds[k])
    ensures var q := VerbQueryText(f);
      (|q| > |VerbHead| && q[..|VerbHead| + 1] == VerbHead + ")") <==> f.conds == []
  {
    var ts := ConditionTexts(f.conds);
    var j := Join(ts, OrSeparator);
    var p := if f.needsParticle then ParticleFilter else "";
    var mid := j + ")" + p + RandomOneTail;
    RegroupHead(VerbHead, j, ")", p, RandomOneTail);
    NextCharAfter(VerbHead, mid);
    if f.conds != [] {
      JoinHead(ts);
      assert ts[0][0] == 't';
      assert mid[0] == j[0];
    } else {
      assert j == "";
    }
  }

  /** A join starts with its first part's first character. */
  lemma JoinHead(ts: seq<string>)
    requires |ts| > 0 && |ts[0]| > 0
    ensures |Join(ts, OrSeparator)| > 0 && Join(ts, OrSeparator)[0] == ts[0][0]
  {
  }
}
