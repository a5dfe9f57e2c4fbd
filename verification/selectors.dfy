/**
 * The per-slot selectors `get_verbs` and `get_nouns` (src/main.rs): one
 * `LIMIT 1` query per requirement, each answer appended to row-aligned
 * output vectors, the first query error aborting the call.
 */
module Selectors {
  import opened Wrappers
  import opened Masks
  import opened VerbQuery
  import opened NounQuery
  import opened Lexicon
  import opened Sampling

  /** The three vectors `get_verbs` returns: Ainu forms, Japanese forms, particles. */
  datatype VerbColumns = VerbColumns(ainu: seq<string>, jpan: seq<string>, particles: seq<string>)

  /** The two vectors `get_nouns` returns: Ainu forms, Japanese forms. */
  datatype NounColumns = NounColumns(ainu: seq<string>, jpan: seq<string>)

  /** Splits sampled verb rows into the three output vectors, keeping them row-aligned. */
  function VerbColumnsOf(rows: seq<VerbRow>): (c: VerbColumns)
    ensures |c.ainu| == |rows| && |c.jpan| == |rows| && |c.particles| == |rows|
    ensures forall k :: 0 <= k < |rows| ==>
              c.ainu[k] == rows[k].ainu && c.jpan[k] == rows[k].jpan && c.particles[k] == rows[k].particle
  {
    if rows == [] then VerbColumns([], [], [])
    else
      var c := VerbColumnsOf(rows[..|rows| - 1]);
      var last := rows[|rows| - 1];
      VerbColumns(c.ainu + [last.ainu], c.jpan + [last.jpan], c.particles + [last.particle])
  }

  /** Splits sampled noun rows into the two output vectors, keeping them row-aligned. */
  function NounColumnsOf(rows: seq<NounRow>): (c: NounColumns)
    ensures |c.ainu| == |rows| && |c.jpan| == |rows|
    ensures forall k :: 0 <= k < |rows| ==> c.ainu[k] == rows[k].ainu && c.jpan[k] == rows[k].jpan
  {
    if rows == [] then NounColumns([], [])
    else
      var c := NounColumnsOf(rows[..|rows| - 1]);
      var last := rows[|rows| - 1];
      NounColumns(c.ainu + [last.ainu], c.jpan + [last.jpan])
  }

  /** The store's answer to slot `k`'s verb query, `build_verb_query(v)`, as a function of the mask. */
  function VerbAnswer(ask: VerbOracle): VerbAnswers
  {
    (v: Mask, k: nat) => ask(BuildVerbQuery(v), k)
  }

  /** The store's answer to slot `k`'s noun query for a pattern pair. */
  function NounAnswer(ask: NounOracle): NounAnswers
  {
    (p: NounPattern, k: nat) => ask(NounQueryText(p), k)
  }

  /** The rows `get_verbs` collects for `masks`: one query per mask, in order. */
  function SampleVerbs(ask: VerbOracle, masks: seq<Mask>): Result<seq<VerbRow>, DbError>
  {
    Sample(VerbAnswer(ask), masks)
  }

  /** The rows `get_nouns` collects for the pattern pairs: one query per pair, in order. */
  function SampleNouns(ask: NounOracle, pats: seq<NounPattern>): Result<seq<NounRow>, DbError>
  {
    Sample(NounAnswer(ask), pats)
  }

  /** `get_verbs(conn, verb_types, _)`. */
  method GetVerbs(ask: VerbOracle, verbTypes: seq<Mask>) returns (r: Result<VerbColumns, DbError>)
    ensures r.Failure? <==> SampleVerbs(ask, verbTypes).Failure?
    ensures r.Failure? ==> r.error == SampleVerbs(ask, verbTypes).error
    ensures r.Success? ==> r.value == VerbColumnsOf(SampleVerbs(ask, verbTypes).value)
    ensures r.Success? ==> |r.value.ainu| == |r.value.jpan| == |r.value.particles| <= |verbTypes|
    ensures verbTypes == [] ==> r == Success(VerbColumns([], [], []))
  {
    var ainu: seq<string> := [];
    var jpan: seq<string> := [];
    var particles: seq<string> := [];
    var i := 0;
    while i < |verbTypes|
      invariant 0 <= i <= |verbTypes|
      invariant SampleVerbs(ask, verbTypes[..i]).Success?
      invariant VerbColumns(ainu, jpan, particles) == VerbColumnsOf(SampleVerbs(ask, verbTypes[..i]).value)
    {
      var query := BuildVerbQuery(verbTypes[i]);
      var answer := ask(query, i);
      assert answer == VerbAnswer(ask)(verbTypes[i], i);
      assert verbTypes[..i + 1][..i] == verbTypes[..i];
      if answer.Failure? {
        FailurePersists(VerbAnswer(ask), verbTypes, i + 1);
        return Failure(answer.error);
      }
      ghost var rows := SampleVerbs(ask, verbTypes[..i]).value;
      if answer.value.Some? {
        var row := answer.value.value;
        assert (rows + [row])[..|rows|] == rows;
        ainu := ainu + [row.ainu];
        jpan := jpan + [row.jpan];
        particles := particles + [row.particle];
      }
      i := i + 1;
    }
    assert verbTypes[..i] == verbTypes;
    return Success(VerbColumns(ainu, jpan, particles));
  }

  /** `get_nouns(conn, noun_types, _)`. */
  method GetNouns(ask: NounOracle, nounTypes: seq<NounPattern>) returns (r: Result<NounColumns, DbError>)
    ensures r.Failure? <==> SampleNouns(ask, nounTypes).Failure?
    ensures r.Failure? ==> r.error == SampleNouns(ask, nounTypes).error
    ensures r.Success? ==> r.value == NounColumnsOf(SampleNouns(ask, nounTypes).value)
    ensures r.Success? ==> |r.value.ainu| == |r.value.jpan| <= |nounTypes|
    ensures nounTypes == [] ==> r == Success(NounColumns([], []))
  {
    var ainu: seq<string> := [];
    var jpan: seq<string> := [];
    var i := 0;
    while i < |nounTypes|
      invariant 0 <= i <= |nounTypes|
      invariant SampleNouns(ask, nounTypes[..i]).Success?
      invariant NounColumns(ainu, jpan) == NounColumnsOf(SampleNouns(ask, nounTypes[..i]).value)
    {
      var query := NounQueryText(nounTypes[i]);
      var answer := ask(query, i);
      assert answer == NounAnswer(ask)(nounTypes[i], i);
      assert nounTypes[..i + 1][..i] == nounTypes[..i];
      if answer.Failure? {
        FailurePersists(NounAnswer(ask), nounTypes, i + 1);
        return Failure(answer.error);
      }
      ghost var rows := SampleNouns(ask, nounTypes[..i]).value;
      if answer.value.Some? {
        var row := answer.value.value;
        assert (rows + [row])[..|rows|] == rows;
        ainu := ainu + [row.ainu];
        jpan := jpan + [row.jpan];
      }
      i := i + 1;
    }
    assert nounTypes[..i] == nounTypes;
    return Success(NounColumns(ainu, jpan));
  }

  /** Per-slot answers to verb queries, as a function of the mask. */
  type VerbAnswers = (Mask, nat) -> Result<Option<VerbRow>, DbError>

  /** Per-slot answers to noun queries, as a function of the pattern pair. */
  type NounAnswers = (NounPattern, nat) -> Result<Option<NounRow>, DbError>

  /** Every answer for a mask fits that mask in a store holding `db`. */
  ghost predicate VerbAnswersFit(answer: VerbAnswers, db: Store)
  {
    forall v: Mask, k: nat :: VerbAnswerFits(db, v, answer(v, k))
  }

  /** Every answer for a quote-free pattern pair fits that pair in a store holding `db`. */
  ghost predicate NounAnswersFit(answer: NounAnswers, db: Store, like: (string, string) -> bool)
  {
    forall p: NounPattern, k: nat :: Embeddable(p) ==> NounAnswerFits(db, like, p, answer(p, k))
  }

  /** A store answering the verb queries' text answers each mask as the mask's meaning allows. */
  lemma VerbAnswersOfStore(ask: VerbOracle, db: Store)
    requires AnswersVerbs(ask, db)
    ensures VerbAnswersFit(VerbAnswer(ask), db)
  {
    forall v: Mask, k: nat
      ensures VerbAnswerFits(db, v, VerbAnswer(ask)(v, k))
    {
      assert VerbAnswerFits(db, v, ask(BuildVerbQuery(v), k));
    }
  }

  /** A store answering the noun queries' text answers each quote-free pair as the pair's meaning allows. */
  lemma NounAnswersOfStore(ask: NounOracle, db: Store, like: (string, string) -> bool)
    requires AnswersNouns(ask, db, like)
    ensures NounAnswersFit(NounAnswer(ask), db, like)
  {
    forall p: NounPattern, k: nat | Embeddable(p)
      ensures NounAnswerFits(db, like, p, NounAnswer(ask)(p, k))
    {
      assert NounAnswerFits(db, like, p, ask(NounQueryText(p), k));
    }
  }

  /**
   * What `get_verbs` collects when every answer fits its mask: it fails
   * exactly when some mask decodes to no condition (its query reads
   * `WHERE ()`); otherwise it fills every slot exactly when every mask has a
   * satisfying row in the table, and then row `k` is a table row satisfying
   * mask `k`. `SampleVerbsRows` covers a short result.
   */
  lemma SampleVerbsSlots(answer: VerbAnswers, db: Store, masks: seq<Mask>)
    requires VerbAnswersFit(answer, db)
    ensures Sample(answer, masks).Failure? <==> exists k :: 0 <= k < |masks| && Malformed(masks[k])
    ensures var r := Sample(answer, masks);
      r.Success? ==> (|r.value| == |masks| <==> forall k :: 0 <= k < |masks| ==> VerbAvailable(db, masks[k]))
    ensures var r := Sample(answer, masks);
      r.Success? && |r.value| == |masks| ==>
        forall k :: 0 <= k < |masks| ==> r.value[k] in db.verbs && SatisfiesMask(r.value[k], masks[k])
  {
    var ok := (v: Mask) => true;
    SampleFailsIff(answer, ok, (v: Mask) => Malformed(v), masks);
    if Sample(answer, masks).Success? {
      SampleFull(answer, ok, (v: Mask) => VerbAvailable(db, v), masks);
      if |Sample(answer, masks).value| == |masks| {
        SampleAligned(answer, ok, (v: Mask, row: VerbRow) => row in db.verbs && SatisfiesMask(row, v), masks);
      }
    }
  }

  /**
   * What `get_nouns` collects when every answer fits its quote-free pair: it
   * never fails, it fills every slot exactly when every pair has a matching
   * row, and then row `k` is a table row matching pair `k`. `SampleNounsRows`
   * covers a short result.
   */
  lemma SampleNounsSlots(answer: NounAnswers, db: Store, like: (string, string) -> bool, pats: seq<NounPattern>)
    requires NounAnswersFit(answer, db, like)
    requires forall k :: 0 <= k < |pats| ==> Embeddable(pats[k])
    ensures Sample(answer, pats).Success?
    ensures var rows := Sample(answer, pats).value;
      |rows| == |pats| <==> forall k :: 0 <= k < |pats| ==> NounAvailable(db, like, pats[k])
    ensures var rows := Sample(answer, pats).value;
      |rows| == |pats| ==> forall k :: 0 <= k < |pats| ==> rows[k] in db.nouns && NounRowMatches(like, rows[k], pats[k])
  {
    var ok := (p: NounPattern) => Embeddable(p);
    SampleFailsIff(answer, ok, (p: NounPattern) => false, pats);
    SampleFull(answer, ok, (p: NounPattern) => NounAvailable(db, like, p), pats);
    if |Sample(answer, pats).value| == |pats| {
      SampleAligned(answer, ok, (p: NounPattern, row: NounRow) => row in db.nouns && NounRowMatches(like, row, p), pats);
    }
  }

  /**
   * A short `get_verbs` result still holds only table rows: row `i` came from
   * slot `Slots(answer, masks)[i]` and satisfies that slot's mask, so it has a
   * non-empty particle whenever that mask needs one.
   */
  lemma SampleVerbsRows(answer: VerbAnswers, db: Store, masks: seq<Mask>)
    requires VerbAnswersFit(answer, db)
    ensures var r := Sample(answer, masks);
      r.Success? ==>
        forall i :: 0 <= i < |r.value| ==>
          r.value[i] in db.verbs && SatisfiesMask(r.value[i], masks[Slots(answer, masks)[i]])
  {
    if Sample(answer, masks).Success? {
      var sat := (v: Mask, row: VerbRow) => row in db.verbs && SatisfiesMask(row, v);
      forall v: Mask, k: nat | answer(v, k).Success? && answer(v, k).value.Some?
        ensures sat(v, answer(v, k).value.value)
      {
        assert VerbAnswerFits(db, v, answer(v, k));
      }
      SampleRowsFromSlots(answer, (v: Mask) => true, sat, masks);
    }
  }

  /**
   * A short `get_nouns` result still holds only table rows: row `i` came from
   * slot `Slots(answer, pats)[i]` and matches that slot's pattern pair.
   */
  lemma SampleNounsRows(answer: NounAnswers, db: Store, like: (string, string) -> bool, pats: seq<NounPattern>)
    requires NounAnswersFit(answer, db, like)
    requires forall k :: 0 <= k < |pats| ==> Embeddable(pats[k])
    ensures var r := Sample(answer, pats);
      r.Success? ==>
        forall i :: 0 <= i < |r.value| ==>
          r.value[i] in db.nouns && NounRowMatches(like, r.value[i], pats[Slots(answer, pats)[i]])
  {
    if Sample(answer, pats).Success? {
      SampleRowsFromSlots(answer, (p: NounPattern) => Embeddable(p),
                          (p: NounPattern, row: NounRow) => row in db.nouns && NounRowMatches(like, row, p), pats);
    }
  }

  /**
   * Slots are drawn independently (one `LIMIT 1` query each), so nothing
   * keeps two slots from receiving the same row: with a single candidate in
   * the table, two slots with the same mask both get it.
   */
  lemma RepeatedSlotRepeatsRow(answer: VerbAnswers, db: Store, v: Mask, row: VerbRow)
    requires VerbAnswersFit(answer, db)
    requires db.verbs == [row] && SatisfiesMask(row, v)
    ensures Sample(answer, [v, v]) == Success([row, row])
  {
    assert VerbAvailable(db, v);
    SatisfiedMaskWellFormed(row, v);
    assert VerbAnswerFits(db, v, answer(v, 0)) && VerbAnswerFits(db, v, answer(v, 1));
    assert answer(v, 0) == Success(Some(row)) && answer(v, 1) == Success(Some(row));
    var one := [v];
    assert one[..0] == [] && one[0] == v;
    assert Sample(answer, one[..0]) == Success([]);
    assert [] + [row] == [row];
    assert Sample(answer, one) == Success([row]);
    var two := [v, v];
    assert two[..1] == one && two[1] == v;
    assert Sample(answer, two) == Success([row] + [row]);
    assert [row] + [row] == [row, row];
  }
}
