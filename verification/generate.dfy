/**
 * One sentence pair from one template: the body of the driver's inner loop in
 * src/main.rs. The verbs are selected first and the nouns second, each
 * selector's error aborting the run (`?`); then both renderers run on the
 * selected forms, and an index past a selector's output is a panic.
 */
module Driver {
  import opened Wrappers
  import opened Masks
  import opened NounQuery
  import opened Lexicon
  import opened Sampling
  import opened Selectors
  import opened Renderers
  import opened Templates

  /** The tab-separated line's two sentences: Ainu and Japanese. */
  datatype SentencePair = SentencePair(ainu: string, jpan: string)

  /** Why no pair is produced: a selector's query failed, or a renderer indexed past its slices. */
  datatype GenerateError = QueryFailed(db: DbError) | Panicked(panic: Panic)

  /** The pair template `t` yields from the stores' per-slot answers. */
  function Generate(vans: VerbAnswers, nans: NounAnswers, t: Template): Result<SentencePair, GenerateError>
  {
    match Sample(vans, t.verbTypes)
    case Failure(e) => Failure(QueryFailed(e))
    case Success(vrows) =>
      match Sample(nans, NounRequirements(t.nounTypes))
      case Failure(e) => Failure(QueryFailed(e))
      case Success(nrows) =>
        var verbs := VerbColumnsOf(vrows);
        var nouns := NounColumnsOf(nrows);
        match RenderAinu(t, verbs.ainu, nouns.ainu)
        case Failure(p) => Failure(Panicked(p))
        case Success(ainu) =>
          match RenderJpan(t, verbs.jpan, nouns.jpan, verbs.particles)
          case Failure(p) => Failure(Panicked(p))
          case Success(jpan) => Success(SentencePair(ainu, jpan))
  }

  /**
   * The driver's steps for one template: `get_verbs`, `get_nouns`, then the
   * two renderers. The pair it produces is the one `Generate` describes, and
   * a successful pair's sentences are the renderers' outputs on row-aligned
   * selector columns.
   */
  method GeneratePair(vask: VerbOracle, nask: NounOracle, t: Template) returns (r: Result<SentencePair, GenerateError>)
    ensures r == Generate(VerbAnswer(vask), NounAnswer(nask), t)
    ensures r.Failure? && r.error.QueryFailed? <==>
      SampleVerbs(vask, t.verbTypes).Failure? || SampleNouns(nask, NounRequirements(t.nounTypes)).Failure?
  {
    var verbs := GetVerbs(vask, t.verbTypes);
    if verbs.Failure? {
      return Failure(QueryFailed(verbs.error));
    }
    var nouns := GetNouns(nask, NounRequirements(t.nounTypes));
    if nouns.Failure? {
      return Failure(QueryFailed(nouns.error));
    }
    var ainu := RenderAinu(t, verbs.value.ainu, nouns.value.ainu);
    if ainu.Failure? {
      return Failure(Panicked(ainu.error));
    }
    var jpan := RenderJpan(t, verbs.value.jpan, nouns.value.jpan, verbs.value.particles);
    if jpan.Failure? {
      return Failure(Panicked(jpan.error));
    }
    return Success(SentencePair(ainu.value, jpan.value));
  }

  /** Every verb slot's mask has a satisfying row in the table. */
  ghost predicate VerbsAvailable(db: Store, t: Template)
  {
    forall k :: 0 <= k < |t.verbTypes| ==> VerbAvailable(db, t.verbTypes[k])
  }

  /** Every noun slot's pattern pair has a matching row in the table. */
  ghost predicate NounsAvailable(db: Store, like: (string, string) -> bool, t: Template)
  {
    forall k :: 0 <= k < |t.nounTypes| ==> NounAvailable(db, like, NounRequirement(t.nounTypes[k]))
  }

  /**
   * A well-formed template asked of stores answering from `db`: no query
   * fails, and a pair comes out exactly when every slot has a candidate row
   * (otherwise a renderer panics).
   */
  lemma GenerateWellFormed(vans: VerbAnswers, nans: NounAnswers, db: Store, like: (string, string) -> bool, t: Template)
    requires VerbAnswersFit(vans, db) && NounAnswersFit(nans, db, like)
    requires WellFormed(t)
    ensures var r := Generate(vans, nans, t);
      !(r.Failure? && r.error.QueryFailed?)
    ensures Generate(vans, nans, t).Success? <==> VerbsAvailable(db, t) && NounsAvailable(db, like, t)
  {
    var pats := NounRequirements(t.nounTypes);
    SampleVerbsSlots(vans, db, t.verbTypes);
    SampleNounsSlots(nans, db, like, pats);
    assert NounsAvailable(db, like, t) <==> forall k :: 0 <= k < |pats| ==> NounAvailable(db, like, pats[k]);
    GenerateOutcome(vans, nans, t);
    FitsExactly(t, |Sample(vans, t.verbTypes).value|, |Sample(nans, pats).value|);
  }

  /**
   * A pair generated from a well-formed template: slot `k` holds a table row
   * satisfying requirement `k`, every particle the Japanese sentence reads is
   * non-empty, and the sentences are the renderers applied to those rows'
   * forms.
   */
  lemma GeneratedPairFits(vans: VerbAnswers, nans: NounAnswers, db: Store, like: (string, string) -> bool, t: Template)
    requires VerbAnswersFit(vans, db) && NounAnswersFit(nans, db, like)
    requires WellFormed(t)
    requires Generate(vans, nans, t).Success?
    ensures Sample(vans, t.verbTypes).Success? && Sample(nans, NounRequirements(t.nounTypes)).Success?
    ensures var vrows := Sample(vans, t.verbTypes).value;
      var nrows := Sample(nans, NounRequirements(t.nounTypes)).value;
      && |vrows| == |t.verbTypes| && |nrows| == |t.nounTypes|
      && (forall k :: 0 <= k < |vrows| ==> vrows[k] in db.verbs && SatisfiesMask(vrows[k], t.verbTypes[k]))
      && (forall k :: 0 <= k < |nrows| ==>
            nrows[k] in db.nouns && NounRowMatches(like, nrows[k], NounRequirement(t.nounTypes[k])))
      && (forall i :: 0 <= i < |t.jpan| && t.jpan[i].ParticleAt? ==> vrows[t.jpan[i].k].particle != "")
  {
    GeneratedFull(vans, nans, t);
    FullRowsFit(vans, nans, db, like, t);
  }

  /**
   * When both selectors filled every slot of a well-formed template, slot `k`
   * holds a table row satisfying requirement `k`, and every particle the
   * Japanese renderer reads is non-empty.
   */
  lemma FullRowsFit(vans: VerbAnswers, nans: NounAnswers, db: Store, like: (string, string) -> bool, t: Template)
    requires VerbAnswersFit(vans, db) && NounAnswersFit(nans, db, like)
    requires WellFormed(t)
    requires Sample(vans, t.verbTypes).Success? && |Sample(vans, t.verbTypes).value| == |t.verbTypes|
    requires Sample(nans, NounRequirements(t.nounTypes)).Success?
    requires |Sample(nans, NounRequirements(t.nounTypes)).value| == |t.nounTypes|
    ensures var vrows := Sample(vans, t.verbTypes).value;
      var nrows := Sample(nans, NounRequirements(t.nounTypes)).value;
      && (forall k :: 0 <= k < |vrows| ==> vrows[k] in db.verbs && SatisfiesMask(vrows[k], t.verbTypes[k]))
      && (forall k :: 0 <= k < |nrows| ==>
            nrows[k] in db.nouns && NounRowMatches(like, nrows[k], NounRequirement(t.nounTypes[k])))
      && (forall i :: 0 <= i < |t.jpan| && t.jpan[i].ParticleAt? ==> vrows[t.jpan[i].k].particle != "")
  {
    SampleVerbsSlots(vans, db, t.verbTypes);
    SampleNounsSlots(nans, db, like, NounRequirements(t.nounTypes));
    ParticlesRead(t, Sample(vans, t.verbTypes).value);
  }

  /**
   * A pair comes out of a well-formed template only when both selectors
   * succeeded and filled every slot: a short result makes a renderer panic.
   */
  lemma GeneratedFull(vans: VerbAnswers, nans: NounAnswers, t: Template)
    requires WellFormed(t)
    requires Generate(vans, nans, t).Success?
    ensures Sample(vans, t.verbTypes).Success? && Sample(nans, NounRequirements(t.nounTypes)).Success?
    ensures |Sample(vans, t.verbTypes).value| == |t.verbTypes|
    ensures |Sample(nans, NounRequirements(t.nounTypes)).value| == |t.nounTypes|
  {
    GenerateOutcome(vans, nans, t);
    FitsExactly(t, |Sample(vans, t.verbTypes).value|, |Sample(nans, NounRequirements(t.nounTypes)).value|);
  }

  /** How `Generate` combines the selectors' rows with the renderers. */
  lemma GenerateOutcome(vans: VerbAnswers, nans: NounAnswers, t: Template)
    ensures var r := Generate(vans, nans, t);
      var vs := Sample(vans, t.verbTypes);
      var ns := Sample(nans, NounRequirements(t.nounTypes));
      && (r.Failure? && r.error.QueryFailed? <==> vs.Failure? || ns.Failure?)
      && (vs.Success? && ns.Success? ==>
            (r.Success? <==> AllFit(t.ainu, |vs.value|, |ns.value|, 0) && AllFit(t.jpan, |vs.value|, |ns.value|, |vs.value|)))
      && (r.Success? ==>
            r.value == SentencePair(RenderAinu(t, VerbColumnsOf(vs.value).ainu, NounColumnsOf(ns.value).ainu).value,
                                    RenderJpan(t, VerbColumnsOf(vs.value).jpan, NounColumnsOf(ns.value).jpan,
                                               VerbColumnsOf(vs.value).particles).value))
  {
  }

  /**
   * With no more rows than slots, a well-formed template's renderers succeed
   * exactly when every slot got its row.
   */
  lemma FitsExactly(t: Template, nv: nat, nn: nat)
    requires WellFormed(t)
    requires nv <= |t.verbTypes| && nn <= |t.nounTypes|
    ensures AllFit(t.ainu, nv, nn, 0) && AllFit(t.jpan, nv, nn, nv) <==> nv == |t.verbTypes| && nn == |t.nounTypes|
  {
    if nv < |t.verbTypes| {
      var i :| 0 <= i < |t.ainu| && t.ainu[i] == VerbAt(|t.verbTypes| - 1);
      assert !Fits(t.ainu[i], nv, nn, 0);
    } else if nn < |t.nounTypes| {
      var i :| 0 <= i < |t.ainu| && t.ainu[i] == NounAt(|t.nounTypes| - 1);
      assert !Fits(t.ainu[i], nv, nn, 0);
    }
  }

  /** When every slot of a well-formed template holds a row satisfying its mask, every particle read is non-empty. */
  lemma ParticlesRead(t: Template, vrows: seq<VerbRow>)
    requires WellFormed(t)
    requires |vrows| == |t.verbTypes|
    requires forall k :: 0 <= k < |vrows| ==> SatisfiesMask(vrows[k], t.verbTypes[k])
    ensures forall i :: 0 <= i < |t.jpan| && t.jpan[i].ParticleAt? ==> vrows[t.jpan[i].k].particle != ""
  {
    forall i | 0 <= i < |t.jpan| && t.jpan[i].ParticleAt?
      ensures vrows[t.jpan[i].k].particle != ""
    {
      assert SatisfiesMask(vrows[t.jpan[i].k], t.verbTypes[t.jpan[i].k]);
    }
  }

  /**
   * Every catalog template, asked of stores answering from `db`: no query
   * fails, and a pair comes out exactly when every slot has a candidate row.
   */
  lemma CatalogGenerates(vans: VerbAnswers, nans: NounAnswers, db: Store, like: (string, string) -> bool, i: nat)
    requires VerbAnswersFit(vans, db) && NounAnswersFit(nans, db, like)
    requires i < |Catalog()|
    ensures var r := Generate(vans, nans, Catalog()[i]);
      !(r.Failure? && r.error.QueryFailed?)
    ensures Generate(vans, nans, Catalog()[i]).Success?
        <==> VerbsAvailable(db, Catalog()[i]) && NounsAvailable(db, like, Catalog()[i])
  {
    CatalogWellFormed(i);
    GenerateWellFormed(vans, nans, db, like, Catalog()[i]);
  }
}
