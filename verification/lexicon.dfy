/**
 * The lexicon store the selectors query. The store is an external engine; this
 * module gives it just enough meaning to state what the core's queries select:
 * it reads the query text back, keeps the rows that satisfy it, and picks one
 * of them by a random draw (`ORDER BY RANDOM() LIMIT 1`).
 */
module Lexicon {
  import opened Wrappers
  import opened Masks
  import opened Decoder
  import opened VerbQuery
  import opened NounQuery

  /** A row of the `verbs` table: the two forms, the particle, the valency and plurality classes. */
  datatype VerbRow = VerbRow(ainu: string, jpan: string, particle: string, trans: nat, plur: nat)

  /** A row of the `nouns` table: the two forms and the two category tags. */
  datatype NounRow = NounRow(ainu: string, jpan: string, cat1: string, cat2: string)

  datatype Store = Store(verbs: seq<VerbRow>, nouns: seq<NounRow>)

  /** A query the store cannot prepare; `?` makes it fatal for the whole run. */
  datatype DbError = MalformedQuery

  /** The row satisfies a decoded verb filter. */
  predicate VerbRowMatches(row: VerbRow, f: VerbFilter)
  {
    Condition(row.trans, row.plur) in f.conds && (f.needsParticle ==> row.particle != "")
  }

  /** The row satisfies the requirement mask `v`. */
  predicate SatisfiesMask(row: VerbRow, v: Mask)
  {
    Accepts(v, Condition(row.trans, row.plur)) && (NeedsParticle(v) ==> row.particle != "")
  }

  /** The rows of `rows` that satisfy `f`, in table order. */
  function MatchingVerbs(rows: seq<VerbRow>, f: VerbFilter): (r: seq<VerbRow>)
    ensures forall row :: row in r <==> row in rows && VerbRowMatches(row, f)
  {
    if rows == [] then []
    else
      var rest := MatchingVerbs(rows[1..], f);
      assert forall row :: row in rows <==> row == rows[0] || row in rows[1..];
      if VerbRowMatches(rows[0], f) then [rows[0]] + rest else rest
  }

  /**
   * Runs one verb query: a text that is not a verb query, or one whose
   * condition list is empty (`WHERE ()`), cannot be prepared; otherwise the
   * answer is one matching row chosen by `draw`, or no row.
   */
  function RunVerbQuery(db: Store, q: string, draw: nat): Result<Option<VerbRow>, DbError>
  {
    match ParseVerbQuery(q)
    case None => Failure(MalformedQuery)
    case Some(f) =>
      if f.conds == [] then Failure(MalformedQuery)
      else
        var ms := MatchingVerbs(db.verbs, f);
        if ms == [] then Success(None) else Success(Some(ms[draw % |ms|]))
  }

  /** Some row of the table satisfies mask `v`. */
  ghost predicate VerbAvailable(db: Store, v: Mask)
  {
    exists row :: row in db.verbs && SatisfiesMask(row, v)
  }

  /** A mask some row satisfies decodes to at least one condition. */
  lemma SatisfiedMaskWellFormed(row: VerbRow, v: Mask)
    requires SatisfiesMask(row, v)
    ensures !Malformed(v)
  {
    ConditionsEmptyIff(v);
    assert Condition(row.trans, row.plur) in Conditions(v);
  }

  /**
   * What a store holding `db` may answer to the query built for mask `v`: an
   * error exactly when `v` decodes to no condition, otherwise a row of the
   * table satisfying `v`, or no row only when the table has none.
   */
  ghost predicate VerbAnswerFits(db: Store, v: Mask, a: Result<Option<VerbRow>, DbError>)
  {
    && (a.Failure? <==> Malformed(v))
    && (a.Success? && a.value.Some? ==> a.value.value in db.verbs && SatisfiesMask(a.value.value, v))
    && (a.Success? && a.value.None? ==> !VerbAvailable(db, v))
  }

  /**
   * The store's answer to the query built for mask `v` is one of the answers
   * the mask's meaning allows.
   */
  lemma VerbQuerySelects(db: Store, v: Mask, draw: nat)
    ensures VerbAnswerFits(db, v, RunVerbQuery(db, BuildVerbQuery(v), draw))
  {
    BuildVerbQueryDecodes(v);
    ConditionsEmptyIff(v);
    NeedsParticleIff(v);
    var f := VerbFilter(Conditions(v), v & 0xC0 != 0);
    assert forall row :: VerbRowMatches(row, f) <==> SatisfiesMask(row, v);
    var ms := MatchingVerbs(db.verbs, f);
    if ms != [] {
      assert ms[draw % |ms|] in ms;
    }
  }

  /** The store as the selectors see it: query text and slot number in, one answer out. */
  type VerbOracle = (string, nat) -> Result<Option<VerbRow>, DbError>

  /** Every answer the oracle gives to a query built from a mask fits that mask. */
  ghost predicate AnswersVerbs(ask: VerbOracle, db: Store)
  {
    forall v: Mask, d: nat :: VerbAnswerFits(db, v, ask(BuildVerbQuery(v), d))
  }

  /** The store holding `db`, drawing `draw(k)` for the query of slot `k`. */
  function VerbStore(db: Store, draw: nat -> nat): VerbOracle
  {
    (q: string, k: nat) => RunVerbQuery(db, q, draw(k))
  }

  lemma VerbStoreAnswers(db: Store, draw: nat -> nat)
    ensures AnswersVerbs(VerbStore(db, draw), db)
  {
    forall v: Mask, d: nat
      ensures VerbAnswerFits(db, v, VerbStore(db, draw)(BuildVerbQuery(v), d))
    {
      VerbQuerySelects(db, v, draw(d));
    }
  }

  /** The row's category tags satisfy the pattern pair under the store's `LIKE`. */
  predicate NounRowMatches(like: (string, string) -> bool, row: NounRow, p: NounPattern)
  {
    like(row.cat1, p.cat1) || like(row.cat2, p.cat2)
  }

  /** The rows of `rows` that satisfy `p`, in table order. */
  function MatchingNouns(rows: seq<NounRow>, like: (string, string) -> bool, p: NounPattern): (r: seq<NounRow>)
    ensures forall row :: row in r <==> row in rows && NounRowMatches(like, row, p)
  {
    if rows == [] then []
    else
      var rest := MatchingNouns(rows[1..], like, p);
      assert forall row :: row in rows <==> row == rows[0] || row in rows[1..];
      if NounRowMatches(like, rows[0], p) then [rows[0]] + rest else rest
  }

  /** Runs one noun query; `like` is the store's pattern-matching operator, left abstract. */
  function RunNounQuery(db: Store, like: (string, string) -> bool, q: string, draw: nat): Result<Option<NounRow>, DbError>
  {
    match ParseNounQuery(q)
    case None => Failure(MalformedQuery)
    case Some(p) =>
      var ms := MatchingNouns(db.nouns, like, p);
      if ms == [] then Success(None) else Success(Some(ms[draw % |ms|]))
  }

  /** Some row of the table matches pattern pair `p`. */
  ghost predicate NounAvailable(db: Store, like: (string, string) -> bool, p: NounPattern)
  {
    exists row :: row in db.nouns && NounRowMatches(like, row, p)
  }

  /**
   * What a store holding `db` may answer to the query built for pattern pair
   * `p`: never an error, a row of the table matching `p`, or no row only when
   * the table has none.
   */
  ghost predicate NounAnswerFits(db: Store, like: (string, string) -> bool, p: NounPattern,
                                 a: Result<Option<NounRow>, DbError>)
  {
    && a.Success?
    && (a.value.Some? ==> a.value.value in db.nouns && NounRowMatches(like, a.value.value, p))
    && (a.value.None? ==> !NounAvailable(db, like, p))
  }

  /** The store's answer to the query built for a quote-free pattern pair fits the pair. */
  lemma NounQuerySelects(db: Store, like: (string, string) -> bool, p: NounPattern, draw: nat)
    requires Embeddable(p)
    ensures NounAnswerFits(db, like, p, RunNounQuery(db, like, NounQueryText(p), draw))
  {
    NounQueryRoundTrip(p);
    var ms := MatchingNouns(db.nouns, like, p);
    if ms != [] {
      assert ms[draw % |ms|] in ms;
    }
  }

  type NounOracle = (string, nat) -> Result<Option<NounRow>, DbError>

  /** Every answer the oracle gives to a query built from a quote-free pattern pair fits that pair. */
  ghost predicate AnswersNouns(ask: NounOracle, db: Store, like: (string, string) -> bool)
  {
    forall p: NounPattern, d: nat :: Embeddable(p) ==> NounAnswerFits(db, like, p, ask(NounQueryText(p), d))
  }

  /** The store holding `db`, matching with `like` and drawing `draw(k)` for the query of slot `k`. */
  function NounStore(db: Store, like: (string, string) -> bool, draw: nat -> nat): NounOracle
  {
    (q: string, k: nat) => RunNounQuery(db, like, q, draw(k))
  }

  lemma NounStoreAnswers(db: Store, like: (string, string) -> bool, draw: nat -> nat)
    ensures AnswersNouns(NounStore(db, like, draw), db, like)
  {
    forall p: NounPattern, d: nat | Embeddable(p)
      ensures NounAnswerFits(db, like, p, NounStore(db, like, draw)(NounQueryText(p), d))
    {
      NounQuerySelects(db, like, p, draw(d));
    }
  }
}
