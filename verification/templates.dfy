/**
 * The sentence-template catalog of src/templates.rs: for each template, the
 * verb requirement bytes, the noun category entries, and the Ainu and
 * Japanese renderers.
 */
module Templates {
  import opened Wrappers
  import opened Masks
  import opened Decoder
  import opened NounQuery
  import opened Renderers

  /**
   * A `SentenceTemplate`. The Ainu renderer receives the Ainu verb and noun
   * forms; the Japanese one receives the Japanese forms and the particles.
   */
  datatype Template = Template(verbTypes: seq<Mask>, nounTypes: seq<string>, ainu: seq<Piece>, jpan: seq<Piece>)

  /**
   * `string_vec!`: one `String::from` per argument, pushed in order onto a
   * fresh vector. A Dafny string is already a value, so `String::from` is the
   * identity.
   */
  method StringVec(args: seq<string>) returns (v: seq<string>)
    ensures |v| == |args|
    ensures forall k :: 0 <= k < |args| ==> v[k] == args[k]
  {
    v := [];
    var i := 0;
    while i < |args|
      invariant 0 <= i <= |args|
      invariant v == args[..i]
    {
      v := v + [args[i]];
      i := i + 1;
    }
  }

  /** The noun requirement a catalog entry stands for: the same pattern for both category columns. */
  function NounRequirement(entry: string): NounPattern
  {
    NounPattern(entry, entry)
  }

  /**
   * The noun requirements of a template's entries, built the way `get_nouns`
   * walks them: the requirement of the first entry, then those of the rest.
   * Slot `k` asks for the requirement of entry `k`.
   */
  function NounRequirements(entries: seq<string>): (ps: seq<NounPattern>)
    ensures |ps| == |entries|
    ensures forall k :: 0 <= k < |entries| ==> ps[k] == NounRequirement(entries[k])
  {
    if entries == [] then [] else [NounRequirement(entries[0])] + NounRequirements(entries[1..])
  }

  /** `generate_ainu(verbs, nouns)`: the Ainu renderer has no particle slice. */
  function RenderAinu(t: Template, verbs: seq<string>, nouns: seq<string>): (r: Result<string, Panic>)
    ensures r.Success? <==> AllFit(t.ainu, |verbs|, |nouns|, 0)
  {
    Render(t.ainu, verbs, nouns, [])
  }

  /** `generate_jpan(verbs, nouns, particles)`. */
  function RenderJpan(t: Template, verbs: seq<string>, nouns: seq<string>, particles: seq<string>): (r: Result<string, Panic>)
    ensures r.Success? <==> AllFit(t.jpan, |verbs|, |nouns|, |particles|)
  {
    Render(t.jpan, verbs, nouns, particles)
  }

  // Each template's `noun_types` is written `string_vec!["*"]` or
  // `string_vec!["*", "*"]`. By `StringVec`'s contract that vector is its
  // argument list, so the templates below hold the literals `["*"]` and
  // `["*", "*"]` directly.

  // The requirement bytes the catalog uses.
  const TransitiveEitherSingular: Mask := Transitive | EitherNumber | SingularOnly
  const TransitiveAny: Mask := Transitive | EitherNumber | SingularOnly | PluralOnly
  const IntransitiveAny: Mask := Intransitive | EitherNumber | SingularOnly | PluralOnly

  /** Template 1 (src/templates.rs:36-41). */
  function Template1(): Template
  {
    Template([TransitiveEitherSingular], ["*"],
      [NounAt(0), Text(" ku= "), VerbAt(0), Text(".")],
      [Text("私が"), NounAt(0), ParticleAt(0), VerbAt(0), Text("。")])
  }

  /** Template 2 (src/templates.rs:42-47). */
  function Template2(): Template
  {
    Template([TransitiveEitherSingular], ["*", "*"],
      [NounAt(0), Text(" "), NounAt(1), Text(" "), VerbAt(0), Text(".")],
      [NounAt(0), Text("が"), NounAt(1), ParticleAt(0), VerbAt(0), Text("。")])
  }

  /** Template 3 (src/templates.rs:48-53). */
  function Template3(): Template
  {
    Template([TransitiveAny], ["*", "*"],
      [NounAt(0), Text(" anak "), NounAt(1), Text(" "), VerbAt(0), Text(" ruwe ne.")],
      [NounAt(0), Text("は"), NounAt(1), ParticleAt(0), VerbAt(0), Text("んだよ。")])
  }

  /** Template 4 (src/templates.rs:54-59). */
  function Template4(): Template
  {
    Template([TransitiveAny], ["*", "*"],
      [NounAt(0), Text(" anak "), NounAt(1), Text(" somo "), VerbAt(0), Text(" ya?")],
      [NounAt(0), Text("は"), NounAt(1), ParticleAt(0), VerbAt(0), Text("んじゃないの？")])
  }

  /** Template 5 (src/templates.rs:60-65). */
  function Template5(): Template
  {
    Template([IntransitiveAny], ["*"],
      [NounAt(0), Text(" anak "), VerbAt(0), Text(" ya?")],
      [NounAt(0), Text("は"), VerbAt(0), Text("の？")])
  }

  /** Template 6 (src/templates.rs:66-71). */
  function Template6(): Template
  {
    Template([IntransitiveAny], ["*"],
      [NounAt(0), Text(" anak somo "), VerbAt(0), Text(" ya?")],
      [NounAt(0), Text("は"), VerbAt(0), Text("んじゃないの？")])
  }

  /** Template 7 (src/templates.rs:72-77). */
  function Template7(): Template
  {
    Template([], ["*", "*"],
      [NounAt(0), Text(" anak "), NounAt(1), Text(" ne ya?")],
      [NounAt(0), Text("は"), NounAt(1), Text("なの？")])
  }

  /** Template 8 (src/templates.rs:78-83). */
  function Template8(): Template
  {
    Template([TransitiveAny], ["*", "*"],
      [NounAt(0), Text(" anak "), NounAt(1), Text(" "), VerbAt(0), Text(" ya?")],
      [NounAt(0), Text("は"), NounAt(1), ParticleAt(0), VerbAt(0), Text("の？")])
  }

  /** Template 9 (src/templates.rs:84-89). */
  function Template9(): Template
  {
    Template([], ["*"],
      [Text("toanpe "), NounAt(0), Text(" ne wa.")],
      [Text("あれは"), NounAt(0), Text("だよ。")])
  }

  /** Template 10 (src/templates.rs:90-95). */
  function Template10(): Template
  {
    Template([TransitiveAny], ["*", "*"],
      [NounAt(0), Text(" anak "), NounAt(1), Text(" "), VerbAt(0), Text(" ya?")],
      [NounAt(0), Text("は"), NounAt(1), ParticleAt(0), VerbAt(0), Text("の？")])
  }

  /** Template 11 (src/templates.rs:96-104). */
  function Template11(): Template
  {
    Template([IntransitiveAny, TransitiveAny], ["*", "*"],
      [Text("toanta "), VerbAt(0), Text(" "), NounAt(0), Text(" "), NounAt(1), Text(" "), VerbAt(1), Text(" ya?")],
      [Text("あそこで"), VerbAt(0), NounAt(0), NounAt(1), ParticleAt(1), VerbAt(1), Text("の？")])
  }

  /** `get_templates()`: the eleven templates, in catalog order. */
  function Catalog(): seq<Template>
  {
    [Template1(), Template2(), Template3(), Template4(), Template5(), Template6(),
     Template7(), Template8(), Template9(), Template10(), Template11()]
  }

  /**
   * The renderer reads the last verb slot and the last noun slot, so it
   * panics whenever a selector returns fewer rows than the template declares.
   */
  predicate ReadsLastSlots(ps: seq<Piece>, nv: nat, nn: nat)
  {
    (nv == 0 || VerbAt(nv - 1) in ps) && (nn == 0 || NounAt(nn - 1) in ps)
  }

  /** A particle is read only from a slot whose mask requires a transitive-class verb with a particle. */
  predicate ParticlesFromTransitive(t: Template)
  {
    forall i :: 0 <= i < |t.jpan| && t.jpan[i].ParticleAt? ==>
      && t.jpan[i].k < |t.verbTypes|
      && t.verbTypes[t.jpan[i].k] & Transitive != 0
      && NeedsParticle(t.verbTypes[t.jpan[i].k])
  }

  /**
   * What the generator relies on in a template: each verb mask decodes to a
   * non-empty condition list, each noun entry can be pasted into its query,
   * both renderers index only declared slots (the Ainu one no particle at
   * all) and read the last slot of each kind, and particles come only from
   * transitive slots.
   */
  predicate WellFormed(t: Template)
  {
    && (forall k :: 0 <= k < |t.verbTypes| ==> !Malformed(t.verbTypes[k]))
    && (forall k :: 0 <= k < |t.nounTypes| ==> Embeddable(NounRequirement(t.nounTypes[k])))
    && AllFit(t.ainu, |t.verbTypes|, |t.nounTypes|, 0)
    && AllFit(t.jpan, |t.verbTypes|, |t.nounTypes|, |t.verbTypes|)
    && ReadsLastSlots(t.ainu, |t.verbTypes|, |t.nounTypes|)
    && ReadsLastSlots(t.jpan, |t.verbTypes|, |t.nounTypes|)
    && ParticlesFromTransitive(t)
  }

  /** The catalog holds eleven templates, each with at most two verb slots and one or two `"*"` noun slots. */
  lemma CatalogShape()
    ensures |Catalog()| == 11
    ensures forall i :: 0 <= i < |Catalog()| ==> |Catalog()[i].verbTypes| <= 2
    ensures forall i :: 0 <= i < |Catalog()| ==> 1 <= |Catalog()[i].nounTypes| <= 2
    ensures forall i, k :: 0 <= i < |Catalog()| && 0 <= k < |Catalog()[i].nounTypes| ==> Catalog()[i].nounTypes[k] == "*"
  {
  }

  /**
   * Every catalog template is well formed: its masks decode to non-empty
   * condition lists, its noun entries are quote-free, its renderers index
   * only declared slots, and particles come only from transitive slots.
   */
  lemma CatalogWellFormed(i: nat)
    requires i < |Catalog()|
    ensures WellFormed(Catalog()[i])
  {
    CatalogRequirementsUsable(i);
    CatalogAinuIndicesDeclared(i);
    CatalogJpanIndicesDeclared(i);
    CatalogAinuSlotsRead(i);
    CatalogJpanSlotsRead(i);
    CatalogParticlesFromTransitive(i);
  }

  /** The catalog's masks decode to non-empty lists, and the transitive ones require a particle. */
  lemma CatalogMasks()
    ensures !Malformed(TransitiveEitherSingular) && !Malformed(TransitiveAny) && !Malformed(IntransitiveAny)
    ensures NeedsParticle(TransitiveEitherSingular) && NeedsParticle(TransitiveAny)
    ensures TransitiveEitherSingular & Transitive != 0 && TransitiveAny & Transitive != 0
  {
  }

  /** Every verb mask of the catalog sets a valency bit and a plurality bit, and every noun entry is quote-free. */
  lemma CatalogRequirementsUsable(i: nat)
    requires i < |Catalog()|
    ensures var t := Catalog()[i];
      (forall k :: 0 <= k < |t.verbTypes| ==> !Malformed(t.verbTypes[k]))
      && (forall k :: 0 <= k < |t.nounTypes| ==> Embeddable(NounRequirement(t.nounTypes[k])))
  {
    CatalogMasks();
    var t := Catalog()[i];
    if i == 0 {
      assert t == Template1();
    } else if i == 1 {
      assert t == Template2();
    } else if i == 2 {
      assert t == Template3();
    } else if i == 3 {
      assert t == Template4();
    } else if i == 4 {
      assert t == Template5();
    } else if i == 5 {
      assert t == Template6();
    } else if i == 6 {
      assert t == Template7();
    } else if i == 7 {
      assert t == Template8();
    } else if i == 8 {
      assert t == Template9();
    } else if i == 9 {
      assert t == Template10();
    } else {
      assert t == Template11();
    }
  }

  /** The Ainu renderer of every catalog template reads no particle and only declared verb and noun slots. */
  lemma CatalogAinuIndicesDeclared(i: nat)
    requires i < |Catalog()|
    ensures var t := Catalog()[i];
      AllFit(t.ainu, |t.verbTypes|, |t.nounTypes|, 0)
  {
    var t := Catalog()[i];
    if i == 0 {
      assert t == Template1();
    } else if i == 1 {
      assert t == Template2();
    } else if i == 2 {
      assert t == Template3();
    } else if i == 3 {
      assert t == Template4();
    } else if i == 4 {
      assert t == Template5();
    } else if i == 5 {
      assert t == Template6();
    } else if i == 6 {
      assert t == Template7();
    } else if i == 7 {
      assert t == Template8();
    } else if i == 8 {
      assert t == Template9();
    } else if i == 9 {
      assert t == Template10();
    } else {
      assert t == Template11();
    }
  }

  /** The Japanese renderer of every catalog template reads only declared verb, noun and particle slots. */
  lemma CatalogJpanIndicesDeclared(i: nat)
    requires i < |Catalog()|
    ensures var t := Catalog()[i];
      AllFit(t.jpan, |t.verbTypes|, |t.nounTypes|, |t.verbTypes|)
  {
    var t := Catalog()[i];
    if i == 0 {
      assert t == Template1();
    } else if i == 1 {
      assert t == Template2();
    } else if i == 2 {
      assert t == Template3();
    } else if i == 3 {
      assert t == Template4();
    } else if i == 4 {
      assert t == Template5();
    } else if i == 5 {
      assert t == Template6();
    } else if i == 6 {
      assert t == Template7();
    } else if i == 7 {
      assert t == Template8();
    } else if i == 8 {
      assert t == Template9();
    } else if i == 9 {
      assert t == Template10();
    } else {
      assert t == Template11();
    }
  }

  /** The Ainu renderer of every catalog template reads its last verb slot and its last noun slot. */
  lemma CatalogAinuSlotsRead(i: nat)
    requires i < |Catalog()|
    ensures var t := Catalog()[i];
      ReadsLastSlots(t.ainu, |t.verbTypes|, |t.nounTypes|)
  {
    var t := Catalog()[i];
    if i == 0 {
      assert t == Template1();
    } else if i == 1 {
      assert t == Template2();
    } else if i == 2 {
      assert t == Template3();
    } else if i == 3 {
      assert t == Template4();
    } else if i == 4 {
      assert t == Template5();
    } else if i == 5 {
      assert t == Template6();
    } else if i == 6 {
      assert t == Template7();
    } else if i == 7 {
      assert t == Template8();
    } else if i == 8 {
      assert t == Template9();
    } else if i == 9 {
      assert t == Template10();
    } else {
      assert t == Template11();
    }
  }

  /** The Japanese renderer of every catalog template reads its last verb slot and its last noun slot. */
  lemma CatalogJpanSlotsRead(i: nat)
    requires i < |Catalog()|
    ensures var t := Catalog()[i];
      ReadsLastSlots(t.jpan, |t.verbTypes|, |t.nounTypes|)
  {
    var t := Catalog()[i];
    if i == 0 {
      assert t == Template1();
    } else if i == 1 {
      assert t == Template2();
    } else if i == 2 {
      assert t == Template3();
    } else if i == 3 {
      assert t == Template4();
    } else if i == 4 {
      assert t == Template5();
    } else if i == 5 {
      assert t == Template6();
    } else if i == 6 {
      assert t == Template7();
    } else if i == 7 {
      assert t == Template8();
    } else if i == 8 {
      assert t == Template9();
    } else if i == 9 {
      assert t == Template10();
    } else {
      assert t == Template11();
    }
  }

  /** The Japanese renderers read particles only from slots that require a transitive verb and a particle. */
  lemma CatalogParticlesFromTransitive(i: nat)
    requires i < |Catalog()|
    ensures var t := Catalog()[i];
      ParticlesFromTransitive(t)
  {
    CatalogMasks();
    var t := Catalog()[i];
    if i == 0 {
      assert t == Template1();
    } else if i == 1 {
      assert t == Template2();
    } else if i == 2 {
      assert t == Template3();
    } else if i == 3 {
      assert t == Template4();
    } else if i == 4 {
      assert t == Template5();
    } else if i == 5 {
      assert t == Template6();
    } else if i == 6 {
      assert t == Template7();
    } else if i == 7 {
      assert t == Template8();
    } else if i == 8 {
      assert t == Template9();
    } else if i == 9 {
      assert t == Template10();
    } else {
      assert t == Template11();
    }
  }

  /** The masks of a well-formed template decode to non-empty condition lists, so no query of it reads `WHERE ()`. */
  lemma WellFormedMasksDecode(t: Template)
    requires WellFormed(t)
    ensures forall k :: 0 <= k < |t.verbTypes| ==> Conditions(t.verbTypes[k]) != []
  {
    forall k | 0 <= k < |t.verbTypes|
      ensures Conditions(t.verbTypes[k]) != []
    {
      ConditionsEmptyIff(t.verbTypes[k]);
    }
  }

  /** Template 1's Ainu renderer panics without a noun and a verb, and otherwise yields `"{noun} ku= {verb}."`. */
  lemma FirstTemplateAinu(verbs: seq<string>, nouns: seq<string>)
    ensures RenderAinu(Catalog()[0], verbs, nouns).Success? <==> |verbs| >= 1 && |nouns| >= 1
    ensures |verbs| >= 1 && |nouns| >= 1 ==>
      RenderAinu(Catalog()[0], verbs, nouns).value == nouns[0] + " ku= " + verbs[0] + "."
  {
  }
}
