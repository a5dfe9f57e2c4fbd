/**
 * The verb-requirement byte of the template catalog (src/templates.rs).
 *
 * A requirement is one unsigned byte. Bit `ii` of the high nibble says that
 * valency (transitivity) class `ii` is acceptable; bit `jj` of the low nibble,
 * for `jj` in 0..2, says that plurality class `jj` is acceptable.
 */
module Masks {

  type Mask = bv8

  // Valency masks: VERB0 .. VERB3 of the source.
  const Avalent: Mask := 0x10
  const Intransitive: Mask := 0x20
  const Transitive: Mask := 0x40
  const Ditransitive: Mask := 0x80

  // Plurality masks: V_BOTH, V_SING and V_PLUR of the source.
  const EitherNumber: Mask := 0x01
  const SingularOnly: Mask := 0x02
  const PluralOnly: Mask := 0x04

  /** The valency masks, indexed by the class they stand for. */
  const ValencyMasks: seq<Mask> := [Avalent, Intransitive, Transitive, Ditransitive]

  /** The plurality masks, indexed by the class they stand for. */
  const PluralityMasks: seq<Mask> := [EitherNumber, SingularOnly, PluralOnly]

  /** The decoder's valency test for class `ii`: `(verb_type >> 4) & (1 << ii) != 0`. */
  predicate ValencyBit(v: Mask, ii: nat)
    requires ii < 4
  {
    (v >> 4) & (1 << ii) != 0
  }

  /** The decoder's plurality test for class `jj`: `verb_type & (1 << jj) != 0`. */
  predicate PluralityBit(v: Mask, jj: nat)
    requires jj < 3
  {
    v & (1 << jj) != 0
  }

  /** The decoder raises `needs_particle` for every set valency class above 1. */
  predicate NeedsParticle(v: Mask)
  {
    ValencyBit(v, 2) || ValencyBit(v, 3)
  }

  /** The mask sets no valency bit or no plurality bit 0..2, so it decodes to no condition. */
  predicate Malformed(v: Mask)
  {
    v & 0xF0 == 0 || v & 0x07 == 0
  }

  /** `needs_particle` is exactly "the transitive or the ditransitive bit is set". */
  lemma NeedsParticleIff(v: Mask)
    ensures NeedsParticle(v) <==> v & 0xC0 != 0
  {
  }

  /**
   * Each valency mask sets exactly its own class in the high nibble and no
   * plurality class; each plurality mask sets exactly its own class in the
   * low nibble and no valency class.
   */
  lemma MasksDecodeToTheirClass()
    ensures forall i, ii :: 0 <= i < 4 && 0 <= ii < 4 ==>
              (ValencyBit(ValencyMasks[i], ii) <==> i == ii)
    ensures forall i, jj :: 0 <= i < 4 && 0 <= jj < 3 ==> !PluralityBit(ValencyMasks[i], jj)
    ensures forall j, jj :: 0 <= j < 3 && 0 <= jj < 3 ==>
              (PluralityBit(PluralityMasks[j], jj) <==> j == jj)
    ensures forall j, ii :: 0 <= j < 3 && 0 <= ii < 4 ==> !ValencyBit(PluralityMasks[j], ii)
  {
  }

  /** Valency masks lie in the high nibble, plurality masks in the low one, and no two masks share a bit. */
  lemma MasksDisjoint()
    ensures forall i :: 0 <= i < 4 ==> ValencyMasks[i] & 0xF0 == ValencyMasks[i]
    ensures forall j :: 0 <= j < 3 ==> PluralityMasks[j] & 0x0F == PluralityMasks[j]
    ensures forall i, i' :: 0 <= i < i' < 4 ==> ValencyMasks[i] & ValencyMasks[i'] == 0
    ensures forall j, j' :: 0 <= j < j' < 3 ==> PluralityMasks[j] & PluralityMasks[j'] == 0
    ensures forall i, j :: 0 <= i < 4 && 0 <= j < 3 ==> ValencyMasks[i] & PluralityMasks[j] == 0
  {
  }
}
