/**
 * The verb-requirement decoder of `build_verb_query` (src/main.rs): the list
 * of (valency, plurality) conditions a mask asks for.
 */
module Decoder {
  import opened Masks

  /** One `trans = ii AND plur = jj` disjunct of the verb query. */
  datatype Condition = Condition(trans: nat, plur: nat)

  /** The mask accepts valency `c.trans` and plurality `c.plur` (both within the decoded ranges). */
  predicate Accepts(v: Mask, c: Condition)
  {
    c.trans < 4 && c.plur < 3 && ValencyBit(v, c.trans) && PluralityBit(v, c.plur)
  }

  /** The decoder's nested iteration order: valency first, then plurality, both ascending. */
  predicate Before(a: Condition, b: Condition)
  {
    a.trans < b.trans || (a.trans == b.trans && a.plur < b.plur)
  }

  /** Every earlier condition comes strictly before every later one (so there are no repeats). */
  predicate Ascending(cs: seq<Condition>)
  {
    forall a, b :: 0 <= a < b < |cs| ==> Before(cs[a], cs[b])
  }

  /** The inner loop `for jj in 0..3`, from plurality `jj` onwards, for valency `ii`. */
  function PluralityConditions(v: Mask, ii: nat, jj: nat): (r: seq<Condition>)
    requires ii < 4 && jj <= 3
    ensures forall c :: c in r <==> c.trans == ii && jj <= c.plur < 3 && PluralityBit(v, c.plur)
    ensures forall k :: 0 <= k < |r| ==> r[k].trans == ii && jj <= r[k].plur
    ensures Ascending(r)
    decreases 3 - jj
  {
    if jj == 3 then []
    else
      var rest := PluralityConditions(v, ii, jj + 1);
      if PluralityBit(v, jj) then
        AppendAscending([Condition(ii, jj)], rest);
        [Condition(ii, jj)] + rest
      else rest
  }

  /** The outer loop `for ii in 0..4`, from valency `ii` onwards. */
  function ValencyConditions(v: Mask, ii: nat): (r: seq<Condition>)
    requires ii <= 4
    ensures forall c :: c in r <==> ii <= c.trans && Accepts(v, c)
    ensures forall k :: 0 <= k < |r| ==> ii <= r[k].trans
    ensures Ascending(r)
    decreases 4 - ii
  {
    if ii == 4 then []
    else
      var here := if ValencyBit(v, ii) then PluralityConditions(v, ii, 0) else [];
      var rest := ValencyConditions(v, ii + 1);
      assert forall a, b :: 0 <= a < |here| && 0 <= b < |rest| ==> Before(here[a], rest[b]);
      AppendAscending(here, rest);
      here + rest
  }

  /** Two ascending lists, every element of the first before every element of the second, concatenate ascending. */
  lemma AppendAscending(x: seq<Condition>, y: seq<Condition>)
    requires Ascending(x) && Ascending(y)
    requires forall a, b :: 0 <= a < |x| && 0 <= b < |y| ==> Before(x[a], y[b])
    ensures Ascending(x + y)
  {
  }

  /** The condition list `build_verb_query` joins into its WHERE clause. */
  function Conditions(v: Mask): (r: seq<Condition>)
    ensures forall c :: c in r <==> Accepts(v, c)
    ensures Ascending(r)
    ensures forall k :: 0 <= k < |r| ==> r[k].trans < 4 && r[k].plur < 3
  {
    ValencyConditions(v, 0)
  }

  /** Two ascending lists with the same members are the same list. */
  lemma {:induction false} AscendingUnique(a: seq<Condition>, b: seq<Condition>)
    requires Ascending(a) && Ascending(b)
    requires forall c :: c in a <==> c in b
    ensures a == b
    decreases |a|
  {
    if a == [] {
      NoMembersEmpty(b);
    } else {
      assert a[0] in b;
      var j :| 0 <= j < |b| && b[j] == a[0];
      assert b[0] in a;
      var i :| 0 <= i < |a| && a[i] == b[0];
      assert Before(a[0], a[i]) || i == 0;
      assert Before(b[0], b[j]) || j == 0;
      assert a[0] == b[0];
      forall c
        ensures c in a[1..] <==> c in b[1..]
      {
        if c in a[1..] {
          var i :| 1 <= i < |a| && a[i] == c;
          assert Before(a[0], c);
          assert c in b && c != b[0];
        }
        if c in b[1..] {
          var j :| 1 <= j < |b| && b[j] == c;
          assert Before(b[0], c);
          assert c in a && c != a[0];
        }
      }
      AscendingUnique(a[1..], b[1..]);
      assert a == [a[0]] + a[1..] && b == [b[0]] + b[1..];
    }
  }

  /** A list with no members is empty. */
  lemma NoMembersEmpty(s: seq<Condition>)
    ensures (forall c :: c !in s) ==> s == []
  {
    if s != [] {
      assert s[0] in s;
    }
  }

  /**
   * The decoder's output is exactly the cross product of the set valency bits
   * and the set plurality bits 0..2, in nested ascending order: a list is the
   * decoded list if and only if it holds exactly the accepted pairs, ascending.
   */
  lemma ConditionsCharacterized(v: Mask, cs: seq<Condition>)
    ensures cs == Conditions(v) <==> Ascending(cs) && forall c :: c in cs <==> Accepts(v, c)
  {
    if Ascending(cs) && forall c :: c in cs <==> Accepts(v, c) {
      AscendingUnique(cs, Conditions(v));
    }
  }

  /** Masks that agree on valency bits 0..3 and plurality bits 0..2 decode alike. */
  lemma ConditionsRespectBits(v: Mask, w: Mask)
    requires forall ii :: 0 <= ii < 4 ==> (ValencyBit(v, ii) <==> ValencyBit(w, ii))
    requires forall jj :: 0 <= jj < 3 ==> (PluralityBit(v, jj) <==> PluralityBit(w, jj))
    ensures Conditions(v) == Conditions(w)
    ensures NeedsParticle(v) == NeedsParticle(w)
  {
    forall c
      ensures c in Conditions(v) <==> c in Conditions(w)
    {
      assert Accepts(v, c) <==> Accepts(w, c);
    }
    AscendingUnique(Conditions(v), Conditions(w));
  }

  /** Bit 3 of the low nibble (0x08) is never consulted: flipping it changes neither output. */
  lemma Bit3Ignored(v: Mask)
    ensures Conditions(v ^ 0x08) == Conditions(v)
    ensures NeedsParticle(v ^ 0x08) == NeedsParticle(v)
  {
    ConditionsRespectBits(v, v ^ 0x08);
  }

  /** Some valency bit 0..3 is set exactly when the high nibble is non-zero. */
  lemma ValencyNibble(v: Mask)
    ensures v & 0xF0 != 0 <==> ValencyBit(v, 0) || ValencyBit(v, 1) || ValencyBit(v, 2) || ValencyBit(v, 3)
  {
  }

  /** Some plurality bit 0..2 is set exactly when `v & 0x07` is non-zero. */
  lemma PluralityBits(v: Mask)
    ensures v & 0x07 != 0 <==> PluralityBit(v, 0) || PluralityBit(v, 1) || PluralityBit(v, 2)
  {
  }

  /** The decoded list is empty exactly when no valency bit or no plurality bit 0..2 is set. */
  lemma ConditionsEmptyIff(v: Mask)
    ensures Conditions(v) == [] <==> v & 0xF0 == 0 || v & 0x07 == 0
  {
    ValencyNibble(v);
    PluralityBits(v);
    if v & 0xF0 != 0 && v & 0x07 != 0 {
      var ii: nat := if ValencyBit(v, 0) then 0 else if ValencyBit(v, 1) then 1
                     else if ValencyBit(v, 2) then 2 else 3;
      var jj: nat := if PluralityBit(v, 0) then 0 else if PluralityBit(v, 1) then 1 else 2;
      assert Accepts(v, Condition(ii, jj));
    }
  }
}
