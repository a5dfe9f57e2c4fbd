/**
 * The sentence renderers of src/templates.rs. Every `generate_ainu` and
 * `generate_jpan` closure is a `format!` that interleaves fixed text with
 * elements of its argument slices; a renderer is therefore a sequence of
 * pieces, and an index past the end of a slice is a panic.
 */
module Renderers {
  import opened Wrappers

  /** One `format!` argument position: fixed text, or `verbs[k]`, `nouns[k]`, `particles[k]`. */
  datatype Piece = Text(s: string) | VerbAt(k: nat) | NounAt(k: nat) | ParticleAt(k: nat)

  /** Indexing a slice out of bounds panics. */
  datatype Panic = IndexOutOfRange

  /** The piece indexes within slices of `nv` verbs, `nn` nouns and `np` particles. */
  predicate Fits(p: Piece, nv: nat, nn: nat, np: nat)
  {
    match p
    case Text(_) => true
    case VerbAt(k) => k < nv
    case NounAt(k) => k < nn
    case ParticleAt(k) => k < np
  }

  /** Every piece of the renderer indexes within the given slice lengths. */
  predicate AllFit(ps: seq<Piece>, nv: nat, nn: nat, np: nat)
  {
    forall i :: 0 <= i < |ps| ==> Fits(ps[i], nv, nn, np)
  }

  /** The text one piece contributes, or `None` when it indexes past the end. */
  function PieceText(p: Piece, verbs: seq<string>, nouns: seq<string>, particles: seq<string>): (r: Option<string>)
    ensures r.Some? <==> Fits(p, |verbs|, |nouns|, |particles|)
  {
    match p
    case Text(s) => Some(s)
    case VerbAt(k) => if k < |verbs| then Some(verbs[k]) else None
    case NounAt(k) => if k < |nouns| then Some(nouns[k]) else None
    case ParticleAt(k) => if k < |particles| then Some(particles[k]) else None
  }

  /** The renderer applied to its slices: the pieces' texts, concatenated in order. */
  function Render(ps: seq<Piece>, verbs: seq<string>, nouns: seq<string>, particles: seq<string>): (r: Result<string, Panic>)
    ensures r.Success? <==> AllFit(ps, |verbs|, |nouns|, |particles|)
    decreases |ps|
  {
    if ps == [] then Success("")
    else
      match PieceText(ps[0], verbs, nouns, particles)
      case None => Failure(IndexOutOfRange)
      case Some(s) =>
        match Render(ps[1..], verbs, nouns, particles)
        case Failure(e) => Failure(e)
        case Success(rest) => Success(s + rest)
  }

  /** Rendering a concatenation renders the parts one after the other. */
  lemma {:induction false} RenderAppend(a: seq<Piece>, b: seq<Piece>, verbs: seq<string>, nouns: seq<string>,
                                        particles: seq<string>)
    requires AllFit(a + b, |verbs|, |nouns|, |particles|)
    ensures AllFit(a, |verbs|, |nouns|, |particles|) && AllFit(b, |verbs|, |nouns|, |particles|)
    ensures Render(a + b, verbs, nouns, particles).value
         == Render(a, verbs, nouns, particles).value + Render(b, verbs, nouns, particles).value
    decreases |a|
  {
    if a == [] {
      assert a + b == b;
    } else {
      assert (a + b)[1..] == a[1..] + b;
      assert AllFit(a, |verbs|, |nouns|, |particles|) by {
        forall i | 0 <= i < |a| ensures Fits(a[i], |verbs|, |nouns|, |particles|) {
          assert a[i] == (a + b)[i];
        }
      }
      assert AllFit(b, |verbs|, |nouns|, |particles|) by {
        forall i | 0 <= i < |b| ensures Fits(b[i], |verbs|, |nouns|, |particles|) {
          assert b[i] == (a + b)[|a| + i];
        }
      }
      RenderAppend(a[1..], b, verbs, nouns, particles);
    }
  }

  /**
   * A renderer reads only the slots it declares: elements after them in any
   * slice never change its output.
   */
  lemma {:induction false} RenderIgnoresExtra(ps: seq<Piece>, verbs: seq<string>, nouns: seq<string>, particles: seq<string>,
                                              moreVerbs: seq<string>, moreNouns: seq<string>, moreParticles: seq<string>)
    requires AllFit(ps, |verbs|, |nouns|, |particles|)
    ensures Render(ps, verbs + moreVerbs, nouns + moreNouns, particles + moreParticles)
         == Render(ps, verbs, nouns, particles)
    decreases |ps|
  {
    if ps != [] {
      RenderIgnoresExtra(ps[1..], verbs, nouns, particles, moreVerbs, moreNouns, moreParticles);
      assert Fits(ps[0], |verbs|, |nouns|, |particles|);
      match ps[0]
      case Text(_) =>
      case VerbAt(k) => assert (verbs + moreVerbs)[k] == verbs[k];
      case NounAt(k) => assert (nouns + moreNouns)[k] == nouns[k];
      case ParticleAt(k) => assert (particles + moreParticles)[k] == particles[k];
    }
  }
}
