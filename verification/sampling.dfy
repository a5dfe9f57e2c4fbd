/**
 * The sampling discipline shared by `get_verbs` and `get_nouns`
 * (src/main.rs): each requirement, in order, gets its own one-row answer;
 * an answer row is appended, an empty answer adds nothing, and the first
 * error ends the call.
 */
module Sampling {
  import opened Wrappers

  /**
   * The rows collected for `reqs`, where `answer(r, k)` is the store's answer
   * to the query for requirement `r` sent from slot `k`.
   */
  function Sample<R, Row, E>(answer: (R, nat) -> Result<Option<Row>, E>, reqs: seq<R>): (r: Result<seq<Row>, E>)
    ensures r.Success? ==> |r.value| <= |reqs|
    decreases |reqs|
  {
    if reqs == [] then Success([])
    else
      var k := |reqs| - 1;
      match Sample(answer, reqs[..k])
      case Failure(e) => Failure(e)
      case Success(rows) =>
        match answer(reqs[k], k)
        case Failure(e) => Failure(e)
        case Success(None) => Success(rows)
        case Success(Some(row)) => Success(rows + [row])
  }

  /** Once a prefix of the slots fails, the whole call fails with that error. */
  lemma {:induction false} FailurePersists<R, Row, E>(answer: (R, nat) -> Result<Option<Row>, E>, reqs: seq<R>, i: nat)
    requires i <= |reqs|
    requires Sample(answer, reqs[..i]).Failure?
    ensures Sample(answer, reqs) == Sample(answer, reqs[..i])
    decreases |reqs| - i
  {
    if i < |reqs| {
      assert reqs[..i + 1][..i] == reqs[..i];
      assert Sample(answer, reqs[..i + 1]) == Sample(answer, reqs[..i]);
      FailurePersists(answer, reqs, i + 1);
    } else {
      assert reqs[..i] == reqs;
    }
  }

  /**
   * When every answer to a requirement in `ok` fails exactly for the
   * requirements in `bad`, sampling requirements in `ok` fails exactly when
   * some requirement is bad.
   */
  lemma {:induction false} SampleFailsIff<R, Row, E>(answer: (R, nat) -> Result<Option<Row>, E>, ok: R -> bool,
                                                     bad: R -> bool, reqs: seq<R>)
    requires forall r, k :: ok(r) ==> (answer(r, k).Failure? <==> bad(r))
    requires forall k :: 0 <= k < |reqs| ==> ok(reqs[k])
    ensures Sample(answer, reqs).Failure? <==> exists k :: 0 <= k < |reqs| && bad(reqs[k])
    decreases |reqs|
  {
    if reqs != [] {
      var n := |reqs| - 1;
      var pre := reqs[..n];
      SampleFailsIff(answer, ok, bad, pre);
      assert ok(reqs[n]);
      assert answer(reqs[n], n).Failure? <==> bad(reqs[n]);
      assert (exists k :: 0 <= k < |reqs| && bad(reqs[k]))
         <==> (exists k :: 0 <= k < n && bad(pre[k])) || bad(reqs[n]) by {
        assert forall k :: 0 <= k < n ==> pre[k] == reqs[k];
      }
    }
  }

  /** One step: the earlier slots' rows are kept and the last slot adds at most its own answer row. */
  lemma SampleStep<R, Row, E>(answer: (R, nat) -> Result<Option<Row>, E>, reqs: seq<R>)
    requires reqs != [] && Sample(answer, reqs).Success?
    ensures var n := |reqs| - 1;
      var a := answer(reqs[n], n);
      && Sample(answer, reqs[..n]).Success?
      && a.Success?
      && Sample(answer, reqs).value == Sample(answer, reqs[..n]).value + (if a.value.Some? then [a.value.value] else [])
  {
  }

  /**
   * When a successful answer to a requirement in `ok` holds a row exactly for
   * the requirements in `avail`, a successful sample of requirements in `ok`
   * fills every slot exactly when every requirement is available.
   */
  lemma {:induction false} SampleFull<R, Row, E>(answer: (R, nat) -> Result<Option<Row>, E>, ok: R -> bool,
                                                 avail: R -> bool, reqs: seq<R>)
    requires forall r, k :: ok(r) && answer(r, k).Success? ==> (answer(r, k).value.Some? <==> avail(r))
    requires forall k :: 0 <= k < |reqs| ==> ok(reqs[k])
    requires Sample(answer, reqs).Success?
    ensures |Sample(answer, reqs).value| == |reqs| <==> forall k :: 0 <= k < |reqs| ==> avail(reqs[k])
    decreases |reqs|
  {
    if reqs != [] {
      var n := |reqs| - 1;
      var pre := reqs[..n];
      SampleStep(answer, reqs);
      SampleFull(answer, ok, avail, pre);
      assert ok(reqs[n]);
      var rows := Sample(answer, reqs).value;
      var before := Sample(answer, pre).value;
      assert answer(reqs[n], n).value.Some? <==> avail(reqs[n]);
      if |rows| == |reqs| {
        forall k | 0 <= k < |reqs|
          ensures avail(reqs[k])
        {
          if k < n {
            assert pre[k] == reqs[k];
          }
        }
      } else if |before| < n {
        var k :| 0 <= k < n && !avail(pre[k]);
        assert pre[k] == reqs[k];
      }
    }
  }

  /**
   * When every answer row for a requirement in `ok` satisfies `sat` for it, a
   * sample of requirements in `ok` that fills every slot holds, in slot `k`, a
   * row satisfying requirement `k`: no row is shifted into another slot.
   */
  lemma {:induction false} SampleAligned<R, Row, E>(answer: (R, nat) -> Result<Option<Row>, E>, ok: R -> bool,
                                                    sat: (R, Row) -> bool, reqs: seq<R>)
    requires forall r, k :: ok(r) && answer(r, k).Success? && answer(r, k).value.Some? ==> sat(r, answer(r, k).value.value)
    requires forall k :: 0 <= k < |reqs| ==> ok(reqs[k])
    requires Sample(answer, reqs).Success?
    requires |Sample(answer, reqs).value| == |reqs|
    ensures forall k :: 0 <= k < |reqs| ==> sat(reqs[k], Sample(answer, reqs).value[k])
    decreases |reqs|
  {
    if reqs != [] {
      var n := |reqs| - 1;
      var pre := reqs[..n];
      SampleStep(answer, reqs);
      SampleAligned(answer, ok, sat, pre);
      var rows := Sample(answer, reqs).value;
      forall k | 0 <= k < |reqs|
        ensures sat(reqs[k], rows[k])
      {
        if k < n {
          assert rows[k] == rows[..n][k];
          assert pre[k] == reqs[k];
        } else {
          assert ok(reqs[n]);
        }
      }
    }
  }

  /**
   * The slot each collected row came from: slot numbers strictly increasing,
   * and row `i` is exactly the answer slot `Slots(answer, reqs)[i]` got. Slots
   * whose query returned no row are skipped, so a short result's rows sit
   * at lower indices than their slots.
   */
  function Slots<R, Row, E>(answer: (R, nat) -> Result<Option<Row>, E>, reqs: seq<R>): (s: seq<nat>)
    requires Sample(answer, reqs).Success?
    ensures |s| == |Sample(answer, reqs).value|
    ensures forall i :: 0 <= i < |s| ==> s[i] < |reqs|
    ensures forall i, j :: 0 <= i < j < |s| ==> s[i] < s[j]
    ensures forall i :: 0 <= i < |s| ==> answer(reqs[s[i]], s[i]) == Success(Some(Sample(answer, reqs).value[i]))
    decreases |reqs|
  {
    if reqs == [] then []
    else
      var n := |reqs| - 1;
      SampleStep(answer, reqs);
      var pre := Slots(answer, reqs[..n]);
      assert forall i :: 0 <= i < |pre| ==> reqs[..n][pre[i]] == reqs[pre[i]];
      if answer(reqs[n], n).value.Some? then pre + [n] else pre
  }

  /**
   * When every answer row for a requirement in `ok` satisfies `sat` for it,
   * every collected row, full result or short, satisfies the requirement of
   * the slot it came from.
   */
  lemma SampleRowsFromSlots<R, Row, E>(answer: (R, nat) -> Result<Option<Row>, E>, ok: R -> bool,
                                       sat: (R, Row) -> bool, reqs: seq<R>)
    requires forall r, k :: ok(r) && answer(r, k).Success? && answer(r, k).value.Some? ==> sat(r, answer(r, k).value.value)
    requires forall k :: 0 <= k < |reqs| ==> ok(reqs[k])
    requires Sample(answer, reqs).Success?
    ensures var rows := Sample(answer, reqs).value;
      forall i :: 0 <= i < |rows| ==> sat(reqs[Slots(answer, reqs)[i]], rows[i])
  {
    var rows := Sample(answer, reqs).value;
    var s := Slots(answer, reqs);
    forall i | 0 <= i < |rows|
      ensures sat(reqs[s[i]], rows[i])
    {
      assert ok(reqs[s[i]]);
      assert answer(reqs[s[i]], s[i]) == Success(Some(rows[i]));
    }
  }
}
