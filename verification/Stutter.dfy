/** Seeing a run of a whole system as a run of one of its parts: the steps in which the part rests
    are left out. */
module Stutter {
  import opened Base

  /** `run` with the steps `ops` is what the part does while the system goes through `whole`;
      `parts` says what each system step is for the part, and `pos` where the part then stands. */
  ghost predicate Follows<S, O>(
    run: seq<S>, ops: seq<O>, whole: seq<S>, parts: seq<Option<O>>, pos: seq<nat>)
  {
    && |run| == |ops| + 1 && |whole| == |parts| + 1 == |pos|
    && pos[0] == 0 && pos[|parts|] == |ops|
    && (forall j :: 0 <= j <= |parts| ==> pos[j] <= |ops| && run[pos[j]] == whole[j])
    && (forall j :: 0 <= j < |parts| ==> Moves(ops, parts[j], pos[j], pos[j + 1]))
  }

  ghost predicate Moves<O>(ops: seq<O>, part: Option<O>, from: nat, to: nat) {
    if part.None? then to == from else to == from + 1 && from < |ops| && ops[from] == part.value
  }

  /** Whatever rests when it has no step can be followed. */
  lemma {:induction false} Compress<S, O>(whole: seq<S>, parts: seq<Option<O>>)
    returns (run: seq<S>, ops: seq<O>, pos: seq<nat>)
    requires |whole| == |parts| + 1
    requires forall j :: 0 <= j < |parts| && parts[j].None? ==> whole[j + 1] == whole[j]
    ensures Follows(run, ops, whole, parts, pos)
  {
    if parts == [] {
      return whole, [], [0];
    }
    var n := |parts| - 1;
    var run0, ops0, pos0 := Compress(whole[..n + 1], parts[..n]);
    run, ops, pos := run0, ops0, pos0 + [|ops0|];
    if parts[n].Some? {
      run, ops, pos := run0 + [whole[n + 1]], ops0 + [parts[n].value], pos0 + [|ops0| + 1];
    }
    forall j | 0 <= j < |parts| ensures Moves(ops, parts[j], pos[j], pos[j + 1]) {
      if j < n {
        assert Moves(ops0, parts[..n][j], pos0[j], pos0[j + 1]);
      }
    }
    forall j | 0 <= j <= |parts| ensures pos[j] <= |ops| && run[pos[j]] == whole[j] {
      if j <= n {
        assert run0[pos0[j]] == whole[..n + 1][j];
      }
    }
  }

  /** The system step, among the first n, by which the part took its step i. */
  lemma {:induction false} StepOf<S, O>(
    run: seq<S>, ops: seq<O>, whole: seq<S>, parts: seq<Option<O>>, pos: seq<nat>, i: nat, n: nat)
    returns (j: nat)
    requires Follows(run, ops, whole, parts, pos) && n <= |parts| && i < pos[n]
    ensures j < n && parts[j] == Some(ops[i]) && run[i] == whole[j] && run[i + 1] == whole[j + 1] && pos[j] == i
  {
    assert Moves(ops, parts[n - 1], pos[n - 1], pos[n]);
    if i < pos[n - 1] {
      j := StepOf(run, ops, whole, parts, pos, i, n - 1);
    } else {
      assert run[pos[n - 1]] == whole[n - 1] && run[pos[n]] == whole[n];
      j := n - 1;
    }
  }

  /** Every state the part goes through is its state at some time of the system. */
  lemma StateOf<S, O>(run: seq<S>, ops: seq<O>, whole: seq<S>, parts: seq<Option<O>>, pos: seq<nat>, i: nat)
    returns (j: nat)
    requires Follows(run, ops, whole, parts, pos) && i < |run|
    ensures j < |whole| && run[i] == whole[j]
  {
    if i == |ops| {
      j := |parts|;
      assert run[pos[j]] == whole[j];
    } else {
      j := StepOf(run, ops, whole, parts, pos, i, |parts|);
    }
  }

  /** The part keeps the order of the system. */
  lemma {:induction false} InOrder<S, O>(
    run: seq<S>, ops: seq<O>, whole: seq<S>, parts: seq<Option<O>>, pos: seq<nat>, j: nat, k: nat)
    requires Follows(run, ops, whole, parts, pos) && j <= k < |pos|
    ensures pos[j] <= pos[k] <= |ops|
  {
    if j < k {
      assert Moves(ops, parts[k - 1], pos[k - 1], pos[k]);
      InOrder(run, ops, whole, parts, pos, j, k - 1);
    } else {
      assert run[pos[k]] == whole[k];
    }
  }
}
