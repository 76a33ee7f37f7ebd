// Dialogue runners: at most one conversation at a time. A runner is
// started only when no other is running, and finished runners are
// despawned by a cleanup system. The dialogue itself (the YarnSpinner
// virtual machine) is outside the model; a runner is its start node and
// whether it is still running.

module Dialogue {

  /// A `DialogueRunner` entity.
  datatype Runner = Runner(node: string, running: bool)

  /// `is_dialogue_running`: the query has a running runner.
  function IsDialogueRunning(rs: seq<Runner>): (r: bool)
    ensures r <==> exists i :: 0 <= i < |rs| && rs[i].running
    decreases |rs|
  {
    if rs == [] then false
    else
      assert forall i :: 0 <= i < |rs| - 1 ==> rs[..|rs| - 1][i] == rs[i];
      IsDialogueRunning(rs[..|rs| - 1]) || rs[|rs| - 1].running
  }

  /// How many runners are running.
  function RunningCount(rs: seq<Runner>): (n: nat)
    ensures n <= |rs|
    decreases |rs|
  {
    if rs == [] then 0
    else RunningCount(rs[..|rs| - 1]) + if rs[|rs| - 1].running then 1 else 0
  }

  lemma {:induction false} RunningCountZero(rs: seq<Runner>)
    ensures RunningCount(rs) == 0 <==> !IsDialogueRunning(rs)
    decreases |rs|
  {
    if rs != [] {
      RunningCountZero(rs[..|rs| - 1]);
    }
  }

  /// `start_dialogue` on the runners `rs`: whether a runner was started,
  /// and the runners afterwards.
  function StartDialogue(rs: seq<Runner>, node: string): (r: (bool, seq<Runner>))
    ensures IsDialogueRunning(rs) ==> r == (false, rs)
    ensures !IsDialogueRunning(rs) ==> r == (true, rs + [Runner(node, true)])
  {
    if IsDialogueRunning(rs) then (false, rs) else (true, rs + [Runner(node, true)])
  }

  lemma {:induction false} RunningCountAppend(rs: seq<Runner>, x: Runner)
    ensures RunningCount(rs + [x]) == RunningCount(rs) + if x.running then 1 else 0
  {
    assert (rs + [x])[..|rs + [x]| - 1] == rs;
  }

  /// Starting never lets a second runner run: with at most one running
  /// before, at most one runs after.
  lemma StartKeepsAtMostOne(rs: seq<Runner>, node: string)
    requires RunningCount(rs) <= 1
    ensures RunningCount(StartDialogue(rs, node).1) <= 1
    ensures StartDialogue(rs, node).0 ==> RunningCount(StartDialogue(rs, node).1) == 1
  {
    RunningCountZero(rs);
    RunningCountAppend(rs, Runner(node, true));
  }

  /// The runners the cleanup system keeps: the running ones, in order.
  function Running(rs: seq<Runner>): (r: seq<Runner>)
    ensures |r| == RunningCount(rs)
    ensures forall i :: 0 <= i < |r| ==> r[i].running
    decreases |rs|
  {
    if rs == [] then []
    else
      var rest := Running(rs[..|rs| - 1]);
      if rs[|rs| - 1].running then rest + [rs[|rs| - 1]] else rest
  }

  /// Cleanup keeps exactly the running runners.
  lemma {:induction false} RunningMembers(rs: seq<Runner>, x: Runner)
    ensures x in Running(rs) <==> x in rs && x.running
    decreases |rs|
  {
    if rs != [] {
      RunningMembers(rs[..|rs| - 1], x);
      assert rs == rs[..|rs| - 1] + [rs[|rs| - 1]];
    }
  }

  /// Cleanup leaves the number of running runners as it was.
  lemma RunningKeepsCount(rs: seq<Runner>)
    ensures RunningCount(Running(rs)) == RunningCount(rs)
  {
    var r := Running(rs);
    CountAllRunning(r);
  }

  lemma {:induction false} CountAllRunning(rs: seq<Runner>)
    requires forall i :: 0 <= i < |rs| ==> rs[i].running
    ensures RunningCount(rs) == |rs|
    decreases |rs|
  {
    if rs != [] {
      CountAllRunning(rs[..|rs| - 1]);
    }
  }

  /// A runner finishing its conversation (inside YarnSpinner): the runner
  /// at `k` stops, nothing else changes.
  function Finish(rs: seq<Runner>, k: nat): (r: seq<Runner>)
    requires k < |rs|
    ensures |r| == |rs| && !r[k].running
    ensures forall i :: 0 <= i < |rs| && i != k ==> r[i] == rs[i]
  {
    rs[k := rs[k].(running := false)]
  }

  lemma {:induction false} FinishLowersCount(rs: seq<Runner>, k: nat)
    requires k < |rs|
    ensures RunningCount(Finish(rs, k)) <= RunningCount(rs)
    decreases |rs|
  {
    var r := Finish(rs, k);
    if k < |rs| - 1 {
      assert r[..|r| - 1] == Finish(rs[..|rs| - 1], k);
      FinishLowersCount(rs[..|rs| - 1], k);
    } else {
      assert r[..|r| - 1] == rs[..|rs| - 1];
    }
  }

  /// The runner entities of a scene, changed only by the systems below and
  /// by runners finishing.
  class DialogueRunners {
    var runners: seq<Runner>

    /// The property the start guard exists for.
    ghost predicate AtMostOneRunning()
      reads this
    {
      RunningCount(runners) <= 1
    }

    constructor()
      ensures runners == [] && AtMostOneRunning()
    {
      runners := [];
    }

    /// `start_dialogue`: spawn a runner at `node` unless one is running.
    method Start(node: string) returns (started: bool)
      modifies this
      ensures (started, runners) == StartDialogue(old(runners), node)
      ensures old(AtMostOneRunning()) ==> AtMostOneRunning()
    {
      if RunningCount(runners) <= 1 {
        StartKeepsAtMostOne(runners, node);
      }
      var running := false;
      var i := 0;
      while i < |runners|
        invariant 0 <= i <= |runners|
        invariant running <==> exists j :: 0 <= j < i && runners[j].running
      {
        if runners[i].running {
          running := true;
        }
        i := i + 1;
      }
      if running {
        started := false;
        return;
      }
      runners := runners + [Runner(node, true)];
      started := true;
    }

    /// `cleanup_finished_dialogue_runners`: despawn every runner that is
    /// not running.
    method Cleanup()
      modifies this
      ensures runners == Running(old(runners))
      ensures old(AtMostOneRunning()) ==> AtMostOneRunning()
    {
      RunningKeepsCount(runners);
      var kept: seq<Runner> := [];
      var i := 0;
      while i < |runners|
        invariant 0 <= i <= |runners|
        invariant kept == Running(runners[..i])
      {
        assert runners[..i + 1][..i] == runners[..i];
        if runners[i].running {
          kept := kept + [runners[i]];
        }
        i := i + 1;
      }
      assert runners[..i] == runners;
      runners := kept;
    }

    /// A runner reaching the end of its conversation.
    method FinishRunner(k: nat)
      requires k < |runners|
      modifies this
      ensures runners == Finish(old(runners), k)
      ensures old(AtMostOneRunning()) ==> AtMostOneRunning()
    {
      FinishLowersCount(runners, k);
      runners := Finish(runners, k);
    }
  }
}
