/** The core playbooks: the polling loop and restart action they share (common.go), and
    the ladders of CrashLoopBackOff and OOMKilled. */
module CoreK8s {
  import opened Wrappers
  import opened Policy
  import opened Wire
  import opened Cluster
  import opened Playbooks
  import E = ExecEngine

  // ------------------------------------------------------------ common.go

  datatype Poll = Poll(world: World, ok: bool, err: Option<string>)

  ghost predicate Monotone(check: World -> Poll) {
    forall w: World :: w.now <= check(w).world.now
  }

  const CONTEXT_DONE := "context done"

  /** The second arm of the select: one second, and whatever more the scheduler takes. */
  function Slept(w: World): World {
    w.(now := w.now + 1 + Upcoming(w).latency, calls := w.calls + 1)
  }

  /** What waitFor returns, given its deadline. */
  function WaitForSpec(check: World -> Poll, w: World, deadline: nat): Poll
    requires Monotone(check)
    decreases if w.now <= deadline then deadline - w.now + 1 else 0
  {
    var p := check(w);
    if p.err.Some? then p.(ok := false)
    else if p.ok || p.world.now > deadline then p
    else if Upcoming(p.world).done then Poll(p.world.(calls := p.world.calls + 1), false, Some(CONTEXT_DONE))
    else WaitForSpec(check, Slept(p.world), deadline)
  }

  method WaitFor(live: E.Live<World>, timeout: nat, check: World -> Poll) returns (ok: bool, err: Option<string>)
    requires Monotone(check)
    modifies live
    ensures Poll(live.world, ok, err) == WaitForSpec(check, old(live.world), old(live.world).now + timeout)
  {
    var deadline := live.world.now + timeout;
    ghost var answer := WaitForSpec(check, live.world, deadline);
    while true
      invariant WaitForSpec(check, live.world, deadline) == answer
      decreases if live.world.now <= deadline then deadline - live.world.now + 1 else 0
    {
      var p := check(live.world);
      live.world := p.world;
      if p.err.Some? {
        return false, p.err;
      }
      if p.ok {
        return true, None;
      }
      if live.world.now > deadline {
        return false, None;
      }
      if Upcoming(live.world).done {
        live.world := live.world.(calls := live.world.calls + 1);
        return false, Some(CONTEXT_DONE);
      }
      live.world := Slept(live.world);
    }
  }

  /** The worlds in which waitFor polls, in order. */
  function Polls(check: World -> Poll, w: World, deadline: nat): seq<World>
    requires Monotone(check)
    decreases if w.now <= deadline then deadline - w.now + 1 else 0
  {
    var p := check(w);
    if p.err.Some? || p.ok || p.world.now > deadline || Upcoming(p.world).done then [w]
    else [w] + Polls(check, Slept(p.world), deadline)
  }

  /** waitFor polls at least once and at most timeout + 2 times; only its last poll can
      have been true, and it says true exactly then; it gives up silently only after a
      failed poll past the deadline. */
  lemma {:induction false} WaitForIsBounded(check: World -> Poll, w: World, deadline: nat)
    requires Monotone(check)
    ensures var polls, r := Polls(check, w, deadline), WaitForSpec(check, w, deadline);
            && polls != [] && polls[0] == w
            && (w.now <= deadline ==> |polls| <= deadline - w.now + 2)
            && (w.now > deadline ==> |polls| == 1)
            && (forall i | 0 <= i < |polls| - 1 :: !check(polls[i]).ok && check(polls[i]).err.None?)
            && var last := check(polls[|polls| - 1]);
               && (r.ok <==> last.ok && last.err.None?)
               && (!r.ok && r.err.None? ==> !last.ok && last.world.now > deadline)
               && (last.err.Some? ==> r.err == last.err)
    decreases if w.now <= deadline then deadline - w.now + 1 else 0
  {
    var p := check(w);
    if !(p.err.Some? || p.ok || p.world.now > deadline || Upcoming(p.world).done) {
      WaitForIsBounded(check, Slept(p.world), deadline);
    }
  }

  /** Nothing but time, and the number of calls, differs. */
  ghost predicate Untouched(w: World, v: World) {
    v.deployments == w.deployments && v.fate == w.fate
  }

  /** A check that only looks. */
  ghost predicate Harmless(check: World -> Poll) {
    forall w :: Untouched(w, check(w).world)
  }

  function ReadyOnce(w: World, key: Key, want: int): (p: Poll)
    ensures w.now <= p.world.now && Untouched(w, p.world)
  {
    var r := DeploymentReadyReplicas(w, key);
    match r.result
    case Ok(ready) => Poll(r.world, ready >= want, None)
    case Err(e) => Poll(r.world, 0 >= want, Some(e))
  }

  function ReadyPoll(key: Key, want: int): (check: World -> Poll)
    ensures Monotone(check) && Harmless(check)
  {
    (w: World) => ReadyOnce(w, key, want)
  }

  function GonePoll(): (check: World -> Poll)
    ensures Monotone(check) && Harmless(check)
  {
    (w: World) => Poll(Elapsed(w), Upcoming(w).podGone, None)
  }

  /** Reads how many replicas are wanted now, then waits for that many to be ready. */
  function WaitReady(w: World, key: Key, timeout: nat): E.Validated<World> {
    var want := DeploymentReplicas(w, key);
    match want.result
    case Err(e) => E.Validated(want.world, false, Some(e))
    case Ok(n) =>
      var r := WaitForSpec(ReadyPoll(key, n), want.world, want.world.now + timeout);
      E.Validated(r.world, r.ok, r.err)
  }

  /** The snapshot map of every core playbook: its one field, "replicas". */
  type Snap = int

  type Action = E.Action<World, Snap>

  function RanFrom(r: Replied<()>): E.Ran<World> {
    match r.result
    case Ok(_) => E.Ran(r.world, "done", None)
    case Err(e) => E.Ran(r.world, "", Some(e))
  }

  const RESTART := "restart pod"
  const SCALE := "scale deployment down and up"
  const ROLLOUT := "rollout restart deployment"
  const MORE_MEMORY := "increase memory limit"

  function ValidateRestart(w: World, key: Option<Key>): E.Validated<World> {
    var gone := WaitForSpec(GonePoll(), w, w.now + 30);
    if gone.err.Some? || !gone.ok then E.Validated(gone.world, false, gone.err)
    else if key.None? then E.Validated(gone.world, true, None)
    else WaitReady(gone.world, key.value, 60)
  }

  function RestartPodAction(description: string, key: Option<Key>): Action {
    E.Action(RESTART, description, Safe, None, (w: World) => RanFrom(DeletePod(w)),
             Some((w: World) => ValidateRestart(w, key)), None)
  }

  // ------------------------------------------------------------ crashloopbackoff.go

  function TakeReplicas(w: World, key: Key): E.Snapshotted<World, Snap> {
    var r := DeploymentReplicas(w, key);
    match r.result
    case Ok(n) => E.Snapshotted(r.world, Some(n), None)
    case Err(e) => E.Snapshotted(r.world, Some(0), Some(e))
  }

  /** Down to zero, two seconds, and back up to what was read first. */
  function ScaleDownAndUp(w: World, key: Key): E.Ran<World> {
    var n := DeploymentReplicas(w, key);
    match n.result
    case Err(e) => E.Ran(n.world, "", Some(e))
    case Ok(original) =>
      var down := ScaleDeployment(n.world, key, 0);
      match down.result
      case Err(e) => E.Ran(down.world, "", Some(e))
      case Ok(_) => RanFrom(ScaleDeployment(down.world.(now := down.world.now + 2), key, original))
  }

  function RestoreReplicas(w: World, key: Key, n: Snap): E.RolledBack<World> {
    var r := ScaleDeployment(w, key, n);
    E.RolledBack(r.world, if r.result.Err? then Some(r.result.error) else None)
  }

  function ScaleAction(description: string, key: Key): Action {
    E.Action(SCALE, description, Medium,
             Some((w: World) => TakeReplicas(w, key)),
             (w: World) => ScaleDownAndUp(w, key),
             Some((w: World) => WaitReady(w, key, 60)),
             Some((w: World, n: Snap) => RestoreReplicas(w, key, n)))
  }

  function RolloutAction(description: string, key: Key): Action {
    E.Action(ROLLOUT, description, Medium, None, (w: World) => RanFrom(RolloutRestart(w, key)),
             Some((w: World) => WaitReady(w, key, 90)), None)
  }

  /** The owning deployment, when Diagnose could find it and its name is not empty. */
  function Owner(namespace: string, meta: Meta): Option<Key> {
    if "deployment" in meta && meta["deployment"] != "" then Some(Key(namespace, meta["deployment"])) else None
  }

  function CrashLoopActions(d: seq<string>, key: Option<Key>): seq<Action>
    requires |d| == 3
  {
    if key.None? then [RestartPodAction(d[0], key)]
    else [RestartPodAction(d[0], key), ScaleAction(d[1], key.value), RolloutAction(d[2], key.value)]
  }

  // ------------------------------------------------------------ what a rung does to replica counts

  /** No deployment but `key` differs, nor does its replica count. */
  ghost predicate KeepsReplicas(w: World, v: World, key: Key) {
    && KeepsOthers(w, v, key)
    && (key in w.deployments ==> v.deployments[key].replicas == w.deployments[key].replicas)
  }

  ghost predicate KeepsOthers(w: World, v: World, key: Key) {
    && v.fate == w.fate
    && v.deployments.Keys == w.deployments.Keys
    && (forall k | k in w.deployments && k != key :: v.deployments[k] == w.deployments[k])
  }

  lemma {:induction false} WaitingTouchesNothing(check: World -> Poll, w: World, deadline: nat)
    requires Monotone(check) && Harmless(check)
    ensures Untouched(w, WaitForSpec(check, w, deadline).world)
    decreases if w.now <= deadline then deadline - w.now + 1 else 0
  {
    var p := check(w);
    assert Untouched(w, p.world);
    if !(p.err.Some? || p.ok || p.world.now > deadline || Upcoming(p.world).done) {
      WaitingTouchesNothing(check, Slept(p.world), deadline);
    }
  }

  lemma WaitReadyTouchesNothing(w: World, key: Key, timeout: nat)
    ensures Untouched(w, WaitReady(w, key, timeout).world)
  {
    hide WaitForSpec, ReadyPoll;
    var want := DeploymentReplicas(w, key);
    if want.result.Ok? {
      WaitingTouchesNothing(ReadyPoll(key, want.result.value), want.world, want.world.now + timeout);
    }
  }

  lemma ValidateRestartTouchesNothing(w: World, key: Option<Key>)
    ensures Untouched(w, ValidateRestart(w, key).world)
  {
    hide WaitForSpec, WaitReady;
    WaitingTouchesNothing(GonePoll(), w, w.now + 30);
    if key.Some? {
      WaitReadyTouchesNothing(WaitForSpec(GonePoll(), w, w.now + 30).world, key.value, 60);
    }
  }

  lemma RestartTouchesNothing(rd: E.Redactor<Snap>, description: string, key: Option<Key>, w: World)
    ensures Untouched(w, E.RunOneSpec(rd, RestartPodAction(description, key), w).0)
  {
    hide ValidateRestart;
    ValidateRestartTouchesNothing(DeletePod(w).world, key);
  }

  /** The rollout rung rolls the deployment out once, when its read and its update both work, and
      changes nothing else. */
  lemma RolloutKeepsReplicas(rd: E.Redactor<Snap>, description: string, key: Key, w: World)
    ensures var v := E.RunOneSpec(rd, RolloutAction(description, key), w).0;
            && KeepsReplicas(w, v, key)
            && (key in w.deployments ==>
                  var was := w.deployments[key];
                  v.deployments[key]
                  == if FailsAt(w, 0) || FailsAt(w, 1) then was else was.(rollouts := was.rollouts + 1))
  {
    hide WaitReady;
    var ran := RolloutRestart(w, key);
    assert KeepsReplicas(w, ran.world, key);
    if key in w.deployments && !FailsAt(w, 0) && !FailsAt(w, 1) {
      var was := w.deployments[key];
      assert ran.world.deployments[key] == was.(rollouts := was.rollouts + 1);
    }
    WaitReadyTouchesNothing(ran.world, key, 90);
  }

  /** API call number i from here on fails. */
  predicate FailsAt(w: World, i: nat) {
    w.fate(w.calls + i).err.Some?
  }

  /** The failure patterns that lose the count: everything works down to zero, then the way
      back up fails in its read or its update, and so does the rollback. */
  predicate LosesReplicas(w: World, key: Key) {
    && key in w.deployments && Desired(w.deployments[key]) != 0
    && !FailsAt(w, 0) && !FailsAt(w, 1) && !FailsAt(w, 2) && !FailsAt(w, 3)
    && (if FailsAt(w, 4) then FailsAt(w, 5) || FailsAt(w, 6)
        else FailsAt(w, 5) && (FailsAt(w, 6) || FailsAt(w, 7)))
  }

  /** An attempt whose error ends in a rollback failure, and which was not rolled back. */
  ghost predicate ReportsLostRollback(rd: E.Redactor<Snap>, t: E.Attempt<Snap>) {
    t.action == SCALE && !t.validated && !t.rolledBack && E.ReportsFailedRollback(rd, t)
  }

  lemma ScalingEither(w: World, key: Key, n: int)
    requires key in w.deployments
    ensures var r := ScaleDeployment(w, key, n);
            && KeepsOthers(w, r.world, key)
            && (r.result.Ok? <==> !FailsAt(w, 0) && !FailsAt(w, 1))
            && (r.result.Ok? ==> Desired(r.world.deployments[key]) == n)
            && (r.result.Err? ==> r.world.deployments == w.deployments)
            && r.world.calls == w.calls + (if FailsAt(w, 0) then 1 else 2)
  {
  }

  lemma DownAndUp(w: World, key: Key)
    requires key in w.deployments
    ensures var n, r := Desired(w.deployments[key]), ScaleDownAndUp(w, key);
            && KeepsOthers(w, r.world, key)
            && (r.err.None? ==> Desired(r.world.deployments[key]) == n)
            && (r.err.Some? && Desired(r.world.deployments[key]) != n ==> Desired(r.world.deployments[key]) == 0)
            && (r.err.Some? && Desired(r.world.deployments[key]) != n <==>
                  && n != 0 && !FailsAt(w, 0) && !FailsAt(w, 1) && !FailsAt(w, 2)
                  && (FailsAt(w, 3) || FailsAt(w, 4)))
            && (r.err.Some? && Desired(r.world.deployments[key]) != n ==>
                  r.world.calls == w.calls + (if FailsAt(w, 3) then 4 else 5))
  {
    var read := DeploymentReplicas(w, key);
    if read.result.Ok? {
      ScalingEither(read.world, key, 0);
      var down := ScaleDeployment(read.world, key, 0);
      if down.result.Ok? {
        ScalingEither(down.world.(now := down.world.now + 2), key, read.result.value);
      }
    }
  }

  lemma RestoreEither(rd: E.Redactor<Snap>, description: string, key: Key, n: int, t: E.Attempt<Snap>, w: World)
    requires key in w.deployments && t.action == SCALE && !t.validated && !t.rolledBack
    ensures var (v, t1) := E.RollbackSpec(rd, ScaleAction(description, key), Some(n), t, w);
            && KeepsOthers(w, v, key)
            && (FailsAt(w, 0) || FailsAt(w, 1) ==> v.deployments == w.deployments && ReportsLostRollback(rd, t1))
            && (!FailsAt(w, 0) && !FailsAt(w, 1) ==> Desired(v.deployments[key]) == n)
  {
    ScalingEither(w, key, n);
    var r := RestoreReplicas(w, key, n);
    if r.err.Some? {
      assert E.RollbackSpec(rd, ScaleAction(description, key), Some(n), t, w).1.err
          == rd.text(t.err + E.ROLLBACK_FAILED + r.err.value);
    }
  }

  /** The scale rung once its snapshot has been taken. */
  lemma ScaleAfterSnapshot(rd: E.Redactor<Snap>, description: string, key: Key, t: E.Attempt<Snap>, w: World)
    requires key in w.deployments && t.action == SCALE && !t.validated && !t.rolledBack
    ensures var n := Desired(w.deployments[key]);
            var (v, t1) := E.AfterSnapshot(rd, ScaleAction(description, key), Some(n), t, w);
            && KeepsOthers(w, v, key)
            && (if n != 0 && !FailsAt(w, 0) && !FailsAt(w, 1) && !FailsAt(w, 2)
                   && (if FailsAt(w, 3) then FailsAt(w, 4) || FailsAt(w, 5)
                       else FailsAt(w, 4) && (FailsAt(w, 5) || FailsAt(w, 6)))
                then Desired(v.deployments[key]) == 0 && ReportsLostRollback(rd, t1)
                else Desired(v.deployments[key]) == n)
  {
    var n := Desired(w.deployments[key]);
    DownAndUp(w, key);
    var ran := ScaleDownAndUp(w, key);
    hide ScaleDownAndUp, WaitReady, E.RollbackSpec;
    var t1 := t.(output := rd.text(ran.output));
    if ran.err.Some? {
      RestoreEither(rd, description, key, n, t1.(err := rd.text(ran.err.value)), ran.world);
    } else {
      var v := WaitReady(ran.world, key, 60);
      WaitReadyTouchesNothing(ran.world, key, 60);
      if !v.healthy {
        var t2 := t1.(err := if v.err.Some? then rd.text(v.err.value) else t1.err, validated := false);
        RestoreEither(rd, description, key, n, t2, v.world);
      }
    }
  }

  /** The scale rung under every failure pattern. */
  lemma ScaleRung(rd: E.Redactor<Snap>, description: string, key: Key, w: World)
    requires key in w.deployments
    ensures var (v, t) := E.RunOneSpec(rd, ScaleAction(description, key), w);
            && KeepsOthers(w, v, key)
            && (LosesReplicas(w, key) ==> Desired(v.deployments[key]) == 0 && ReportsLostRollback(rd, t))
            && (!LosesReplicas(w, key) ==> Desired(v.deployments[key]) == Desired(w.deployments[key]))
  {
    var a, n := ScaleAction(description, key), Desired(w.deployments[key]);
    var taken := TakeReplicas(w, key);
    if taken.err.None? {
      hide E.AfterSnapshot;
      ScaleAfterSnapshot(rd, description, key, E.Blank(a).(snapshot := Some(rd.state(n))), taken.world);
    }
  }

  // ------------------------------------------------------------ the ladder

  /** The world in which the scale rung starts, and what the restart recorded. */
  function AfterRestart(rd: E.Redactor<Snap>, d: seq<string>, key: Key, w: World): (World, E.Attempt<Snap>)
    requires |d| == 3
  {
    E.RunOneSpec(rd, RestartPodAction(d[0], Some(key)), w)
  }

  function AfterScale(rd: E.Redactor<Snap>, d: seq<string>, key: Key, w: World): (World, E.Attempt<Snap>)
    requires |d| == 3
  {
    E.RunOneSpec(rd, ScaleAction(d[1], key), AfterRestart(rd, d, key, w).0)
  }

  function AfterRollout(rd: E.Redactor<Snap>, d: seq<string>, key: Key, w: World): (World, E.Attempt<Snap>)
    requires |d| == 3
  {
    E.RunOneSpec(rd, RolloutAction(d[2], key), AfterScale(rd, d, key, w).0)
  }

  lemma LadderUnfolds(rd: E.Redactor<Snap>, d: seq<string>, key: Key, w: World)
    requires |d| == 3
    ensures var (w1, t1) := AfterRestart(rd, d, key, w);
            var (w2, t2) := AfterScale(rd, d, key, w);
            var (w3, t3) := AfterRollout(rd, d, key, w);
            E.Climb(rd, CrashLoopActions(d, Some(key)), w) ==
              if t1.validated then (w1, true, [t1])
              else if t2.validated then (w2, true, [t1, t2])
              else (w3, t3.validated, [t1, t2, t3])
  {
    E.ClimbThree(rd, RestartPodAction(d[0], Some(key)), ScaleAction(d[1], key), RolloutAction(d[2], key), w);
    hide E.RunOneSpec, E.Climb;
  }

  /** What the three rungs, taken apart, do to the deployment. */
  lemma RungsOnReplicas(rd: E.Redactor<Snap>, d: seq<string>, key: Key, w: World)
    requires |d| == 3 && key in w.deployments
    ensures Untouched(w, AfterRestart(rd, d, key, w).0)
    ensures var (w1, w2, t2) := (AfterRestart(rd, d, key, w).0, AfterScale(rd, d, key, w).0, AfterScale(rd, d, key, w).1);
            && KeepsOthers(w, w2, key)
            && (LosesReplicas(w1, key) ==> Desired(w2.deployments[key]) == 0 && ReportsLostRollback(rd, t2))
            && (!LosesReplicas(w1, key) ==> Desired(w2.deployments[key]) == Desired(w.deployments[key]))
    ensures KeepsReplicas(AfterScale(rd, d, key, w).0, AfterRollout(rd, d, key, w).0, key)
  {
    RestartTouchesNothing(rd, d[0], Some(key), w);
    ScaleRung(rd, d[1], key, AfterRestart(rd, d, key, w).0);
    RolloutKeepsReplicas(rd, d[2], key, AfterScale(rd, d, key, w).0);
    hide E.RunOneSpec, ScaleAction, RolloutAction, RestartPodAction, LosesReplicas;
  }

  /** Replica conservation under every failure pattern of the cluster API: the whole ladder
      leaves the deployment's desired count - and every other deployment - as it was, unless
      the scale rung was reached and lost it, and then the count is 0 and that attempt
      reports a failed rollback. */
  lemma ReplicasAreConserved(rd: E.Redactor<Snap>, d: seq<string>, key: Key, w: World)
    requires |d| == 3 && key in w.deployments
    ensures var (v, resolved, ts) := E.Climb(rd, CrashLoopActions(d, Some(key)), w);
            var (w1, t1) := AfterRestart(rd, d, key, w);
            && KeepsOthers(w, v, key)
            && (Desired(v.deployments[key]) != Desired(w.deployments[key]) <==> !t1.validated && LosesReplicas(w1, key))
            && (Desired(v.deployments[key]) != Desired(w.deployments[key]) ==>
                  Desired(v.deployments[key]) == 0 && |ts| == 3 && ReportsLostRollback(rd, ts[1]))
  {
    hide E.RunOneSpec, E.Climb, CrashLoopActions, AfterRestart, AfterScale, AfterRollout;
    LadderUnfolds(rd, d, key, w);
    RungsOnReplicas(rd, d, key, w);
  }

  /** The next four API calls succeed: the rollout's read and update, the read of how many
      replicas are wanted, and the first read of how many are ready. */
  predicate NextFourWork(w: World) {
    !FailsAt(w, 0) && !FailsAt(w, 1) && !FailsAt(w, 2) && !FailsAt(w, 3)
  }

  /** With no replica wanted, waiting is over at the first poll, one way or the other. */
  lemma NoneWanted(w: World, key: Key, timeout: nat)
    requires key in w.deployments && Desired(w.deployments[key]) == 0
    ensures WaitReady(w, key, timeout).healthy <==> !FailsAt(w, 0) && !FailsAt(w, 1)
  {
    var want := DeploymentReplicas(w, key);
    if want.result.Ok? {
      var p := ReadyPoll(key, 0)(want.world);
      assert p == ReadyOnce(want.world, key, 0);
      assert p.ok && (p.err.Some? <==> FailsAt(w, 1));
    }
  }

  lemma RolloutEither(w: World, key: Key)
    requires key in w.deployments
    ensures var r := RolloutRestart(w, key);
            && KeepsReplicas(w, r.world, key)
            && (r.result.Ok? <==> !FailsAt(w, 0) && !FailsAt(w, 1))
            && (r.result.Ok? ==> r.world.calls == w.calls + 2)
  {
  }

  lemma RolloutOfNone(rd: E.Redactor<Snap>, description: string, key: Key, w: World)
    requires key in w.deployments && Desired(w.deployments[key]) == 0
    ensures E.RunOneSpec(rd, RolloutAction(description, key), w).1.validated <==> NextFourWork(w)
  {
    hide WaitReady, RolloutRestart;
    RolloutEither(w, key);
    var ran := RolloutRestart(w, key);
    if ran.result.Ok? {
      NoneWanted(ran.world, key, 90);
    }
  }

  /** A ladder reported resolved has its replicas back - unless the scale rung lost them and
      the four calls of the last rung then worked: that rung asks for as many ready replicas
      as it finds wanted, which is now none. Exactly then is the report false. */
  lemma FalselyResolvedIff(rd: E.Redactor<Snap>, d: seq<string>, key: Key, w: World)
    requires |d| == 3 && key in w.deployments
    ensures var (v, resolved, _) := E.Climb(rd, CrashLoopActions(d, Some(key)), w);
            && key in v.deployments
            && (resolved && Desired(v.deployments[key]) != Desired(w.deployments[key])
                <==> && !AfterRestart(rd, d, key, w).1.validated
                     && LosesReplicas(AfterRestart(rd, d, key, w).0, key)
                     && NextFourWork(AfterScale(rd, d, key, w).0))
  {
    hide E.RunOneSpec, E.Climb, CrashLoopActions, RestartPodAction, ScaleAction, RolloutAction,
         LosesReplicas, NextFourWork;
    LadderUnfolds(rd, d, key, w);
    RungsOnReplicas(rd, d, key, w);
    ReplicasAreConserved(rd, d, key, w);
    var w2 := AfterScale(rd, d, key, w).0;
    if Desired(w2.deployments[key]) == 0 {
      RolloutOfNone(rd, d[2], key, w2);
    }
  }

  /** An API that fails its first, sixth and seventh call, and reads no ready replica. */
  function Unlucky(key: Key, n: int): World {
    World(map[key := Deployment(Some(n), 0, 0)], 0, 0,
          (i: nat) => Fate(if i == 0 || i == 5 || i == 6 then Some("unavailable") else None, 0, 0, false, None, false))
  }

  lemma UnluckyRestart(rd: E.Redactor<Snap>, d: seq<string>, key: Key, n: int)
    requires |d| == 3
    ensures AfterRestart(rd, d, key, Unlucky(key, n)).0 == Unlucky(key, n).(calls := 1)
    ensures !AfterRestart(rd, d, key, Unlucky(key, n)).1.validated
  {
  }

  lemma UnluckyScale(rd: E.Redactor<Snap>, description: string, key: Key, n: int)
    requires n != 0
    ensures LosesReplicas(Unlucky(key, n).(calls := 1), key)
    ensures NextFourWork(E.RunOneSpec(rd, ScaleAction(description, key), Unlucky(key, n).(calls := 1)).0)
  {
    var w := Unlucky(key, n).(calls := 1);
    var taken := TakeReplicas(w, key);
    assert taken.world.calls == 2 && taken.snap == Some(n);
    var down := ScaleDeployment(DeploymentReplicas(taken.world, key).world, key, 0);
    assert down.world.calls == 5 && down.result.Ok?;
    var ran := ScaleDownAndUp(taken.world, key);
    assert ran.world.calls == 6 && ran.err.Some?;
    var back := RestoreReplicas(ran.world, key, n);
    assert back.world.calls == 7 && back.err.Some?;
    assert E.RunOneSpec(rd, ScaleAction(description, key), w).0 == back.world;
  }

  /** It happens, from any count but zero. */
  lemma FalseResolutionExists(rd: E.Redactor<Snap>, d: seq<string>, key: Key, n: int)
    requires |d| == 3 && n != 0
    ensures exists w: World :: key in w.deployments && Desired(w.deployments[key]) == n
                        && var (v, resolved, _) := E.Climb(rd, CrashLoopActions(d, Some(key)), w);
                           resolved && key in v.deployments && Desired(v.deployments[key]) == 0
  {
    var w := Unlucky(key, n);
    UnluckyRestart(rd, d, key, n);
    UnluckyScale(rd, d[1], key, n);
    hide E.RunOneSpec, E.Climb, CrashLoopActions, RestartPodAction, ScaleAction, RolloutAction,
         LosesReplicas, NextFourWork;
    FalselyResolvedIff(rd, d, key, w);
    ReplicasAreConserved(rd, d, key, w);
    assert key in w.deployments && Desired(w.deployments[key]) == n;
  }

  // ------------------------------------------------------------ the ladder as a transaction

  /** What the CrashLoopBackOff ladder is there to keep: one deployment's desired count. */
  function DesiredAt(key: Key): World -> Option<int> {
    (w: World) => if key in w.deployments then Some(Desired(w.deployments[key])) else None
  }

  function Keeps<T>(): T -> T {
    (t: T) => t
  }

  lemma RestartIsDisciplined<T>(description: string, key: Option<Key>, track: World -> T)
    requires forall w: World, v: World :: Untouched(w, v) ==> track(w) == track(v)
    ensures E.Disciplined(RestartPodAction(description, key), track, Keeps())
  {
    var a := RestartPodAction(description, key);
    forall w: World
      ensures track(a.run(w).world) == track(w) && track(a.validate.value(w).world) == track(w)
    {
      assert a.run(w) == RanFrom(DeletePod(w)) && Untouched(w, a.run(w).world);
      assert a.validate.value(w) == ValidateRestart(w, key);
      ValidateRestartTouchesNothing(w, key);
    }
    hide ValidateRestart, RestartPodAction;
  }

  lemma RolloutKeepsDesired(w: World, key: Key)
    ensures DesiredAt(key)(RolloutRestart(w, key).world) == DesiredAt(key)(w)
    ensures DesiredAt(key)(WaitReady(w, key, 90).world) == DesiredAt(key)(w)
  {
    WaitReadyTouchesNothing(w, key, 90);
    hide WaitReady;
  }

  lemma RolloutIsDisciplined(description: string, key: Key)
    ensures E.Disciplined(RolloutAction(description, key), DesiredAt(key), Keeps())
  {
    hide WaitReady, RolloutRestart, DesiredAt;
    var a, track := RolloutAction(description, key), DesiredAt(key);
    forall w: World
      ensures track(a.run(w).world) == track(w) && track(a.validate.value(w).world) == track(w)
    {
      RolloutKeepsDesired(w, key);
    }
    hide RolloutAction;
  }

  lemma RunKeepsDesired(w: World, key: Key)
    ensures ScaleDownAndUp(w, key).err.None? ==> DesiredAt(key)(ScaleDownAndUp(w, key).world) == DesiredAt(key)(w)
  {
    if key in w.deployments {
      DownAndUp(w, key);
      hide ScaleDownAndUp;
    }
  }

  lemma RestoringWorks(w: World, v: World, key: Key)
    ensures var s := TakeReplicas(w, key);
            && DesiredAt(key)(s.world) == DesiredAt(key)(w)
            && s.snap.Some?
            && (s.err.None? ==>
                  var r := RestoreReplicas(v, key, s.snap.value);
                  r.err.None? ==> DesiredAt(key)(r.world) == DesiredAt(key)(w))
  {
  }

  /** The scale rung is as its snapshot and rollback mean it to be, in all worlds. */
  lemma ScaleIsDisciplined(description: string, key: Key)
    ensures E.Disciplined(ScaleAction(description, key), DesiredAt(key), Keeps())
  {
    hide WaitReady, ScaleDownAndUp, TakeReplicas, RestoreReplicas;
    var a, track := ScaleAction(description, key), DesiredAt(key);
    forall w: World
      ensures track(a.snapshot.value(w).world) == track(w) && a.snapshot.value(w).snap.Some?
      ensures track(a.validate.value(w).world) == track(w)
      ensures a.run(w).err.None? ==> track(a.run(w).world) == track(w)
    {
      RestoringWorks(w, w, key);
      RunKeepsDesired(w, key);
      WaitReadyTouchesNothing(w, key, 60);
    }
    forall w: World, v: World
      ensures E.Restores(a, track, w, v)
    {
      RestoringWorks(w, v, key);
    }
    hide ScaleAction, DesiredAt;
  }

  lemma CrashLoopIsDisciplined(d: seq<string>, key: Key)
    requires |d| == 3
    ensures E.AllDisciplined(CrashLoopActions(d, Some(key)), DesiredAt(key), [Keeps(), Keeps(), Keeps()])
  {
    hide E.Disciplined, RestartPodAction, ScaleAction, RolloutAction;
    RestartIsDisciplined(d[0], Some(key), DesiredAt(key));
    ScaleIsDisciplined(d[1], key);
    RolloutIsDisciplined(d[2], key);
  }

  /** Whatever fails, and wherever it starts: unless some attempt's record reports a failed
      rollback, the CrashLoopBackOff ladder keeps the desired count it found. */
  lemma CrashLoopIsATransaction(rd: E.Redactor<Snap>, d: seq<string>, key: Key, w: World)
    requires |d| == 3
    ensures var actions := CrashLoopActions(d, Some(key));
            var (v, resolved, ts) := E.Climb(rd, actions, w);
            && (E.NothingLeft(actions, ts) ==> DesiredAt(key)(v) == DesiredAt(key)(w))
            && (!E.NothingLeft(actions, ts) ==> exists t :: t in ts && !t.validated && E.ReportsFailedRollback(rd, t))
  {
    hide E.Climb, E.NothingLeft, E.ReportsFailedRollback, E.Disciplined, CrashLoopActions, DesiredAt;
    CrashLoopIsDisciplined(d, key);
    E.LadderKeeps(rd, CrashLoopActions(d, Some(key)), DesiredAt(key), [Keeps(), Keeps(), Keeps()], w);
  }

  // ------------------------------------------------------------ oomkilled.go

  /** Raise the limit, then roll it out. */
  function RaiseMemory(w: World, key: Key, factor: real): E.Ran<World> {
    var raised := IncreaseMemoryLimit(w, key, factor);
    match raised.result
    case Err(e) => E.Ran(raised.world, "", Some(e))
    case Ok(_) =>
      var rolled := RolloutRestart(raised.world, key);
      match rolled.result
      case Err(e) => E.Ran(rolled.world, "done", Some(e))
      case Ok(_) => E.Ran(rolled.world, "done", None)
  }

  /** No snapshot, no validation, no rollback: Run's own verdict stands. */
  function MemoryAction(description: string, key: Key, factor: real): Action {
    E.Action(MORE_MEMORY, description, High, None, (w: World) => RaiseMemory(w, key, factor), None, None)
  }

  /** A factor that is not positive means the default, +50%. */
  function Factor(configured: real): real {
    if configured > 0.0 then configured else 1.5
  }

  function OOMActions(d: seq<string>, configured: real, key: Option<Key>): seq<Action>
    requires |d| == 2
  {
    if key.None? then [RestartPodAction(d[0], key)]
    else [RestartPodAction(d[0], key), MemoryAction(d[1], key.value, Factor(configured))]
  }

  type Deployments = map<Key, Deployment>

  function AllDeployments(): World -> Deployments {
    (w: World) => w.deployments
  }

  function OOMEffects(key: Option<Key>): seq<Deployments -> Deployments> {
    if key.None? then [Keeps()] else [Keeps(), Keeps()]
  }

  lemma OOMIsDisciplined(d: seq<string>, configured: real, key: Option<Key>)
    requires |d| == 2
    ensures E.AllDisciplined(OOMActions(d, configured, key), AllDeployments(), OOMEffects(key))
    ensures forall i | 0 <= i < |OOMActions(d, configured, key)| :: OOMActions(d, configured, key)[i].snapshot.None?
  {
    OOMShape(d, configured, key);
    hide E.Disciplined, RestartPodAction, OOMActions, E.AllDisciplined, AllDeployments;
    DeploymentsUntouched();
    RestartIsDisciplined(d[0], key, AllDeployments());
    E.OnlyFirstMatters(OOMActions(d, configured, key), AllDeployments(), OOMEffects(key));
  }

  lemma DeploymentsUntouched()
    ensures forall w: World, v: World :: Untouched(w, v) ==> AllDeployments()(w) == AllDeployments()(v)
  {
  }

  lemma OOMShape(d: seq<string>, configured: real, key: Option<Key>)
    requires |d| == 2
    ensures var actions := OOMActions(d, configured, key);
            && |actions| == |OOMEffects(key)| && actions[0] == RestartPodAction(d[0], key)
            && (key.Some? ==> actions[1].risk == High)
            && (forall i | 0 <= i < |actions| :: actions[i].snapshot.None?)
  {
  }

  /** Climbed automatically, the OOMKilled ladder changes no deployment at all: only its first
      rung is ever run. */
  lemma OOMLadderChangesNothing(rd: E.Redactor<Snap>, d: seq<string>, configured: real, key: Option<Key>, w: World)
    requires |d| == 2
    ensures E.Climb(rd, OOMActions(d, configured, key), w).0.deployments == w.deployments
  {
    OOMIsDisciplined(d, configured, key);
    hide E.Climb, E.AllDisciplined, E.NothingLeft, OOMActions;
    E.LadderKeeps(rd, OOMActions(d, configured, key), AllDeployments(), OOMEffects(key), w);
    E.NoSnapshotsNothingLeft(OOMActions(d, configured, key), E.Climb(rd, OOMActions(d, configured, key), w).2);
  }

  /** Both playbooks record the owner only if they could find it. */
  function WithOwner(sig: Signal, owner: Replied<string>): Finding {
    Finding(sig, "", if owner.result.Ok? then map["deployment" := owner.result.value] else map[])
  }

  function DiagnoseOOM(w: World, sig: Signal): Diagnosed<World> {
    var info := ReadPod(w);
    match info.result
    case Err(e) => Diagnosed(info.world, Err(e))
    case Ok(_) =>
      var owner := OwningDeploymentName(info.world);
      var seen := if owner.result.Ok? then GetDeployment(owner.world, Key(sig.namespace, owner.result.value)).world
                  else owner.world;
      Diagnosed(seen, Ok(WithOwner(sig, owner)))
  }

  function DiagnoseCrashLoop(w: World, sig: Signal): Diagnosed<World> {
    var count := ReadPod(w);
    match count.result
    case Err(e) => Diagnosed(count.world, Err(e))
    case Ok(_) =>
      var owner := OwningDeploymentName(count.world);
      Diagnosed(owner.world, Ok(WithOwner(sig, owner)))
  }

  const NO_DEPLOYMENT := "original incident has no deployment recorded"

  function RecheckOOM(d: seq<string>, configured: real, w: World, sig: Signal, meta: Meta): Rechecked<World, Snap>
    requires |d| == 2
  {
    var owner := Owner(sig.namespace, meta);
    if owner.None? then Rechecked(w, Err(NO_DEPLOYMENT))
    else
      var want := DeploymentReplicas(w, owner.value);
      match want.result
      case Err(e) => Rechecked(want.world, Err(e))
      case Ok(n) =>
        var ready := DeploymentReadyReplicas(want.world, owner.value);
        match ready.result
        case Err(e) => Rechecked(ready.world, Err(e))
        case Ok(r) =>
          if r >= n then Rechecked(ready.world, Ok(None))
          else Rechecked(ready.world, Ok(Some(OOMActions(d, configured, owner))))
  }

  const OOM_ID := "core/oomkilled"
  const CRASHLOOP_ID := "core/crashloopbackoff"

  function OOMKilled(d: seq<string>, configured: real): Playbook<World, Snap>
    requires |d| == 2
  {
    Playbook(OOM_ID, (sig: Signal) => sig.kind == "PodOOMKilled",
             (w: World, sig: Signal) => DiagnoseOOM(w, sig),
             (f: Finding) => OOMActions(d, configured, Owner(f.signal.namespace, f.meta)),
             Some((w: World, sig: Signal, meta: Meta) => RecheckOOM(d, configured, w, sig, meta)))
  }

  function CrashLoopBackOff(d: seq<string>): Playbook<World, Snap>
    requires |d| == 3
  {
    Playbook(CRASHLOOP_ID, (sig: Signal) => sig.kind == "PodCrashLoopBackOff",
             (w: World, sig: Signal) => DiagnoseCrashLoop(w, sig),
             (f: Finding) => CrashLoopActions(d, Owner(f.signal.namespace, f.meta)),
             None)
  }
}
