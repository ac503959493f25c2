/** What it takes for a core rung to be validated: the API calls its waiting makes, read one by
    one, and what the last of them said. */
module Readiness {
  import opened Wrappers
  import opened Policy
  import opened Cluster
  import opened CoreK8s
  import opened Records
  import E = ExecEngine

  /** A check that is one API call, and changes nothing. */
  ghost predicate OneCall(check: World -> Poll) {
    forall w: World :: check(w).world.calls == w.calls + 1 && Untouched(w, check(w).world)
  }

  /** Polls are every other call - in between, the loop sleeps or finds its context done - and no
      call is made after the last one but that. */
  lemma {:induction false} PollsAreCalls(check: World -> Poll, w: World, deadline: nat)
    requires Monotone(check) && OneCall(check)
    ensures var polls, r := Polls(check, w, deadline), WaitForSpec(check, w, deadline);
            && Untouched(w, r.world)
            && (forall i | 0 <= i < |polls| :: polls[i].calls == w.calls + 2 * i && Untouched(w, polls[i]))
            && (r.world.calls == w.calls + 2 * |polls| - 1
                || (r.world.calls == w.calls + 2 * |polls| && !r.ok && r.err.Some?))
            && (r.ok ==> r.err.None?) && (r.err.None? ==> r.world == check(polls[|polls| - 1]).world)
    decreases if w.now <= deadline then deadline - w.now + 1 else 0
  {
    var p := check(w);
    assert Untouched(w, p.world) && p.world.calls == w.calls + 1;
    if !(p.err.Some? || p.ok || p.world.now > deadline || Upcoming(p.world).done) {
      var next := Slept(p.world);
      assert next.calls == w.calls + 2 && Untouched(w, next);
      PollsAreCalls(check, next, deadline);
      var rest := Polls(check, next, deadline);
      forall i | 0 <= i < |[w] + rest|
        ensures ([w] + rest)[i].calls == w.calls + 2 * i && Untouched(w, ([w] + rest)[i])
      {
        if i > 0 {
          assert ([w] + rest)[i] == rest[i - 1];
        }
      }
    }
  }

  // ------------------------------------------------------------ waiting for replicas

  /** API call number i works, and reads at least as many ready replicas as are wanted: one, when
      the deployment does not say. */
  predicate ReadsReady(w: World, key: Key, i: nat) {
    && key in w.deployments && w.fate(i).err.None?
    && w.fate(i).ready >= if w.deployments[key].replicas.Some? then w.deployments[key].replicas.value else 1
  }

  lemma ReadyIsOneCall(key: Key, want: int)
    ensures OneCall(ReadyPoll(key, want)) && Monotone(ReadyPoll(key, want))
  {
  }

  lemma ReadyPollSays(key: Key, want: int, w: World)
    ensures var p := ReadyPoll(key, want)(w);
            && (p.err.Some? <==> w.fate(w.calls).err.Some? || key !in w.deployments)
            && (p.err.None? ==> (p.ok <==> w.fate(w.calls).ready >= want))
  {
  }

  /** The wait that went from w to v made its read number j: calls 1, 3, 5 ... */
  predicate ReadMade(w: World, v: World, j: nat) {
    w.calls + 1 + 2 * j < v.calls
  }

  /** Polling from v on, one call after w: poll j is the read number j, and all of it is made. */
  lemma PollsAreReads(w: World, v: World, key: Key, deadline: nat)
    requires key in w.deployments && Untouched(w, v) && v.calls == w.calls + 1
    ensures var n := Desired(w.deployments[key]);
            var check := ReadyPoll(key, n);
            var polls, r := Polls(check, v, deadline), WaitForSpec(check, v, deadline);
            && Untouched(w, r.world) && r.world.calls > w.calls + 1 && polls != []
            && (forall j: nat :: ReadMade(w, r.world, j) <==> j < |polls|)
            && (r.err.None? ==> r.world.calls == w.calls + 2 * |polls|)
            && (forall j: nat | j < |polls| ::
                  && (check(polls[j]).err.Some? <==> w.fate(w.calls + 1 + 2 * j).err.Some?)
                  && (check(polls[j]).ok && check(polls[j]).err.None? <==> ReadsReady(w, key, w.calls + 1 + 2 * j)))
  {
    var n := Desired(w.deployments[key]);
    var check := ReadyPoll(key, n);
    ReadyIsOneCall(key, n);
    PollsAreCalls(check, v, deadline);
    WaitForIsBounded(check, v, deadline);
    hide WaitForSpec, ReadyPoll, Polls;
    var polls := Polls(check, v, deadline);
    forall j: nat | j < |polls|
      ensures check(polls[j]).err.Some? <==> w.fate(w.calls + 1 + 2 * j).err.Some?
      ensures check(polls[j]).ok && check(polls[j]).err.None? <==> ReadsReady(w, key, w.calls + 1 + 2 * j)
    {
      ReadyPollSays(key, n, polls[j]);
    }
  }

  /** The wait, call by call. Call 0 reads how many replicas are wanted, calls 1, 3, 5 ... how many
      are ready. It ends healthy if and only if one of the reads it made worked and found enough,
      and that one was its last call; each read but the last worked and found too few. It gives up
      without an error only after the whole timeout, and makes no more reads than timeout + 2. */
  lemma WaitReadyIff(w: World, key: Key, timeout: nat)
    ensures var r := WaitReady(w, key, timeout);
            && Untouched(w, r.world) && r.world.calls > w.calls
            && (r.healthy <==> exists j: nat :: ReadMade(w, r.world, j) && ReadsReady(w, key, w.calls + 1 + 2 * j))
            && (r.healthy ==> r.err.None? && ReadsReady(w, key, r.world.calls - 1))
            && (forall j: nat | ReadMade(w, r.world, j) && ReadMade(w, r.world, j + 1) ::
                  w.fate(w.calls + 1 + 2 * j).err.None? && !ReadsReady(w, key, w.calls + 1 + 2 * j))
            && (!r.healthy && r.err.None? ==> r.world.now > w.now + w.fate(w.calls).latency + timeout)
            && r.world.calls <= w.calls + 1 + 2 * (timeout + 2)
  {
    hide WaitForSpec, ReadyPoll, Polls;
    var want := DeploymentReplicas(w, key);
    if want.result.Ok? {
      var v, n := want.world, Desired(w.deployments[key]);
      assert v == Elapsed(w) && want.result.value == n;
      var check, deadline := ReadyPoll(key, n), v.now + timeout;
      var polls, r := Polls(check, v, deadline), WaitForSpec(check, v, deadline);
      PollsAreReads(w, v, key, deadline);
      ReadyIsOneCall(key, n);
      PollsAreCalls(check, v, deadline);
      WaitForIsBounded(check, v, deadline);
      assert WaitReady(w, key, timeout) == E.Validated(r.world, r.ok, r.err);
      var last := |polls| - 1;
      assert ReadMade(w, r.world, last) && (r.ok <==> ReadsReady(w, key, w.calls + 1 + 2 * last));
      forall j: nat | ReadMade(w, r.world, j) && j != last
        ensures w.fate(w.calls + 1 + 2 * j).err.None? && !ReadsReady(w, key, w.calls + 1 + 2 * j)
      {
        assert check(polls[j]).err.None? && !check(polls[j]).ok;
      }
    }
  }

  // ------------------------------------------------------------ waiting for a pod to go

  /** The wait that went from w to v looked for the pod a j-th time: calls 0, 2, 4 ... */
  predicate LookMade(w: World, v: World, j: nat) {
    w.calls + 2 * j < v.calls
  }

  lemma GoneIsOneCall()
    ensures OneCall(GonePoll())
  {
  }

  lemma GonePollSays(w: World)
    ensures GonePoll()(w) == Poll(Elapsed(w), w.fate(w.calls).podGone, None)
  {
  }

  /** It is gone if and only if one look found it so, and that was the last. */
  lemma GoneIff(w: World)
    ensures var r := WaitForSpec(GonePoll(), w, w.now + 30);
            && Untouched(w, r.world) && r.world.calls > w.calls
            && (r.ok <==> exists j: nat :: LookMade(w, r.world, j) && w.fate(w.calls + 2 * j).podGone)
            && (r.ok ==> r.err.None? && w.fate(r.world.calls - 1).podGone)
            && (!r.ok && r.err.None? ==> r.world.now > w.now + 30)
            && r.world.calls <= w.calls + 64
  {
    var check, deadline := GonePoll(), w.now + 30;
    hide WaitForSpec, GonePoll, Polls;
    GoneIsOneCall();
    PollsAreCalls(check, w, deadline);
    WaitForIsBounded(check, w, deadline);
    var polls, r := Polls(check, w, deadline), WaitForSpec(check, w, deadline);
    var last := |polls| - 1;
    GonePollSays(polls[last]);
    assert LookMade(w, r.world, last) && (r.ok <==> w.fate(w.calls + 2 * last).podGone);
    forall j: nat | LookMade(w, r.world, j) && j != last
      ensures !w.fate(w.calls + 2 * j).podGone
    {
      GonePollSays(polls[j]);
    }
  }

  /** The restart's validation: within 30 seconds the pod must be gone, in a world u; then, with a
      known owner, within 60 the owner must be ready. */
  lemma ValidateRestartIff(w: World, key: Option<Key>) returns (u: World)
    ensures var r := ValidateRestart(w, key);
            && Untouched(w, u) && w.calls < u.calls <= w.calls + 64 && Untouched(w, r.world)
            && (if exists j: nat :: LookMade(w, u, j) && w.fate(w.calls + 2 * j).podGone then
                  && w.fate(u.calls - 1).podGone
                  && (key.None? ==> r == E.Validated(u, true, None))
                  && (key.Some? ==>
                        && u.calls < r.world.calls <= u.calls + 125
                        && (r.healthy <==> exists j: nat ::
                              ReadMade(u, r.world, j) && ReadsReady(u, key.value, u.calls + 1 + 2 * j))
                        && (r.healthy ==> r.err.None? && ReadsReady(r.world, key.value, r.world.calls - 1))
                        && (!r.healthy && r.err.None? ==> r.world.now > u.now + u.fate(u.calls).latency + 60))
                else
                  !r.healthy && r.world == u && (r.err.None? ==> u.now > w.now + 30))
  {
    GoneIff(w);
    var gone := WaitForSpec(GonePoll(), w, w.now + 30);
    u := gone.world;
    if gone.ok && key.Some? {
      WaitReadyIff(u, key.value, 60);
    }
    hide WaitForSpec, WaitReady, GonePoll;
  }

  // ------------------------------------------------------------ the rungs, and the ladder

  /** The rung ended with an API call that worked, and read at least as many ready replicas as
      the deployment wants. */
  predicate EndedReady(v: World, key: Key) {
    v.calls > 0 && ReadsReady(v, key, v.calls - 1)
  }

  lemma ValidateRestartEndsReady(w: World, key: Key)
    ensures var r := ValidateRestart(w, Some(key)); r.healthy ==> EndedReady(r.world, key)
  {
    hide ValidateRestart;
    var u := ValidateRestartIff(w, Some(key));
  }

  lemma RestartHealthy(description: string, key: Key, w: World)
    ensures var a := RestartPodAction(description, Some(key));
            && !SnapshotFails(a, w) && !RollsBack(a, w)
            && (Healthy(a, w) ==> !FailsAt(w, 0) && EndedReady(Before(a, w), key))
  {
    hide ValidateRestart, EndedReady;
    ValidateRestartEndsReady(Elapsed(w), key);
    var a := RestartPodAction(description, Some(key));
    assert a.run(w) == RanFrom(DeletePod(w)) && a.run(w).world == Elapsed(w);
    assert a.validate.value(Elapsed(w)) == ValidateRestart(Elapsed(w), Some(key));
  }

  lemma RestartEndsReady(rd: E.Redactor<Snap>, description: string, key: Key, w: World)
    ensures var (v, t) := E.RunOneSpec(rd, RestartPodAction(description, Some(key)), w);
            t.validated ==> !FailsAt(w, 0) && EndedReady(v, key)
  {
    hide *;
    RecordSays(rd, RestartPodAction(description, Some(key)), w);
    RestartHealthy(description, key, w);
  }

  lemma WaitReadyEndsReady(w: World, key: Key, timeout: nat)
    ensures var r := WaitReady(w, key, timeout); r.healthy ==> EndedReady(r.world, key)
  {
    hide WaitReady;
    WaitReadyIff(w, key, timeout);
  }

  lemma ScaleHealthy(description: string, key: Key, w: World)
    ensures var a := ScaleAction(description, key); Healthy(a, w) ==> EndedReady(Before(a, w), key)
  {
    hide WaitReady, EndedReady, ScaleDownAndUp, TakeReplicas, RestoreReplicas;
    var a := ScaleAction(description, key);
    var u := a.run(AtRun(a, w)).world;
    assert a.validate.value(u) == WaitReady(u, key, 60);
    WaitReadyEndsReady(u, key, 60);
  }

  lemma ScaleEndsReady(rd: E.Redactor<Snap>, description: string, key: Key, w: World)
    ensures var (v, t) := E.RunOneSpec(rd, ScaleAction(description, key), w);
            t.validated ==> EndedReady(v, key)
  {
    hide *;
    RecordSays(rd, ScaleAction(description, key), w);
    ScaleHealthy(description, key, w);
    HealthyStays(ScaleAction(description, key), w);
  }

  lemma RolloutHealthy(description: string, key: Key, w: World)
    ensures var a := RolloutAction(description, key);
            && !SnapshotFails(a, w) && (Healthy(a, w) ==> EndedReady(Before(a, w), key))
  {
    hide WaitReady, EndedReady, RolloutRestart;
    var a := RolloutAction(description, key);
    var u := a.run(w).world;
    assert a.validate.value(u) == WaitReady(u, key, 90);
    WaitReadyEndsReady(u, key, 90);
  }

  lemma RolloutEndsReady(rd: E.Redactor<Snap>, description: string, key: Key, w: World)
    ensures var (v, t) := E.RunOneSpec(rd, RolloutAction(description, key), w);
            t.validated ==> EndedReady(v, key)
  {
    hide *;
    RecordSays(rd, RolloutAction(description, key), w);
    RolloutHealthy(description, key, w);
    HealthyStays(RolloutAction(description, key), w);
  }

  lemma HealthyStays<W, S>(a: E.Action<W, S>, w: W)
    ensures Healthy(a, w) ==> !RollsBack(a, w)
  {
  }

  /** A CrashLoopBackOff ladder with a known owner that is reported resolved ended with a call that
      worked, and read at least as many ready replicas as the owner then wants. */
  lemma ResolvedEndedReady(rd: E.Redactor<Snap>, d: seq<string>, key: Key, w: World)
    requires |d| == 3
    ensures var (v, resolved, _) := E.Climb(rd, CrashLoopActions(d, Some(key)), w);
            resolved ==> EndedReady(v, key)
  {
    hide E.RunOneSpec, E.Climb, CrashLoopActions, RestartPodAction, ScaleAction, RolloutAction, EndedReady;
    LadderUnfolds(rd, d, key, w);
    RestartEndsReady(rd, d[0], key, w);
    ScaleEndsReady(rd, d[1], key, AfterRestart(rd, d, key, w).0);
    RolloutEndsReady(rd, d[2], key, AfterScale(rd, d, key, w).0);
  }

  lemma RestartIsSafe(description: string, key: Option<Key>)
    ensures RestartPodAction(description, key).risk == Safe
  {
  }

  /** The OOMKilled ladder climbs to its restart only. */
  lemma OOMResolvedEndedReady(rd: E.Redactor<Snap>, d: seq<string>, configured: real, key: Key, w: World)
    requires |d| == 2
    ensures var (v, resolved, _) := E.Climb(rd, OOMActions(d, configured, Some(key)), w);
            resolved ==> EndedReady(v, key)
  {
    hide E.RunOneSpec, EndedReady, RestartPodAction, Factor;
    var a, b := RestartPodAction(d[0], Some(key)), MemoryAction(d[1], key, Factor(configured));
    assert a.risk != High by {
      RestartIsSafe(d[0], Some(key));
    }
    RestartEndsReady(rd, d[0], key, w);
    assert [a] + [b] == [a, b] == OOMActions(d, configured, Some(key));
    E.ClimbStep(rd, a, [b], w);
  }

  /** How long the scale and the rollout rung wait. */
  lemma RungsArePatient(description: string, key: Key, w: World)
    ensures var r := ScaleAction(description, key).validate.value(w);
            && (!r.healthy && r.err.None? ==> r.world.now > w.now + 60) && r.world.calls <= w.calls + 125
    ensures var r := RolloutAction(description, key).validate.value(w);
            && (!r.healthy && r.err.None? ==> r.world.now > w.now + 90) && r.world.calls <= w.calls + 185
  {
    WaitReadyIff(w, key, 60);
    WaitReadyIff(w, key, 90);
    hide WaitReady;
  }
}
