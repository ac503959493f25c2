/** What the lease bound means for runs of the fleet: a stretch of a run in which one session's
    heartbeat loop is the only writer of its cluster's record. */
module Leases {
  import opened Wrappers
  import opened Registry
  import opened Sessions

  /** The ends of one loop's heartbeat calls between two points of a run. */
  function BeatsOf(states: seq<State>, steps: seq<Step>, m: nat, n: nat, sid: SessionID): seq<Registry.Beat>
    requires m <= n <= |steps| < |states|
  {
    if n == m then []
    else BeatsOf(states, steps, m, n - 1, sid) + BeatIn(states[n - 1], steps[n - 1], sid)
  }

  function BeatIn(s: State, step: Step, sid: SessionID): seq<Registry.Beat> {
    if step.Beat? && step.sid == sid then [Registry.Beat(s.now, step.ok)] else []
  }

  /** In between, every write or removal of the cluster's record is that loop's. */
  ghost predicate OnlyLoop(ttl: nat, states: seq<State>, steps: seq<Step>, m: nat, n: nat, sid: SessionID, c: ClusterID)
    requires IsRun(ttl, states, steps) && m <= n <= |steps|
  {
    forall i | m <= i < n && Added(states[i], steps[i]) != [] && Added(states[i], steps[i])[0].cluster == c ::
      steps[i].Beat? && steps[i].sid == sid
  }

  lemma BeatWritesAppend(beats: seq<Registry.Beat>, beat: Registry.Beat, c: ClusterID, b: Addr, ttl: nat, now: nat)
    ensures BeatWrites(beats + [beat], c, b, ttl, now)
         == BeatWrites(beats, c, b, ttl, now) + (if beat.ok && beat.time < now then [Write(beat.time, c, b, ttl)] else [])
  {
    assert (beats + [beat])[..|beats|] == beats;
  }

  /** A window that reaches past every beat sees them all. */
  lemma {:induction false} LaterWindow(beats: seq<Registry.Beat>, c: ClusterID, b: Addr, ttl: nat, now: nat, later: nat)
    requires now <= later && forall i | 0 <= i < |beats| :: beats[i].time < now
    ensures BeatWrites(beats, c, b, ttl, later) == BeatWrites(beats, c, b, ttl, now)
  {
    if beats != [] {
      LaterWindow(beats[..|beats| - 1], c, b, ttl, now, later);
    }
  }

  lemma TimeGoesOn(s: State, step: Step)
    requires Enabled(s, step)
    ensures s.now <= Next(s, step).now && Next(s, step).ttl == s.ttl
  {
  }

  lemma OnClusterAppend(log: seq<Op>, more: seq<Op>, c: ClusterID)
    requires |more| <= 1
    ensures OnCluster(log + more, c) == OnCluster(log, c) + (if more != [] && more[0].cluster == c then more else [])
  {
    if more == [] {
      assert log + more == log;
    } else {
      assert (log + more)[..|log|] == log;
    }
  }

  lemma StepOnCluster(s: State, step: Step, sid: SessionID)
    requires Enabled(s, step) && sid in s.sessions
    requires var c := s.sessions[sid].cluster;
             Added(s, step) != [] && Added(s, step)[0].cluster == c ==> step.Beat? && step.sid == sid
    ensures var x := s.sessions[sid];
            OnCluster(Next(s, step).log, x.cluster) == OnCluster(s.log, x.cluster)
              + (if step.Beat? && step.sid == sid && step.ok then [Write(s.now, x.cluster, x.replica, s.ttl)] else [])
  {
    StepAdds(s, step);
    hide Next, Enabled;
    OnClusterAppend(s.log, Added(s, step), s.sessions[sid].cluster);
  }

  lemma StepKeepsOnlyLoop(s: State, step: Step, sid: SessionID, pre: seq<Op>, beats: seq<Registry.Beat>)
    requires Enabled(s, step) && sid in s.sessions
    requires var c := s.sessions[sid].cluster;
             Added(s, step) != [] && Added(s, step)[0].cluster == c ==> step.Beat? && step.sid == sid
    requires var x := s.sessions[sid];
             OnlyLoopWrites(s.log, pre, beats, x.cluster, x.replica, s.ttl, s.now + 1)
    requires forall i | 0 <= i < |beats| :: beats[i].time <= s.now
    ensures var x, t := s.sessions[sid], Next(s, step);
            OnlyLoopWrites(t.log, pre, beats + BeatIn(s, step, sid), x.cluster, x.replica, s.ttl, t.now + 1)
    ensures var all := beats + BeatIn(s, step, sid); forall i | 0 <= i < |all| :: all[i].time <= Next(s, step).now
  {
    hide Next, Enabled, OnCluster, BeatWrites;
    var x, t := s.sessions[sid], Next(s, step);
    TimeGoesOn(s, step);
    StepOnCluster(s, step, sid);
    LaterWindow(beats, x.cluster, x.replica, s.ttl, s.now + 1, t.now + 1);
    if step.Beat? && step.sid == sid {
      BeatWritesAppend(beats, Registry.Beat(s.now, step.ok), x.cluster, x.replica, s.ttl, t.now + 1);
    } else {
      assert beats + BeatIn(s, step, sid) == beats;
    }
  }

  /** Such a stretch of a run is what the lease bound is about: nobody but the loop has written
      or forgotten the cluster, up to and including now. */
  lemma {:induction false} RunHasOnlyLoopWrites(
      ttl: nat, states: seq<State>, steps: seq<Step>, m: nat, n: nat, sid: SessionID)
    requires IsRun(ttl, states, steps) && m <= n <= |steps| && sid in states[m].sessions
    requires OnlyLoop(ttl, states, steps, m, n, sid, states[m].sessions[sid].cluster)
    ensures sid in states[n].sessions && SlotOf(states[n].sessions[sid]) == SlotOf(states[m].sessions[sid])
    ensures states[n].ttl == ttl
    ensures var x, beats := states[m].sessions[sid], BeatsOf(states, steps, m, n, sid);
            && (forall i | 0 <= i < |beats| :: beats[i].time <= states[n].now)
            && OnlyLoopWrites(states[n].log, states[m].log, beats, x.cluster, x.replica, ttl, states[n].now + 1)
  {
    hide Next, Enabled, OnCluster, Added, BeatIn;
    if n == m {
      RunIsSound(ttl, states, steps, n);
    } else {
      hide OnlyLoopWrites;
      RunHasOnlyLoopWrites(ttl, states, steps, m, n - 1, sid);
      SessionsAreFixed(states[n - 1], steps[n - 1]);
      TimeGoesOn(states[n - 1], steps[n - 1]);
      StepKeepsOnlyLoop(states[n - 1], steps[n - 1], sid, states[m].log, BeatsOf(states, steps, m, n - 1, sid));
    }
  }

  lemma LastOk(beats: seq<Registry.Beat>) returns (n: nat)
    requires exists i :: 0 <= i < |beats| && beats[i].ok
    ensures n < |beats| && beats[n].ok && forall i | n < i < |beats| :: !beats[i].ok
  {
    n := |beats| - 1;
    while !beats[n].ok
      invariant n < |beats| && forall i | n < i < |beats| :: !beats[i].ok
      invariant exists i :: 0 <= i <= n && beats[i].ok
      decreases n
    {
      n := n - 1;
    }
  }

  /** Handover in a run, whatever the record was at its start - left by another replica, erased
      by its late Forget, or expired: once the only loop writing a cluster has succeeded, and
      as long as it never fails more than k times in a row, every lookup finds its replica. */
  lemma LeaseHoldsInRun(ttl: nat, states: seq<State>, steps: seq<Step>, m: nat, n: nat, sid: SessionID,
                        t0: nat, interval: nat, delay: nat, k: nat)
    requires IsRun(ttl, states, steps) && m <= n <= |steps| && sid in states[m].sessions
    requires OnlyLoop(ttl, states, steps, m, n, sid, states[m].sessions[sid].cluster)
    requires var beats := BeatsOf(states, steps, m, n, sid);
             && Paced(beats, t0, interval, delay) && FailsAtMost(beats, k)
             && (exists i :: 0 <= i < |beats| && beats[i].ok)
             && states[n].now <= t0 + |beats| * interval + delay
    requires (k + 1) * interval + delay <= ttl
    ensures var x := states[m].sessions[sid];
            Lookup(states[n].records, x.cluster, states[n].now) == Some(x.replica)
  {
    hide Next, Enabled, OnCluster, Paced, FailsAtMost, BeatWrites, BeatsOf;
    var x, beats, s := states[m].sessions[sid], BeatsOf(states, steps, m, n, sid), states[n];
    RunHasOnlyLoopWrites(ttl, states, steps, m, n, sid);
    RunIsSound(ttl, states, steps, n);
    var last := LastOk(beats);
    LastOnCluster(s.log, x.cluster);
    LastBeatWrite(OnCluster(states[m].log, x.cluster), beats, x.cluster, x.replica, ttl, s.now + 1, last);
    GapIsBounded(beats, t0, interval, delay, k, s.now, last);
    LookupReadsHistory(s.log, x.cluster, s.now);
  }
}
