/** The escalation ladder: run actions in order, validate, roll back what did not help.

    An action's closures act on the outside world. They are modelled as total functions
    of a world W - which holds whatever decides whether they fail - to the next world
    and their return values, so every failure pattern is some W. */
module ExecEngine {
  import opened Wrappers
  import opened Policy

  const MAX_ACTIONS := 3

  /** Snapshot's (State, error); the State may be Go's nil map. */
  datatype Snapshotted<W, S> = Snapshotted(world: W, snap: Option<S>, err: Option<string>)

  /** Run's (output, error). */
  datatype Ran<W> = Ran(world: W, output: string, err: Option<string>)

  /** Validate's (healthy, error): both sides count, even together. */
  datatype Validated<W> = Validated(world: W, healthy: bool, err: Option<string>)

  datatype RolledBack<W> = RolledBack(world: W, err: Option<string>)

  /** One rung. A closure that is None is a nil func; Run is never nil here. */
  datatype Action<!W, !S> = Action(
    name: string,
    description: string,
    risk: Risk,
    snapshot: Option<W -> Snapshotted<W, S>>,
    run: W -> Ran<W>,
    validate: Option<W -> Validated<W>>,
    rollback: Option<(W, S) -> RolledBack<W>>)

  /** The scrubbers of internal/redact: any functions. */
  datatype Redactor<!S> = Redactor(text: string -> string, state: S -> S)

  datatype Attempt<S> = Attempt(
    action: string, description: string, risk: Risk, output: string, err: string,
    snapshot: Option<S>, validated: bool, rolledBack: bool, skipped: bool)

  datatype Ladder<!W, !S> = Ladder(playbookID: string, actions: seq<Action<W, S>>)

  datatype RunResult<S> = RunResult(playbookID: string, resolved: bool, attempts: seq<Attempt<S>>)

  const SNAPSHOT_FAILED := "snapshot failed: "
  const ROLLBACK_FAILED := "; rollback failed: "
  const NEEDS_APPROVAL := "ação de alto risco — não executada automaticamente, requer aprovação manual"

  // ------------------------------------------------------------ specification

  function Blank<W, S>(a: Action<W, S>): Attempt<S> {
    Attempt(a.name, a.description, a.risk, "", "", None, false, false, false)
  }

  function Skip<W, S>(a: Action<W, S>): Attempt<S> {
    Blank(a).(skipped := true, err := NEEDS_APPROVAL)
  }

  /** rollback: nothing to do without a closure or a snapshot. */
  function RollbackSpec<W, S>(rd: Redactor<S>, a: Action<W, S>, snap: Option<S>, t: Attempt<S>, w: W): (W, Attempt<S>) {
    if a.rollback.None? || snap.None? then (w, t)
    else
      var r := a.rollback.value(w, snap.value);
      match r.err
      case Some(e) => (r.world, t.(err := rd.text(t.err + ROLLBACK_FAILED + e)))
      case None => (r.world, t.(rolledBack := true))
  }

  /** runOne after a successful snapshot, or without one. */
  function AfterSnapshot<W, S>(rd: Redactor<S>, a: Action<W, S>, snap: Option<S>, t: Attempt<S>, w: W): (W, Attempt<S>) {
    var ran := a.run(w);
    var t1 := t.(output := rd.text(ran.output));
    if ran.err.Some? then RollbackSpec(rd, a, snap, t1.(err := rd.text(ran.err.value)), ran.world)
    else
      var v := if a.validate.Some? then a.validate.value(ran.world) else Validated(ran.world, true, None);
      var t2 := t1.(err := if v.err.Some? then rd.text(v.err.value) else t1.err, validated := v.healthy);
      if v.healthy then (v.world, t2) else RollbackSpec(rd, a, snap, t2, v.world)
  }

  function RunOneSpec<W, S>(rd: Redactor<S>, a: Action<W, S>, w: W): (W, Attempt<S>) {
    if a.snapshot.None? then AfterSnapshot(rd, a, None, Blank(a), w)
    else
      var s := a.snapshot.value(w);
      if s.err.Some? then (s.world, Blank(a).(err := rd.text(SNAPSHOT_FAILED + s.err.value)))
      else
        var t := Blank(a).(snapshot := if s.snap.Some? then Some(rd.state(s.snap.value)) else None);
        AfterSnapshot(rd, a, s.snap, t, s.world)
  }

  /** The ladder's loop: final world, whether resolved, and the attempts recorded. */
  function Climb<W, S>(rd: Redactor<S>, actions: seq<Action<W, S>>, w: W): (W, bool, seq<Attempt<S>>) {
    if actions == [] then (w, false, [])
    else if actions[0].risk == High then (w, false, [Skip(actions[0])])
    else
      var (w1, t) := RunOneSpec(rd, actions[0], w);
      if t.validated then (w1, true, [t])
      else
        Onto([t], Climb(rd, actions[1..], w1))
  }

  function Onto<W, S>(before: seq<Attempt<S>>, r: (W, bool, seq<Attempt<S>>)): (W, bool, seq<Attempt<S>>) {
    (r.0, r.1, before + r.2)
  }

  lemma OntoNothing<W, S>(r: (W, bool, seq<Attempt<S>>))
    ensures Onto([], r) == r
  {
    assert [] + r.2 == r.2;
  }

  lemma OntoOnto<W, S>(before: seq<Attempt<S>>, t: Attempt<S>, r: (W, bool, seq<Attempt<S>>))
    ensures Onto(before, Onto([t], r)) == Onto(before + [t], r)
  {
    assert before + ([t] + r.2) == before + [t] + r.2;
  }

  // ------------------------------------------------------------ the engine

  /** The world the closures act on. */
  class Live<W> {
    var world: W

    constructor (world: W)
      ensures this.world == world
    {
      this.world := world;
    }
  }

  method Rollback<W, S>(live: Live<W>, rd: Redactor<S>, a: Action<W, S>, snap: Option<S>, t: Attempt<S>)
    returns (attempt: Attempt<S>)
    modifies live
    ensures (live.world, attempt) == RollbackSpec(rd, a, snap, t, old(live.world))
  {
    attempt := t;
    if a.rollback.None? || snap.None? {
      return;
    }
    var r := a.rollback.value(live.world, snap.value);
    live.world := r.world;
    if r.err.Some? {
      attempt := attempt.(err := rd.text(attempt.err + ROLLBACK_FAILED + r.err.value));
      return;
    }
    attempt := attempt.(rolledBack := true);
  }

  method RunOne<W, S>(live: Live<W>, rd: Redactor<S>, a: Action<W, S>) returns (attempt: Attempt<S>)
    modifies live
    ensures (live.world, attempt) == RunOneSpec(rd, a, old(live.world))
  {
    attempt := Blank(a);
    var snap: Option<S> := None;
    if a.snapshot.Some? {
      var s := a.snapshot.value(live.world);
      live.world := s.world;
      if s.err.Some? {
        attempt := attempt.(err := rd.text(SNAPSHOT_FAILED + s.err.value));
        return;
      }
      snap := s.snap;
      attempt := attempt.(snapshot := if snap.Some? then Some(rd.state(snap.value)) else None);
    }

    var ran := a.run(live.world);
    live.world := ran.world;
    attempt := attempt.(output := rd.text(ran.output));
    if ran.err.Some? {
      attempt := attempt.(err := rd.text(ran.err.value));
      attempt := Rollback(live, rd, a, snap, attempt);
      return;
    }

    var healthy := true;
    if a.validate.Some? {
      var v := a.validate.value(live.world);
      live.world := v.world;
      healthy := v.healthy;
      if v.err.Some? {
        attempt := attempt.(err := rd.text(v.err.value));
      }
    }
    attempt := attempt.(validated := healthy);
    if !healthy {
      attempt := Rollback(live, rd, a, snap, attempt);
    }
  }

  datatype LadderError = NoActions | TooManyActions

  /** `Run`: an empty or overlong ladder is refused with nothing touched. */
  method Run<W, S>(live: Live<W>, rd: Redactor<S>, ladder: Ladder<W, S>) returns (r: Result<RunResult<S>, LadderError>)
    modifies live
    ensures r.Err? <==> ladder.actions == [] || |ladder.actions| > MAX_ACTIONS
    ensures r.Err? ==> r.error == if ladder.actions == [] then NoActions else TooManyActions
    ensures r.Err? ==> live.world == old(live.world)
    ensures r.Ok? ==>
              var (w, resolved, attempts) := Climb(rd, ladder.actions, old(live.world));
              live.world == w && r.value == RunResult(ladder.playbookID, resolved, attempts)
  {
    if |ladder.actions| == 0 {
      return Err(NoActions);
    }
    if |ladder.actions| > MAX_ACTIONS {
      return Err(TooManyActions);
    }
    ghost var start := live.world;
    var result := RunResult(ladder.playbookID, false, []);
    assert ladder.actions[0..] == ladder.actions;
    OntoNothing(Climb(rd, ladder.actions, start));
    for i := 0 to |ladder.actions|
      invariant result.playbookID == ladder.playbookID && !result.resolved
      invariant Climb(rd, ladder.actions, start) == Onto(result.attempts, Climb(rd, ladder.actions[i..], live.world))
    {
      var action := ladder.actions[i];
      assert ladder.actions[i..][0] == action && ladder.actions[i..][1..] == ladder.actions[i + 1..];
      if action.risk == High {
        result := result.(attempts := result.attempts + [Skip(action)]);
        return Ok(result);
      }
      ghost var before := result.attempts;
      var attempt := RunOne(live, rd, action);
      result := result.(attempts := result.attempts + [attempt]);
      if attempt.validated {
        result := result.(resolved := true);
        return Ok(result);
      }
      OntoOnto(before, attempt, Climb(rd, ladder.actions[i + 1..], live.world));
    }
    return Ok(result);
  }

  /** `RunApproved`: one action, whatever its risk. */
  method RunApproved<W, S>(live: Live<W>, rd: Redactor<S>, a: Action<W, S>) returns (attempt: Attempt<S>)
    modifies live
    ensures (live.world, attempt) == RunOneSpec(rd, a, old(live.world))
  {
    attempt := RunOne(live, rd, a);
  }

  /** The loop, one rung at a time. */
  lemma ClimbStep<W, S>(rd: Redactor<S>, a: Action<W, S>, rest: seq<Action<W, S>>, w: W)
    requires a.risk != High
    ensures var (w1, t) := RunOneSpec(rd, a, w);
            Climb(rd, [a] + rest, w) == if t.validated then (w1, true, [t]) else Onto([t], Climb(rd, rest, w1))
  {
    hide RunOneSpec;
    assert ([a] + rest)[1..] == rest;
  }

  /** A whole ladder of three rungs none of which is high. */
  lemma ClimbThree<W, S>(rd: Redactor<S>, a: Action<W, S>, b: Action<W, S>, c: Action<W, S>, w: W)
    requires a.risk != High && b.risk != High && c.risk != High
    ensures var (w1, t1) := RunOneSpec(rd, a, w);
            var (w2, t2) := RunOneSpec(rd, b, w1);
            var (w3, t3) := RunOneSpec(rd, c, w2);
            Climb(rd, [a, b, c], w) ==
              if t1.validated then (w1, true, [t1])
              else if t2.validated then (w2, true, [t1, t2])
              else (w3, t3.validated, [t1, t2, t3])
  {
    hide RunOneSpec;
    var (w1, t1) := RunOneSpec(rd, a, w);
    var (w2, t2) := RunOneSpec(rd, b, w1);
    var (w3, t3) := RunOneSpec(rd, c, w2);
    assert [a, b, c] == [a] + ([b] + ([c] + []));
    ClimbStep(rd, c, [], w2);
    ClimbStep(rd, b, [c] + [], w1);
    ClimbStep(rd, a, [b] + ([c] + []), w);
    assert [t3] + [] == [t3] && [t2] + [t3] == [t2, t3] && [t1] + [t2, t3] == [t1, t2, t3] && [t1] + [t2] == [t1, t2];
  }

  // ------------------------------------------------------------ only the winner commits

  /** The rungs before the first high-risk one. */
  function BeforeHigh<W, S>(actions: seq<Action<W, S>>): seq<Action<W, S>> {
    if actions == [] || actions[0].risk == High then [] else [actions[0]] + BeforeHigh(actions[1..])
  }

  /** `track` is the part of the world under repair, `effect` what a successful Run of the
      action does to it. Snapshots and validations only look; a snapshot that succeeds is
      not nil; a rollback that succeeds restores what its snapshot saw; an action that
      cannot be rolled back leaves the tracked part alone. Any of them may fail. */
  ghost predicate Disciplined<W(!new), S(!new), T>(a: Action<W, S>, track: W -> T, effect: T -> T) {
    && (a.snapshot.Some? ==>
          forall w :: track(a.snapshot.value(w).world) == track(w)
                      && (a.snapshot.value(w).err.None? ==> a.snapshot.value(w).snap.Some?))
    && (a.validate.Some? ==> forall w :: track(a.validate.value(w).world) == track(w))
    && (forall w :: a.run(w).err.None? ==> track(a.run(w).world) == effect(track(w)))
    && (if a.snapshot.Some? && a.rollback.Some? then forall w, v :: Restores(a, track, w, v)
        else forall w :: track(a.run(w).world) == track(w))
  }

  /** Rolling back in `v`, if it works, gives what a snapshot that worked in `w` saw. */
  ghost predicate Restores<W(!new), S(!new), T>(a: Action<W, S>, track: W -> T, w: W, v: W)
    requires a.snapshot.Some? && a.rollback.Some?
  {
    var s := a.snapshot.value(w);
    s.err.None? && s.snap.Some? ==>
      var r := a.rollback.value(v, s.snap.value);
      r.err.None? ==> track(r.world) == track(w)
  }

  /** Discipline is only asked of the rungs a ladder can come to. */
  ghost predicate AllDisciplined<W(!new), S(!new), T>(actions: seq<Action<W, S>>, track: W -> T, effects: seq<T -> T>) {
    |effects| == |actions|
    && forall i | 0 <= i < |actions| && i < |BeforeHigh(actions)| :: Disciplined(actions[i], track, effects[i])
  }

  /** Read off its record alone, an attempt left nothing behind: it had nothing to undo, never
      got past its snapshot, or was rolled back. */
  predicate LeftNothing<W, S>(a: Action<W, S>, t: Attempt<S>) {
    a.snapshot.None? || a.rollback.None? || t.skipped || t.snapshot.None? || t.rolledBack
  }

  ghost predicate ReportsFailedRollback<S>(rd: Redactor<S>, t: Attempt<S>) {
    exists before, e :: t.err == rd.text(before + ROLLBACK_FAILED + e)
  }

  lemma UndoEither<W(!new), S(!new), T>(rd: Redactor<S>, a: Action<W, S>, track: W -> T, effect: T -> T,
                                        snap: Option<S>, t: Attempt<S>, w: W, start: W)
    requires Disciplined(a, track, effect) && !t.rolledBack && !t.skipped
    requires t.snapshot.Some? <==> snap.Some?
    requires a.snapshot.Some? ==> a.snapshot.value(start).err.None? && a.snapshot.value(start).snap == snap
    requires a.snapshot.None? || a.rollback.None? ==> (a.snapshot.None? ==> snap.None?) && track(w) == track(start)
    ensures var (w1, t1) := RollbackSpec(rd, a, snap, t, w);
            && (LeftNothing(a, t1) ==> track(w1) == track(start))
            && (!LeftNothing(a, t1) ==> ReportsFailedRollback(rd, t1))
            && t1.validated == t.validated && t1.action == t.action && t1.risk == t.risk && !t1.skipped
            && t1.snapshot == t.snapshot
  {
    if a.snapshot.Some? && a.rollback.Some? {
      assert Restores(a, track, start, w);
      var r := a.rollback.value(w, snap.value);
      assert r.err.Some? ==> RollbackSpec(rd, a, snap, t, w).1.err == rd.text(t.err + ROLLBACK_FAILED + r.err.value);
    }
  }

  /** One rung: validated, it leaves its whole effect; otherwise it leaves the tracked part as
      it was, or its record reports a failed rollback. */
  lemma OneRungCommitsOrUndoes<W(!new), S(!new), T>(rd: Redactor<S>, a: Action<W, S>, track: W -> T, effect: T -> T, w: W)
    requires Disciplined(a, track, effect)
    ensures var (w1, t) := RunOneSpec(rd, a, w);
            && (t.validated ==> track(w1) == effect(track(w)))
            && (!t.validated && LeftNothing(a, t) ==> track(w1) == track(w))
            && (!t.validated && !LeftNothing(a, t) ==> ReportsFailedRollback(rd, t))
            && t.action == a.name && t.risk == a.risk && !t.skipped
  {
    hide RollbackSpec, LeftNothing;
    var snap, t, w0 := None, Blank(a), w;
    if a.snapshot.Some? {
      var s := a.snapshot.value(w);
      if s.err.Some? {
        SnapshotFailed(rd, a, w);
        return;
      }
      snap, w0 := s.snap, s.world;
      t := t.(snapshot := if s.snap.Some? then Some(rd.state(s.snap.value)) else None);
    }
    var ran := a.run(w0);
    var t1 := t.(output := rd.text(ran.output));
    if ran.err.Some? {
      UndoEither(rd, a, track, effect, snap, t1.(err := rd.text(ran.err.value)), ran.world, w);
    } else {
      var v := if a.validate.Some? then a.validate.value(ran.world) else Validated(ran.world, true, None);
      assert track(v.world) == track(ran.world);
      if !v.healthy {
        var t2 := t1.(err := if v.err.Some? then rd.text(v.err.value) else t1.err, validated := v.healthy);
        UndoEither(rd, a, track, effect, snap, t2, v.world, w);
      }
    }
  }

  lemma SnapshotFailed<W, S>(rd: Redactor<S>, a: Action<W, S>, w: W)
    requires a.snapshot.Some? && a.snapshot.value(w).err.Some?
    ensures RunOneSpec(rd, a, w).0 == a.snapshot.value(w).world && LeftNothing(a, RunOneSpec(rd, a, w).1)
  {
  }

  /** Every attempt that did not resolve the incident left nothing behind, by the record. */
  predicate NothingLeft<W, S>(actions: seq<Action<W, S>>, attempts: seq<Attempt<S>>) {
    forall i | 0 <= i < |actions| && i < |attempts| :: attempts[i].validated || LeftNothing(actions[i], attempts[i])
  }

  /** The attempts are the ladder's first rungs in order, all but the last of them failures. */
  predicate InOrder<W, S>(actions: seq<Action<W, S>>, r: (W, bool, seq<Attempt<S>>)) {
    && |r.2| <= |actions|
    && (forall i | 0 <= i < |r.2| :: r.2[i].action == actions[i].name && r.2[i].risk == actions[i].risk)
    && (forall i | 0 <= i < |r.2| - 1 :: !r.2[i].validated && !r.2[i].skipped)
    && (!r.1 ==> forall i | 0 <= i < |r.2| :: !r.2[i].validated)
    && (r.1 ==> |r.2| > 0 && r.2[|r.2| - 1].validated && r.2[|r.2| - 1].risk != High)
  }

  /** That much holds of every ladder, disciplined or not. */
  lemma {:induction false} ClimbIsInOrder<W, S>(rd: Redactor<S>, actions: seq<Action<W, S>>, w: W)
    ensures InOrder(actions, Climb(rd, actions, w))
  {
    if actions != [] && actions[0].risk != High {
      NamesItsAction(rd, actions[0], w);
      hide RunOneSpec;
      var (w1, t) := RunOneSpec(rd, actions[0], w);
      if !t.validated {
        ClimbIsInOrder(rd, actions[1..], w1);
        InOrderInFront(actions, t, Climb(rd, actions[1..], w1));
      }
    }
  }

  lemma NamesItsAction<W, S>(rd: Redactor<S>, a: Action<W, S>, w: W)
    ensures var t := RunOneSpec(rd, a, w).1; t.action == a.name && t.risk == a.risk && !t.skipped
  {
  }

  /** The outcome of a ladder on the tracked state: unresolved, it is what it was; resolved,
      it is the initial state transformed by the last action attempted, the one winner. */
  ghost predicate CommitsOnlyWinner<W(!new), S(!new), T>(
    track: W -> T, effects: seq<T -> T>, w: W, r: (W, bool, seq<Attempt<S>>))
    requires r.1 ==> 0 < |r.2| <= |effects|
  {
    track(r.0) == if r.1 then effects[|r.2| - 1](track(w)) else track(w)
  }

  /** The ladder as a transaction, as if no rung before the winner had run - or else some
      attempt's record reports a failed rollback. */
  lemma {:induction false} OnlyTheWinnerCommits<W(!new), S(!new), T>(
      rd: Redactor<S>, actions: seq<Action<W, S>>, track: W -> T, effects: seq<T -> T>, w: W)
    requires AllDisciplined(actions, track, effects)
    ensures var r := Climb(rd, actions, w);
            && InOrder(actions, r)
            && (NothingLeft(actions, r.2) ==> CommitsOnlyWinner(track, effects, w, r))
            && (!NothingLeft(actions, r.2) ==> exists t :: t in r.2 && !t.validated && ReportsFailedRollback(rd, t))
  {
    hide RunOneSpec, Disciplined, LeftNothing, ReportsFailedRollback;
    if actions == [] {
    } else if actions[0].risk == High {
      assert LeftNothing(actions[0], Skip(actions[0])) by {
        SkipLeavesNothing(actions[0]);
      }
    } else {
      assert Disciplined(actions[0], track, effects[0]);
      OneRungCommitsOrUndoes(rd, actions[0], track, effects[0], w);
      var (w1, t) := RunOneSpec(rd, actions[0], w);
      if !t.validated {
        RestIsDisciplined(actions, track, effects);
        OnlyTheWinnerCommits(rd, actions[1..], track, effects[1..], w1);
        FailedRungInFront(rd, actions, track, effects, w, w1, t, Climb(rd, actions[1..], w1));
      }
    }
  }

  /** When every rung means to keep the tracked part, so does the ladder. */
  lemma LadderKeeps<W(!new), S(!new), T(!new)>(
      rd: Redactor<S>, actions: seq<Action<W, S>>, track: W -> T, effects: seq<T -> T>, w: W)
    requires AllDisciplined(actions, track, effects)
    requires forall i, x | 0 <= i < |effects| :: effects[i](x) == x
    ensures var (v, _, ts) := Climb(rd, actions, w);
            && (NothingLeft(actions, ts) ==> track(v) == track(w))
            && (!NothingLeft(actions, ts) ==> exists t :: t in ts && !t.validated && ReportsFailedRollback(rd, t))
  {
    assert |effects| == |actions|;
    hide Climb, AllDisciplined, NothingLeft, ReportsFailedRollback;
    OnlyTheWinnerCommits(rd, actions, track, effects, w);
  }

  /** A ladder whose second rung is high only ever comes to its first. */
  lemma OnlyFirstMatters<W(!new), S(!new), T>(actions: seq<Action<W, S>>, track: W -> T, effects: seq<T -> T>)
    requires |effects| == |actions| > 0 && Disciplined(actions[0], track, effects[0])
    requires |actions| > 1 ==> actions[1].risk == High
    ensures AllDisciplined(actions, track, effects)
  {
    hide Disciplined;
    if |actions| > 1 {
      assert actions[1..][0] == actions[1];
      assert BeforeHigh(actions[1..]) == [];
    }
  }

  lemma NoSnapshotsNothingLeft<W, S>(actions: seq<Action<W, S>>, attempts: seq<Attempt<S>>)
    requires forall i | 0 <= i < |actions| :: actions[i].snapshot.None?
    ensures NothingLeft(actions, attempts)
  {
  }

  lemma SkipLeavesNothing<W, S>(a: Action<W, S>)
    ensures LeftNothing(a, Skip(a))
  {
  }

  lemma RestIsDisciplined<W(!new), S(!new), T>(actions: seq<Action<W, S>>, track: W -> T, effects: seq<T -> T>)
    requires AllDisciplined(actions, track, effects) && actions != [] && actions[0].risk != High
    ensures AllDisciplined(actions[1..], track, effects[1..])
  {
    hide Disciplined;
    forall i | 0 <= i < |actions[1..]| && i < |BeforeHigh(actions[1..])|
      ensures Disciplined(actions[1..][i], track, effects[1..][i])
    {
      assert Disciplined(actions[i + 1], track, effects[i + 1]);
    }
  }

  lemma FailedRungInFront<W(!new), S(!new), T>(
      rd: Redactor<S>, actions: seq<Action<W, S>>, track: W -> T, effects: seq<T -> T>, w: W,
      w1: W, t: Attempt<S>, r: (W, bool, seq<Attempt<S>>))
    requires |effects| == |actions| > 0
    requires !t.validated && !t.skipped && t.action == actions[0].name && t.risk == actions[0].risk
    requires if LeftNothing(actions[0], t) then track(w1) == track(w) else ReportsFailedRollback(rd, t)
    requires InOrder(actions[1..], r)
    requires NothingLeft(actions[1..], r.2) ==> CommitsOnlyWinner(track, effects[1..], w1, r)
    requires !NothingLeft(actions[1..], r.2) ==> exists u :: u in r.2 && !u.validated && ReportsFailedRollback(rd, u)
    ensures var all := Onto([t], r);
            && InOrder(actions, all)
            && (NothingLeft(actions, all.2) ==> CommitsOnlyWinner(track, effects, w, all))
            && (!NothingLeft(actions, all.2) ==> exists u :: u in all.2 && !u.validated && ReportsFailedRollback(rd, u))
  {
    hide LeftNothing, ReportsFailedRollback, NothingLeft, InOrder;
    var all := Onto([t], r);
    InOrderInFront(actions, t, r);
    NothingLeftSplits(actions, t, r.2);
    assert t in all.2 && forall u | u in r.2 :: u in all.2;
  }

  lemma InOrderInFront<W, S>(actions: seq<Action<W, S>>, t: Attempt<S>, r: (W, bool, seq<Attempt<S>>))
    requires actions != [] && InOrder(actions[1..], r)
    requires !t.validated && !t.skipped && t.action == actions[0].name && t.risk == actions[0].risk
    ensures InOrder(actions, Onto([t], r)) && (r.1 ==> r.2 != [])
  {
  }

  lemma NothingLeftSplits<W, S>(actions: seq<Action<W, S>>, t: Attempt<S>, rest: seq<Attempt<S>>)
    requires actions != []
    ensures NothingLeft(actions, [t] + rest)
            <==> (t.validated || LeftNothing(actions[0], t)) && NothingLeft(actions[1..], rest)
  {
    hide LeftNothing;
    var all := [t] + rest;
    assert all[0] == t && forall i | 0 <= i < |rest| :: all[i + 1] == rest[i];
    if NothingLeft(actions, all) {
      forall i | 0 <= i < |actions[1..]| && i < |rest|
        ensures rest[i].validated || LeftNothing(actions[1..][i], rest[i])
      {
        assert all[i + 1].validated || LeftNothing(actions[i + 1], all[i + 1]);
      }
    }
    if (t.validated || LeftNothing(actions[0], t)) && NothingLeft(actions[1..], rest) {
      forall i | 0 <= i < |actions| && i < |all|
        ensures all[i].validated || LeftNothing(actions[i], all[i])
      {
        if i > 0 {
          assert rest[i - 1].validated || LeftNothing(actions[1..][i - 1], rest[i - 1]);
        }
      }
    }
  }

  // ------------------------------------------------------------ high risk is never run

  predicate Invokes<W, S>(a: Action<W, S>, w: W) {
    a.snapshot.None? || a.snapshot.value(w).err.None?
  }

  /** The rungs whose Run the ladder really calls, in order. */
  function Invoked<W, S>(rd: Redactor<S>, actions: seq<Action<W, S>>, w: W): seq<Action<W, S>> {
    if actions == [] || actions[0].risk == High then []
    else
      var (w1, t) := RunOneSpec(rd, actions[0], w);
      (if Invokes(actions[0], w) then [actions[0]] else []) + (if t.validated then [] else Invoked(rd, actions[1..], w1))
  }

  lemma InvokedStep<W, S>(rd: Redactor<S>, a: Action<W, S>, rest: seq<Action<W, S>>, w: W)
    requires a.risk != High
    ensures var (w1, t) := RunOneSpec(rd, a, w);
            var first := if Invokes(a, w) then [a] else [];
            Invoked(rd, [a] + rest, w) == first + (if t.validated then [] else Invoked(rd, rest, w1))
  {
    hide RunOneSpec, Invokes;
    assert ([a] + rest)[1..] == rest;
  }

  ghost predicate Among<W, S>(a: Action<W, S>, actions: seq<Action<W, S>>) {
    exists j :: 0 <= j < |actions| && actions[j] == a
  }

  /** What is invoked comes from before the first high-risk rung, so it is never high. */
  lemma {:induction false} InvokedBeforeHigh<W, S>(rd: Redactor<S>, actions: seq<Action<W, S>>, w: W, k: nat)
    requires k < |Invoked(rd, actions, w)|
    ensures Among(Invoked(rd, actions, w)[k], BeforeHigh(actions))
    ensures Invoked(rd, actions, w)[k].risk != High
  {
    hide RunOneSpec, Invokes;
    var (w1, t) := RunOneSpec(rd, actions[0], w);
    var first := if Invokes(actions[0], w) then [actions[0]] else [];
    if k < |first| {
      assert BeforeHigh(actions)[0] == actions[0];
    } else {
      InvokedBeforeHigh(rd, actions[1..], w1, k - |first|);
      var a := Invoked(rd, actions, w)[k];
      var j :| 0 <= j < |BeforeHigh(actions[1..])| && BeforeHigh(actions[1..])[j] == a;
      assert BeforeHigh(actions)[j + 1] == a;
    }
  }

  lemma {:induction false} BeforeHighIsPrefix<W, S>(actions: seq<Action<W, S>>)
    ensures |BeforeHigh(actions)| <= |actions|
    ensures forall j | 0 <= j < |BeforeHigh(actions)| :: BeforeHigh(actions)[j] == actions[j] && actions[j].risk != High
    ensures |BeforeHigh(actions)| < |actions| ==> actions[|BeforeHigh(actions)|].risk == High
  {
    if actions != [] && actions[0].risk != High {
      BeforeHighIsPrefix(actions[1..]);
    }
  }

  /** Stronger than not being recorded as run: no closure at or after the first high-risk
      rung has any influence. Ladders that agree up to there, name and description of
      that rung included, end in the same world with the same record. */
  lemma {:induction false} NothingFromHighOnMatters<W, S>(
      rd: Redactor<S>, xs: seq<Action<W, S>>, ys: seq<Action<W, S>>, w: W)
    requires BeforeHigh(xs) == BeforeHigh(ys)
    requires |BeforeHigh(xs)| < |xs| && |BeforeHigh(ys)| < |ys|
    requires Skip(xs[|BeforeHigh(xs)|]) == Skip(ys[|BeforeHigh(ys)|])
    ensures Climb(rd, xs, w) == Climb(rd, ys, w)
  {
    if xs[0].risk == High {
      assert BeforeHigh(xs) == [];
      assert ys[0].risk == High by {
        BeforeHighIsPrefix(ys);
      }
    } else {
      assert BeforeHigh(xs)[0] == xs[0];
      assert BeforeHigh(ys) != [] && BeforeHigh(ys)[0] == ys[0];
      assert BeforeHigh(xs)[1..] == BeforeHigh(xs[1..]);
      assert BeforeHigh(ys)[1..] == BeforeHigh(ys[1..]);
      NothingFromHighOnMatters(rd, xs[1..], ys[1..], RunOneSpec(rd, xs[0], w).0);
    }
  }

  // ------------------------------------------------------------ what leaves is scrubbed

  ghost predicate Scrubbed<S(!new)>(rd: Redactor<S>, t: Attempt<S>) {
    && (t.output == "" || exists raw :: t.output == rd.text(raw))
    && (t.err == "" || t.err == NEEDS_APPROVAL || exists raw :: t.err == rd.text(raw))
    && (t.snapshot.Some? ==> exists raw :: t.snapshot.value == rd.state(raw))
  }

  /** Every output, error and snapshot a run records went through the scrubber whole:
      errors are scrubbed again, joined, when a rollback failure is appended. */
  lemma {:induction false} RecordIsScrubbed<W, S(!new)>(rd: Redactor<S>, actions: seq<Action<W, S>>, w: W)
    ensures forall i | 0 <= i < |Climb(rd, actions, w).2| :: Scrubbed(rd, Climb(rd, actions, w).2[i])
  {
    if actions != [] && actions[0].risk != High {
      var (w1, t) := RunOneSpec(rd, actions[0], w);
      OneIsScrubbed(rd, actions[0], w);
      RecordIsScrubbed(rd, actions[1..], w1);
    }
  }

  lemma RollbackKeepsScrubbed<W, S(!new)>(rd: Redactor<S>, a: Action<W, S>, snap: Option<S>, t: Attempt<S>, w: W)
    requires Scrubbed(rd, t)
    ensures Scrubbed(rd, RollbackSpec(rd, a, snap, t, w).1)
  {
    if a.rollback.Some? && snap.Some? && a.rollback.value(w, snap.value).err.Some? {
      var raw := t.err + ROLLBACK_FAILED + a.rollback.value(w, snap.value).err.value;
      assert RollbackSpec(rd, a, snap, t, w).1.err == rd.text(raw);
    }
  }

  lemma RunKeepsScrubbed<W, S(!new)>(rd: Redactor<S>, a: Action<W, S>, snap: Option<S>, t: Attempt<S>, w: W)
    requires Scrubbed(rd, t)
    ensures Scrubbed(rd, AfterSnapshot(rd, a, snap, t, w).1)
  {
    hide RollbackSpec;
    var ran := a.run(w);
    var t1 := t.(output := rd.text(ran.output));
    assert Scrubbed(rd, t1);
    if ran.err.Some? {
      RollbackKeepsScrubbed(rd, a, snap, t1.(err := rd.text(ran.err.value)), ran.world);
    } else {
      var v := if a.validate.Some? then a.validate.value(ran.world) else Validated(ran.world, true, None);
      var t2 := t1.(err := if v.err.Some? then rd.text(v.err.value) else t1.err, validated := v.healthy);
      assert Scrubbed(rd, t2);
      RollbackKeepsScrubbed(rd, a, snap, t2, v.world);
    }
  }

  lemma OneIsScrubbed<W, S(!new)>(rd: Redactor<S>, a: Action<W, S>, w: W)
    ensures Scrubbed(rd, RunOneSpec(rd, a, w).1)
  {
    if a.snapshot.None? {
      RunKeepsScrubbed(rd, a, None, Blank(a), w);
    } else {
      var s := a.snapshot.value(w);
      if s.err.None? {
        var t := Blank(a).(snapshot := if s.snap.Some? then Some(rd.state(s.snap.value)) else None);
        assert Scrubbed(rd, t);
        RunKeepsScrubbed(rd, a, s.snap, t, s.world);
      }
    }
  }
}
