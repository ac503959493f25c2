/** When a heartbeat loop can no longer be stopped: over whole runs of the fleet, exactly which
    steps of other sessions cut a session's loop off from everything that would stop it. */
module Heartbeats {
  import opened Wrappers
  import opened Registry
  import opened Sessions

  /** Some session has taken this one's entry away and is about to call its cancel function. */
  predicate Removing(s: State, x: SessionID, sid: SessionID) {
    x in s.sessions && s.sessions[x].pc == Removed(Some(sid))
  }

  ghost predicate Doomed(s: State, sid: SessionID) {
    exists x :: Removing(s, x, sid)
  }

  /** Past its registration, out of the table, not cancelled, and nobody is about to cancel it. */
  ghost predicate Orphan(s: State, sid: SessionID) {
    && sid in s.sessions && s.sessions[sid].pc != Opened
    && !InTable(s, sid) && !s.sessions[sid].cancelled && !Doomed(s, sid)
  }

  predicate Up(s: State, sid: SessionID) {
    sid in s.sessions && s.sessions[sid].replica !in s.crashed
  }

  /** The two ways to lose a session: another one registers over its entry, or whoever removed
      that entry calls for its cancel function before it has been stored. */
  predicate Loses(s: State, step: Step, sid: SessionID) {
    && sid in s.sessions
    && (|| (step.Insert? && step.sid in s.sessions && step.sid != sid
            && Find(s, SlotOf(s.sessions[step.sid])) == Some(sid))
        || (step.Cancel? && Removing(s, step.sid, sid) && !s.sessions[sid].armed))
  }

  // ------------------------------------------------------------ where every session is

  predicate VictimOk(s: State, v: SessionID) {
    v in s.sessions && s.sessions[v].pc != Opened && !InTable(s, v) && !s.sessions[v].cancelled
  }

  /** Each session is in the table, or about to be cancelled by one other, or neither; while
      either, it has not been cancelled. */
  ghost predicate Traced(s: State) {
    && (forall x, v :: Removing(s, x, v) ==> VictimOk(s, v) && SlotOf(s.sessions[v]) == SlotOf(s.sessions[x]))
    && (forall x, y, v :: Removing(s, x, v) && Removing(s, y, v) ==> x == y)
    && (forall sid | sid in s.sessions && InTable(s, sid) :: !s.sessions[sid].cancelled)
  }

  ghost predicate Inv(s: State) {
    TableSound(s) && HandlersOk(s) && Traced(s)
  }

  /** This step takes sid's entry out of the table, to be cancelled next. */
  predicate TakesEntry(s: State, step: Step, sid: SessionID) {
    && step.Disconnect? && step.sid in s.sessions && sid in s.sessions
    && SlotOf(s.sessions[step.sid]) == SlotOf(s.sessions[sid]) && InTable(s, sid)
  }

  lemma RemovingAfter(s: State, step: Step, x: SessionID, v: SessionID)
    requires TableSound(s) && Enabled(s, step)
    ensures Removing(Next(s, step), x, v) <==>
            || (Removing(s, x, v) && step != Cancel(x) && (step.Crash? ==> s.sessions[x].replica != step.replica))
            || (TakesEntry(s, step, v) && step.sid == x)
  {
    if step.Disconnect? && SlotOf(s.sessions[step.sid]) in s.agents {
      assert EntryOk(s, SlotOf(s.sessions[step.sid]));
    }
  }

  lemma TableAfter(s: State, step: Step, sid: SessionID)
    requires TableSound(s) && Enabled(s, step) && sid in s.sessions
    ensures sid in Next(s, step).sessions
    ensures InTable(Next(s, step), sid) <==>
            if step.Insert? then
              step.sid == sid || (InTable(s, sid) && SlotOf(s.sessions[step.sid]) != SlotOf(s.sessions[sid]))
            else InTable(s, sid) && !TakesEntry(s, step, sid)
                 && (step.Crash? ==> s.sessions[sid].replica != step.replica)
  {
    hide TableSound;
    SessionsAreFixed(s, step);
    AgentsAfter(s, step);
    hide Next, Enabled;
  }

  lemma AgentsAfter(s: State, step: Step)
    requires Enabled(s, step)
    ensures Next(s, step).agents ==
            match step
            case Insert(who) => s.agents[SlotOf(s.sessions[who]) := who]
            case Disconnect(who) => s.agents - {SlotOf(s.sessions[who])}
            case Crash(replica) => map slot | slot in s.agents && slot.replica != replica :: s.agents[slot]
            case _ => s.agents
  {
  }

  lemma CancelledAfter(s: State, step: Step, sid: SessionID)
    requires Enabled(s, step) && sid in s.sessions
    ensures sid in Next(s, step).sessions
    ensures Next(s, step).sessions[sid].cancelled <==>
            s.sessions[sid].cancelled || (step.Cancel? && Removing(s, step.sid, sid) && s.sessions[sid].armed)
  {
  }

  lemma OpenedAfter(s: State, step: Step, sid: SessionID)
    requires Enabled(s, step) && sid in s.sessions
    ensures sid in Next(s, step).sessions
    ensures Next(s, step).sessions[sid].pc == Opened <==>
            (s.sessions[sid].pc == Opened && step != Insert(sid)
             && (step.Crash? ==> s.sessions[sid].replica != step.replica))
    ensures SlotOf(Next(s, step).sessions[sid]) == SlotOf(s.sessions[sid])
  {
  }

  lemma VictimStays(s: State, step: Step, x: SessionID, v: SessionID)
    requires Inv(s) && Enabled(s, step) && Removing(Next(s, step), x, v)
    ensures v in Next(s, step).sessions && VictimOk(Next(s, step), v) && x in Next(s, step).sessions
    ensures SlotOf(Next(s, step).sessions[v]) == SlotOf(Next(s, step).sessions[x])
  {
    RemovingAfter(s, step, x, v);
    assert x in s.sessions && v in s.sessions;
    if InTable(s, v) {
      assert EntryOk(s, SlotOf(s.sessions[v]));
    }
    TableAfter(s, step, v);
    CancelledAfter(s, step, v);
    OpenedAfter(s, step, v);
    OpenedAfter(s, step, x);
    hide Next, Enabled, HandlersOk, TableSound;
  }

  lemma StepKeepsTraced(s: State, step: Step)
    requires Inv(s) && Enabled(s, step)
    ensures Traced(Next(s, step))
  {
    hide Next, Enabled, HandlersOk, TableSound, VictimOk;
    var t := Next(s, step);
    forall x, v | Removing(t, x, v)
      ensures v in t.sessions && VictimOk(t, v) && x in t.sessions && SlotOf(t.sessions[v]) == SlotOf(t.sessions[x])
    {
      VictimStays(s, step, x, v);
    }
    forall x, y, v | Removing(t, x, v) && Removing(t, y, v)
      ensures x == y
    {
      RemovingAfter(s, step, x, v);
      RemovingAfter(s, step, y, v);
      OnePlace(s, v);
    }
    forall sid | sid in t.sessions && InTable(t, sid)
      ensures !t.sessions[sid].cancelled
    {
      EntryNotCancelled(s, step, sid);
    }
  }

  lemma OnePlace(s: State, v: SessionID)
    requires Inv(s)
    ensures forall x | Removing(s, x, v) :: v in s.sessions && !InTable(s, v)
  {
    hide HandlersOk, TableSound;
  }

  lemma EntryNotCancelled(s: State, step: Step, sid: SessionID)
    requires Inv(s) && Enabled(s, step) && sid in Next(s, step).sessions && InTable(Next(s, step), sid)
    ensures !Next(s, step).sessions[sid].cancelled
  {
    if sid in s.sessions {
      TableAfter(s, step, sid);
      CancelledAfter(s, step, sid);
      OnePlace(s, sid);
      assert HandlerOk(s, s.sessions[sid]);
    } else {
      assert step.Connect? && !Next(s, step).sessions[sid].cancelled;
    }
  }

  lemma StepKeepsInv(s: State, step: Step)
    requires Inv(s) && Enabled(s, step)
    ensures Inv(Next(s, step))
  {
    StepKeepsTable(s, step);
    StepKeepsHandlers(s, step);
    StepKeepsTraced(s, step);
  }

  lemma {:induction false} RunIsTraced(ttl: nat, states: seq<State>, steps: seq<Step>, n: nat)
    requires IsRun(ttl, states, steps) && n < |states|
    ensures Inv(states[n])
  {
    hide Inv, Next, Enabled;
    if n > 0 {
      RunIsTraced(ttl, states, steps, n - 1);
      StepKeepsInv(states[n - 1], steps[n - 1]);
    } else {
      InitIsTraced(ttl);
    }
  }

  lemma InitIsTraced(ttl: nat)
    ensures Inv(Init(ttl))
  {
  }

  // ------------------------------------------------------------ once lost, lost for good

  lemma DoomedAfter(s: State, step: Step, sid: SessionID)
    requires Inv(s) && Enabled(s, step) && (step.Crash? && sid in s.sessions ==> s.sessions[sid].replica != step.replica)
    ensures Doomed(Next(s, step), sid) <==>
            (Doomed(s, sid) && !(step.Cancel? && Removing(s, step.sid, sid))) || TakesEntry(s, step, sid)
  {
    hide Next, Enabled, HandlersOk, TableSound, VictimOk;
    var t := Next(s, step);
    if x :| Removing(t, x, sid) {
      RemovingAfter(s, step, x, sid);
    }
    if x :| Removing(s, x, sid) {
      RemovingAfter(s, step, x, sid);
      assert sid in s.sessions && SlotOf(s.sessions[sid]) == SlotOf(s.sessions[x]) by {
        hide *;
        VictimHere(s, x, sid);
      }
    }
    if TakesEntry(s, step, sid) {
      RemovingAfter(s, step, step.sid, sid);
    }
  }

  lemma VictimHere(s: State, x: SessionID, v: SessionID)
    requires Inv(s) && Removing(s, x, v)
    ensures x in s.sessions && v in s.sessions && SlotOf(s.sessions[v]) == SlotOf(s.sessions[x])
    ensures s.sessions[v].pc != Opened
  {
    hide HandlersOk, TableSound;
  }

  lemma OrphanIs(s: State, sid: SessionID)
    requires sid in s.sessions
    ensures Orphan(s, sid) <==>
            (s.sessions[sid].pc != Opened && !InTable(s, sid) && !s.sessions[sid].cancelled && !Doomed(s, sid))
  {
    hide Doomed;
  }

  lemma LosesIs(s: State, step: Step, sid: SessionID)
    requires TableSound(s) && Enabled(s, step) && sid in s.sessions
    ensures step.Insert? ==> step.sid in s.sessions
    ensures Loses(s, step, sid) <==>
            || (step.Insert? && step.sid != sid && InTable(s, sid)
                && SlotOf(s.sessions[step.sid]) == SlotOf(s.sessions[sid]))
            || (step.Cancel? && Removing(s, step.sid, sid) && !s.sessions[sid].armed)
  {
    if step.Insert? && SlotOf(s.sessions[step.sid]) in s.agents {
      assert EntryOk(s, SlotOf(s.sessions[step.sid]));
    }
  }

  /** Short of a crash, a step leaves a session an orphan exactly if it was one or is lost
      in this very step. */
  lemma OrphanAfterStep(s: State, step: Step, sid: SessionID)
    requires Inv(s) && Enabled(s, step) && (sid in Next(s, step).sessions ==> Up(Next(s, step), sid))
    ensures Orphan(Next(s, step), sid) <==> Orphan(s, sid) || Loses(s, step, sid)
  {
    if sid in s.sessions {
      assert TableSound(s);
      SessionsAreFixed(s, step);
      StaysUp(s, step, sid);
      hide *;
      OrphanIs(s, sid);
      OrphanIs(Next(s, step), sid);
      LosesIs(s, step, sid);
      TableAfter(s, step, sid);
      CancelledAfter(s, step, sid);
      OpenedAfter(s, step, sid);
      DoomedAfter(s, step, sid);
      EntryIsRegistered(s, sid);
      if step.Cancel? && Removing(s, step.sid, sid) {
        DoomedIs(s, step.sid, sid);
      }
      if TakesEntry(s, step, sid) {
        TakenIsInTable(s, step, sid);
      }
    } else {
      NewIsNoOrphan(s, step, sid);
    }
  }

  lemma TakenIsInTable(s: State, step: Step, sid: SessionID)
    requires TakesEntry(s, step, sid)
    ensures step.Disconnect? && sid in s.sessions && InTable(s, sid)
  {
  }

  lemma DoomedIs(s: State, x: SessionID, sid: SessionID)
    requires Inv(s) && Removing(s, x, sid)
    ensures Doomed(s, sid) && sid in s.sessions && !InTable(s, sid)
    ensures s.sessions[sid].pc != Opened && !s.sessions[sid].cancelled
  {
    hide HandlersOk, TableSound;
  }

  lemma EntryIsRegistered(s: State, sid: SessionID)
    requires Inv(s) && sid in s.sessions
    ensures InTable(s, sid) ==> s.sessions[sid].pc != Opened && !s.sessions[sid].cancelled && !Doomed(s, sid)
    ensures s.sessions[sid].pc == Opened ==> !s.sessions[sid].cancelled
  {
    OnePlace(s, sid);
    assert HandlerOk(s, s.sessions[sid]);
    if InTable(s, sid) {
      assert EntryOk(s, SlotOf(s.sessions[sid]));
    }
  }

  lemma NewIsNoOrphan(s: State, step: Step, sid: SessionID)
    requires Enabled(s, step) && sid !in s.sessions
    ensures !Orphan(Next(s, step), sid) && !Orphan(s, sid) && !Loses(s, step, sid)
  {
  }

  lemma StaysUp(s: State, step: Step, sid: SessionID)
    requires Enabled(s, step) && sid in s.sessions && Up(Next(s, step), sid)
    ensures step.Crash? ==> s.sessions[sid].replica != step.replica
  {
  }

  lemma UpEarlier(s: State, step: Step, sid: SessionID)
    requires Enabled(s, step) && Up(Next(s, step), sid) && sid in s.sessions
    ensures Up(s, sid)
  {
  }

  /** Over every run: the orphans among the sessions of a replica that is up are exactly those
      some earlier step lost. */
  lemma {:induction false} OrphanIff(ttl: nat, states: seq<State>, steps: seq<Step>, n: nat, sid: SessionID)
    requires IsRun(ttl, states, steps) && n < |states|
    requires sid in states[n].sessions ==> Up(states[n], sid)
    ensures Orphan(states[n], sid) <==> exists i :: 0 <= i < n && Loses(states[i], steps[i], sid)
  {
    hide Inv, Next, Enabled, Orphan, Loses, Up;
    if n == 0 {
      NoOrphanAtFirst(ttl, sid);
    } else {
      var s, step := states[n - 1], steps[n - 1];
      RunIsTraced(ttl, states, steps, n - 1);
      SessionsAreFixed(s, step);
      if sid in s.sessions {
        UpEarlier(s, step, sid);
      }
      OrphanIff(ttl, states, steps, n - 1, sid);
      OrphanAfterStep(s, step, sid);
      if i :| 0 <= i < n && Loses(states[i], steps[i], sid) && i < n - 1 {
        assert 0 <= i < n - 1;
      }
    }
  }

  lemma NoOrphanAtFirst(ttl: nat, sid: SessionID)
    ensures !Orphan(Init(ttl), sid)
  {
  }

  // ------------------------------------------------------------ loops that never stop

  /** Any way the fleet can go on from a state. */
  ghost predicate Continues(states: seq<State>, steps: seq<Step>) {
    && |states| == |steps| + 1
    && forall i | 0 <= i < |steps| :: Enabled(states[i], steps[i]) && states[i + 1] == Next(states[i], steps[i])
  }

  /** However the fleet goes on, the loop beats for as long as its replica is up. */
  ghost predicate NeverStops(s: State, sid: SessionID) {
    forall states: seq<State>, steps: seq<Step> ::
      Continues(states, steps) && states[0] == s && Up(states[|steps|], sid) ==> Beating(states[|steps|].sessions[sid])
  }

  lemma {:induction false} OrphanStays(states: seq<State>, steps: seq<Step>, n: nat, sid: SessionID)
    requires Continues(states, steps) && n < |states| && Inv(states[0]) && Orphan(states[0], sid)
    requires sid in states[0].sessions && states[0].sessions[sid].loop != NotStarted
    requires Up(states[n], sid)
    ensures Inv(states[n]) && Orphan(states[n], sid)
    ensures states[n].sessions[sid].loop != NotStarted
  {
    hide Inv, Next, Enabled, Orphan, Loses, Beating, HandlerOk;
    if n > 0 {
      ContinuesFixed(states, steps, n - 1, sid);
      UpEarlier(states[n - 1], steps[n - 1], sid);
      OrphanStays(states, steps, n - 1, sid);
      StepKeepsInv(states[n - 1], steps[n - 1]);
      OrphanAfterStep(states[n - 1], steps[n - 1], sid);
      InvGivesHandler(states[n - 1], sid);
      LoopGoesOn(states[n - 1], steps[n - 1], sid);
    }
  }

  lemma InvGivesHandler(s: State, sid: SessionID)
    requires Inv(s) && sid in s.sessions
    ensures HandlerOk(s, s.sessions[sid])
  {
  }

  lemma LoopGoesOn(s: State, step: Step, sid: SessionID)
    requires Enabled(s, step) && sid in s.sessions && s.sessions[sid].loop != NotStarted && HandlerOk(s, s.sessions[sid])
    ensures sid in Next(s, step).sessions && Next(s, step).sessions[sid].loop != NotStarted
  {
  }

  lemma {:induction false} ContinuesFixed(states: seq<State>, steps: seq<Step>, n: nat, sid: SessionID)
    requires Continues(states, steps) && n < |states| && sid in states[0].sessions
    ensures sid in states[n].sessions
  {
    hide Next, Enabled;
    if n > 0 {
      ContinuesFixed(states, steps, n - 1, sid);
      SessionsAreFixed(states[n - 1], steps[n - 1]);
    }
  }

  lemma OrphanNeverStops(s: State, sid: SessionID)
    requires Inv(s) && Orphan(s, sid) && s.sessions[sid].loop != NotStarted
    ensures NeverStops(s, sid)
  {
    forall states: seq<State>, steps: seq<Step> | Continues(states, steps) && states[0] == s && Up(states[|steps|], sid)
      ensures Beating(states[|steps|].sessions[sid])
    {
      OrphanStays(states, steps, |steps|, sid);
      hide Continues;
      InvGivesHandler(states[|steps|], sid);
    }
  }

  lemma StoppedBy(states: seq<State>, steps: seq<Step>, sid: SessionID)
    requires Continues(states, steps) && Up(states[|steps|], sid) && !Beating(states[|steps|].sessions[sid])
    ensures !NeverStops(states[0], sid)
  {
    hide Continues, Up, Beating;
  }

  lemma OwnDepartureStops(s: State, sid: SessionID)
    requires Up(s, sid) && At(s, sid, Live) && s.sessions[sid].armed && InTable(s, sid)
    ensures !NeverStops(s, sid)
  {
    var t := Next(s, Disconnect(sid));
    assert t.sessions[sid].pc == Removed(Some(sid));
    var u := Next(t, Cancel(sid));
    StoppedBy([s, t, u], [Disconnect(sid), Cancel(sid)], sid);
  }

  lemma RemoverStops(s: State, x: SessionID, sid: SessionID)
    requires Up(s, sid) && Removing(s, x, sid) && s.sessions[sid].armed
    ensures !NeverStops(s, sid)
  {
    StoppedBy([s, Next(s, Cancel(x))], [Cancel(x)], sid);
  }

  /** Anything but an orphan can be stopped: it has been, or its remover's next step does it,
      or its own departure does. */
  lemma OthersCanBeStopped(s: State, sid: SessionID)
    requires Inv(s) && Up(s, sid) && s.sessions[sid].loop != NotStarted && !Orphan(s, sid)
    ensures !NeverStops(s, sid)
  {
    var x := s.sessions[sid];
    assert HandlerOk(s, x);
    hide NeverStops;
    if x.cancelled {
      StoppedBy([s], [], sid);
    } else if y :| Removing(s, y, sid) {
      RemoverStops(s, y, sid);
    } else {
      assert InTable(s, sid) && EntryOk(s, SlotOf(x));
      OwnDepartureStops(s, sid);
    }
  }

  /** Over every run, for every loop that has been started on a replica that is up - its
      session still there or long departed: nothing the fleet can do will ever stop it if and
      only if its session's entry was once overwritten by another session's registration, or
      was removed by a session that called for the cancel function before it was stored. */
  lemma LoopNeverStopsIff(ttl: nat, states: seq<State>, steps: seq<Step>, n: nat, sid: SessionID)
    requires IsRun(ttl, states, steps) && n < |states|
    requires Up(states[n], sid) && states[n].sessions[sid].loop != NotStarted
    ensures NeverStops(states[n], sid) <==> exists i :: 0 <= i < n && Loses(states[i], steps[i], sid)
  {
    hide Inv, Next, Enabled, Orphan, Loses, NeverStops, Up;
    RunIsTraced(ttl, states, steps, n);
    OrphanIff(ttl, states, steps, n, sid);
    if Orphan(states[n], sid) {
      OrphanNeverStops(states[n], sid);
    } else {
      OthersCanBeStopped(states[n], sid);
    }
  }

  // ------------------------------------------------------------ it happens

  ghost predicate Reaches(ttl: nat, s: State) {
    exists states: seq<State>, steps: seq<Step> :: IsRun(ttl, states, steps) && states[|states| - 1] == s
  }

  lemma ReachedIsTraced(ttl: nat, s: State)
    requires Reaches(ttl, s)
    ensures Inv(s)
  {
    var states, steps :| IsRun(ttl, states, steps) && states[|states| - 1] == s;
    RunIsTraced(ttl, states, steps, |states| - 1);
  }

  lemma Extend(ttl: nat, s: State, step: Step)
    requires Reaches(ttl, s) && Enabled(s, step)
    ensures Reaches(ttl, Next(s, step))
  {
    var states, steps :| IsRun(ttl, states, steps) && states[|states| - 1] == s;
    var longer, script := states + [Next(s, step)], steps + [step];
    assert IsRun(ttl, longer, script) && longer[|longer| - 1] == Next(s, step);
  }

  function Handler(r: Addr, c: ClusterID, pc: Pc, cancelled: bool, loop: Loop): Session {
    Session(r, c, pc, true, cancelled, loop)
  }

  /** One step of one session that has not crashed changes its own entry. */
  lemma Advance(ttl: nat, s: State, step: Step, sid: SessionID, x: Session) returns (t: State)
    requires Reaches(ttl, s) && Enabled(s, step)
    requires (step.Connect? || step.Insert? || step.Arm? || step.Announce? || step.Spawn? || step.Disconnect?
              || step.ForgetRecord?)
             && step.sid == sid
    requires Next(s, step).sessions[sid] == x
    ensures Reaches(ttl, t) && t == Next(s, step)
    ensures t.sessions == s.sessions[sid := x] && t.crashed == s.crashed
    ensures t.agents == if step.Insert? then s.agents[SlotOf(x) := sid]
                        else if step.Disconnect? then s.agents - {SlotOf(x)} else s.agents
  {
    Extend(ttl, s, step);
    t := Next(s, step);
  }

  function Fresh(r: Addr, c: ClusterID, pc: Pc): Session {
    Session(r, c, pc, false, false, NotStarted)
  }

  /** An agent connects and its session takes the cluster's entry, whoever had it. */
  lemma AgentRegisters(ttl: nat, r: Addr, c: ClusterID, s: State, sid: SessionID) returns (t: State)
    requires Reaches(ttl, s) && c != "" && sid !in s.sessions && r !in s.crashed
    ensures Reaches(ttl, t)
    ensures t.sessions == s.sessions[sid := Fresh(r, c, Inserted)]
    ensures t.agents == s.agents[Slot(r, c) := sid] && t.crashed == s.crashed
  {
    t := Advance(ttl, s, Connect(sid, r, c), sid, Fresh(r, c, Opened));
    t := Advance(ttl, t, Insert(sid), sid, Fresh(r, c, Inserted));
    assert t.sessions == s.sessions[sid := Fresh(r, c, Inserted)];
  }

  /** And then it comes to life, whoever has the entry by now. */
  lemma AgentGoesLive(ttl: nat, r: Addr, c: ClusterID, s: State, sid: SessionID) returns (t: State)
    requires Reaches(ttl, s) && sid in s.sessions && s.sessions[sid] == Fresh(r, c, Inserted)
    ensures Reaches(ttl, t)
    ensures t.sessions == s.sessions[sid := Handler(r, c, Live, false, Idle)]
    ensures t.agents == s.agents && t.crashed == s.crashed
  {
    t := Advance(ttl, s, Arm(sid), sid, Handler(r, c, Armed, false, NotStarted));
    t := Advance(ttl, t, Announce(sid, true), sid, Handler(r, c, Announced, false, NotStarted));
    t := Advance(ttl, t, Spawn(sid), sid, Handler(r, c, Live, false, Idle));
    assert t.sessions == s.sessions[sid := Handler(r, c, Live, false, Idle)];
  }

  lemma AgentArrives(ttl: nat, r: Addr, c: ClusterID, s: State, sid: SessionID) returns (t: State)
    requires Reaches(ttl, s) && c != "" && sid !in s.sessions && r !in s.crashed
    ensures Reaches(ttl, t)
    ensures t.sessions == s.sessions[sid := Handler(r, c, Live, false, Idle)]
    ensures t.agents == s.agents[Slot(r, c) := sid] && t.crashed == s.crashed
  {
    hide Reaches;
    t := AgentRegisters(ttl, r, c, s, sid);
    t := AgentGoesLive(ttl, r, c, t, sid);
    assert t.sessions == s.sessions[sid := Handler(r, c, Live, false, Idle)];
  }

  lemma CancelOther(s: State, sid: SessionID, x: Session, victim: Option<SessionID>)
    requires victim != Some(sid) && sid in s.sessions
    ensures var t := s.(sessions := s.sessions[sid := x.(pc := Removed(victim))]);
            && Enabled(t, Cancel(sid))
            && Next(t, Cancel(sid)).sessions == Stop(s, victim).sessions[sid := x.(pc := Stopped)]
            && Next(t, Cancel(sid)).agents == t.agents && Next(t, Cancel(sid)).crashed == t.crashed
  {
    var t := s.(sessions := s.sessions[sid := x.(pc := Removed(victim))]);
    assert Stop(t, victim).sessions[sid := x.(pc := Stopped)] == Stop(s, victim).sessions[sid := x.(pc := Stopped)];
  }

  /** unregister's first two steps, when the table holds another connection or none. */
  lemma UnregisterOther(ttl: nat, s: State, sid: SessionID) returns (t: State)
    requires Reaches(ttl, s) && At(s, sid, Live) && !InTable(s, sid)
    ensures Reaches(ttl, t)
    ensures t.sessions == Stop(s, Find(s, SlotOf(s.sessions[sid]))).sessions[sid := s.sessions[sid].(pc := Stopped)]
    ensures t.agents == s.agents - {SlotOf(s.sessions[sid])} && t.crashed == s.crashed
  {
    var x, found := s.sessions[sid], Find(s, SlotOf(s.sessions[sid]));
    var t1 := Advance(ttl, s, Disconnect(sid), sid, x.(pc := Removed(found)));
    CancelOther(s.(agents := t1.agents), sid, x, found);
    Extend(ttl, t1, Cancel(sid));
    t := Next(t1, Cancel(sid));
  }

  /** A live session's stream fails, and the table holds another connection or none. */
  lemma AgentLeaves(ttl: nat, s: State, sid: SessionID) returns (t: State)
    requires Reaches(ttl, s) && At(s, sid, Live) && !InTable(s, sid)
    ensures Reaches(ttl, t)
    ensures t.sessions == Stop(s, Find(s, SlotOf(s.sessions[sid]))).sessions[sid := s.sessions[sid].(pc := Gone)]
    ensures t.agents == s.agents - {SlotOf(s.sessions[sid])} && t.crashed == s.crashed
  {
    var t2 := UnregisterOther(ttl, s, sid);
    t := Advance(ttl, t2, ForgetRecord(sid, true), sid, s.sessions[sid].(pc := Gone));
  }

  /** The concrete run that breaks it, for any replica and cluster: two sessions overlap,
      the older leaves first, then the newer. No agent is left and the table is empty, yet
      the first session's loop has just announced the cluster again, and never stops. */
  lemma OverlapLeaksHeartbeat(ttl: nat, r: Addr, c: ClusterID)
    requires c != ""
    ensures exists end: State ::
              && Reaches(ttl, end)
              && end.agents == map[]
              && (forall sid | sid in end.sessions :: end.sessions[sid].pc == Gone)
              && 0 in end.sessions && Beating(end.sessions[0]) && NeverStops(end, 0)
              && Lookup(end.records, c, end.now) == Some(r)
  {
    var s := BothGone(ttl, r, c);
    var t := Next(s, Tick(0));
    Extend(ttl, s, Tick(0));
    var end := Next(t, Step.Beat(0, true));
    Extend(ttl, t, Step.Beat(0, true));
    assert end.sessions == s.sessions;
    assert Beating(end.sessions[0]);
    hide NeverStops, Reaches, Next, Enabled;
    DepartedNeverStops(ttl, end, 0);
  }

  /** With no agent left, a loop that has not been cancelled never will be. */
  lemma DepartedNeverStops(ttl: nat, s: State, sid: SessionID)
    requires Reaches(ttl, s) && s.agents == map[] && forall x | x in s.sessions :: s.sessions[x].pc == Gone
    requires sid in s.sessions && Beating(s.sessions[sid])
    ensures NeverStops(s, sid)
  {
    assert Orphan(s, sid);
    ReachedIsTraced(ttl, s);
    OrphanNeverStops(s, sid);
  }

  lemma BothGone(ttl: nat, r: Addr, c: ClusterID) returns (s: State)
    requires c != ""
    ensures Reaches(ttl, s) && s.agents == map[]
    ensures s.sessions == map[0 := Handler(r, c, Gone, false, Idle), 1 := Handler(r, c, Gone, true, Ended)]
  {
    StartIsReached(ttl);
    var live := Handler(r, c, Live, false, Idle);
    s := AgentArrives(ttl, r, c, Init(ttl), 0);
    s := AgentArrives(ttl, r, c, s, 1);
    assert s.sessions == map[0 := live, 1 := live];
    s := AgentLeaves(ttl, s, 0);
    assert s.sessions == map[0 := Handler(r, c, Gone, false, Idle), 1 := Handler(r, c, Live, true, Idle)];
    Extend(ttl, s, EndLoop(1));
    s := Next(s, EndLoop(1));
    assert s.sessions == map[0 := Handler(r, c, Gone, false, Idle), 1 := Handler(r, c, Live, true, Ended)];
    s := AgentLeaves(ttl, s, 1);
  }

  /** Nor need the entry be overwritten: one agent's departure removes the entry of another that
      has only just registered, and finds no cancel function to call. That one's loop starts
      all the same, and never stops either. */
  lemma EarlyCancelLeaksHeartbeat(ttl: nat, r: Addr, c: ClusterID)
    requires c != ""
    ensures exists end: State ::
              && Reaches(ttl, end)
              && end.agents == map[]
              && (forall sid | sid in end.sessions :: end.sessions[sid].pc == Gone)
              && 1 in end.sessions && Beating(end.sessions[1]) && NeverStops(end, 1)
  {
    StartIsReached(ttl);
    hide NeverStops, Reaches, Next, Enabled;
    var s := AgentArrives(ttl, r, c, Init(ttl), 0);
    s := AgentRegisters(ttl, r, c, s, 1);
    s := AgentLeaves(ttl, s, 0);
    assert s.sessions == map[0 := Handler(r, c, Gone, false, Idle), 1 := Fresh(r, c, Inserted)];
    s := AgentGoesLive(ttl, r, c, s, 1);
    s := AgentLeaves(ttl, s, 1);
    assert s.sessions == map[0 := Handler(r, c, Gone, false, Idle), 1 := Handler(r, c, Gone, false, Idle)];
    DepartedNeverStops(ttl, s, 1);
  }

  lemma StartIsReached(ttl: nat)
    ensures Reaches(ttl, Init(ttl))
  {
    assert IsRun(ttl, [Init(ttl)], []) && [Init(ttl)][0] == Init(ttl);
  }
}
