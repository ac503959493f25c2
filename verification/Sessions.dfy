/** Agent sessions on every replica of the hub: the table each replica keeps of its
    connections, the heartbeat loops that go with them, and the registry they all write.
    First the table's lock sections, then a step machine of the whole fleet, in which
    every lock section, registry call and goroutine switch is a step of its own. */
module Sessions {
  import opened Wrappers
  import opened Registry

  // ------------------------------------------------------------ the lock sections

  class Conn {
    const clusterID: ClusterID
    var stopHeartbeat: bool  // whether the cancel function has been stored
    var cancelled: bool      // whether the heartbeat's context is done

    constructor (clusterID: ClusterID)
      ensures this.clusterID == clusterID && !stopHeartbeat && !cancelled
    {
      this.clusterID := clusterID;
      stopHeartbeat, cancelled := false, false;
    }
  }

  class Server {
    var agents: map<ClusterID, Conn>

    constructor ()
      ensures agents == map[]
    {
      agents := map[];
    }

    /** `register` up to the heartbeat: the new connection takes the cluster's entry,
        whoever held it, and only then gets its cancel function. */
    method Register(c: Conn)
      modifies this, c`stopHeartbeat
      ensures agents == old(agents)[c.clusterID := c]
      ensures c.stopHeartbeat
    {
      agents := agents[c.clusterID := c];
      c.stopHeartbeat := true;
    }

    /** `unregister` up to the registry call. It is told the cluster, not the connection:
        it removes, and cancels, whichever connection holds the entry. */
    method Unregister(clusterID: ClusterID)
      modifies this, if clusterID in agents then {agents[clusterID]} else {}
      ensures agents == old(agents) - {clusterID}
      ensures clusterID in old(agents) ==>
                var c := old(agents)[clusterID];
                c.cancelled == (old(c.cancelled) || old(c.stopHeartbeat)) && c.stopHeartbeat == old(c.stopHeartbeat)
    {
      if clusterID in agents {
        var c := agents[clusterID];
        agents := agents - {clusterID};
        if c.stopHeartbeat {
          c.cancelled := true;
        }
      } else {
        assert agents - {clusterID} == agents;
      }
    }

    method Get(clusterID: ClusterID) returns (c: Conn?, ok: bool)
      ensures ok <==> clusterID in agents
      ensures ok ==> c == agents[clusterID]
    {
      if clusterID in agents {
        return agents[clusterID], true;
      }
      return null, false;
    }
  }

  // ------------------------------------------------------------ the step machine

  type SessionID = nat

  /** Where a session's handler stands: hello received; entry inserted; cancel function
      stored; announced; receiving; then, once the stream has failed, entry removed
      (remembering the connection found there), heartbeat stopped, record forgotten. */
  datatype Pc =
    | Opened | Inserted | Armed | Announced | Live
    | Removed(victim: Option<SessionID>) | Stopped | Gone

  /** A heartbeat goroutine: between ticks, inside its registry call, returned. */
  datatype Loop = NotStarted | Idle | Writing | Ended

  datatype Session = Session(replica: Addr, cluster: ClusterID, pc: Pc, armed: bool, cancelled: bool, loop: Loop)

  /** A replica's table entry for a cluster. */
  datatype Slot = Slot(replica: Addr, cluster: ClusterID)

  /** ttl is the fleet's configuration; log is history; crashed maps a replica to the
      time it stopped. */
  datatype State = State(
    ttl: nat,
    now: nat,
    sessions: map<SessionID, Session>,
    agents: map<Slot, SessionID>,
    records: Records,
    log: seq<Op>,
    crashed: map<Addr, nat>)

  function Init(ttl: nat): State {
    State(ttl, 0, map[], map[], map[], [], map[])
  }

  datatype Step =
    | Connect(sid: SessionID, replica: Addr, cluster: ClusterID)
    | Insert(sid: SessionID)
    | Arm(sid: SessionID)
    | Announce(sid: SessionID, ok: bool)
    | Spawn(sid: SessionID)
    | Tick(sid: SessionID)
    | Beat(sid: SessionID, ok: bool)
    | EndLoop(sid: SessionID)
    | Disconnect(sid: SessionID)
    | Cancel(sid: SessionID)
    | ForgetRecord(sid: SessionID, ok: bool)
    | Pass
    | Crash(replica: Addr)

  predicate At(s: State, sid: SessionID, pc: Pc) {
    sid in s.sessions && s.sessions[sid].pc == pc
  }

  predicate LoopAt(s: State, sid: SessionID, loop: Loop) {
    sid in s.sessions && s.sessions[sid].loop == loop
  }

  predicate Enabled(s: State, step: Step) {
    match step
    case Connect(sid, replica, cluster) => sid !in s.sessions && cluster != "" && replica !in s.crashed
    case Insert(sid) => At(s, sid, Opened)
    case Arm(sid) => At(s, sid, Inserted)
    case Announce(sid, _) => At(s, sid, Armed)
    case Spawn(sid) => At(s, sid, Announced)
    // The select may take the tick even when the context is done as well.
    case Tick(sid) => LoopAt(s, sid, Idle)
    case Beat(sid, _) => LoopAt(s, sid, Writing)
    case EndLoop(sid) => LoopAt(s, sid, Idle) && s.sessions[sid].cancelled
    case Disconnect(sid) => At(s, sid, Live)
    case Cancel(sid) => sid in s.sessions && s.sessions[sid].pc.Removed?
    case ForgetRecord(sid, _) => At(s, sid, Stopped)
    case Pass => true
    case Crash(replica) => replica !in s.crashed
  }

  function SlotOf(x: Session): Slot { Slot(x.replica, x.cluster) }

  function Find(s: State, slot: Slot): Option<SessionID> {
    if slot in s.agents then Some(s.agents[slot]) else None
  }

  function Put(s: State, sid: SessionID, x: Session): State {
    s.(sessions := s.sessions[sid := x])
  }

  function Did(s: State, op: Op): State {
    s.(records := Apply(s.records, op), log := s.log + [op])
  }

  /** A failed registry call leaves the registry as it was. */
  function Wrote(s: State, x: Session, ok: bool): State {
    if ok then Did(s, Write(s.now, x.cluster, x.replica, s.ttl)) else s
  }

  function Stop(s: State, victim: Option<SessionID>): State {
    if victim.Some? && victim.value in s.sessions && s.sessions[victim.value].armed
    then Put(s, victim.value, s.sessions[victim.value].(cancelled := true))
    else s
  }

  /** A process takes its table, its sessions and its goroutines with it. */
  function Killed(s: State, replica: Addr): State {
    s.(crashed := s.crashed[replica := s.now],
       agents := map slot | slot in s.agents && slot.replica != replica :: s.agents[slot],
       sessions := map sid | sid in s.sessions ::
         if s.sessions[sid].replica == replica then s.sessions[sid].(pc := Gone, loop := Ended) else s.sessions[sid])
  }

  function Next(s: State, step: Step): State
    requires Enabled(s, step)
  {
    match step
    case Connect(sid, replica, cluster) => Put(s, sid, Session(replica, cluster, Opened, false, false, NotStarted))
    case Insert(sid) =>
      Put(s, sid, s.sessions[sid].(pc := Inserted)).(agents := s.agents[SlotOf(s.sessions[sid]) := sid])
    case Arm(sid) => Put(s, sid, s.sessions[sid].(pc := Armed, armed := true))
    case Announce(sid, ok) => Put(Wrote(s, s.sessions[sid], ok), sid, s.sessions[sid].(pc := Announced))
    case Spawn(sid) => Put(s, sid, s.sessions[sid].(pc := Live, loop := Idle))
    case Tick(sid) => Put(s, sid, s.sessions[sid].(loop := Writing))
    case Beat(sid, ok) => Put(Wrote(s, s.sessions[sid], ok), sid, s.sessions[sid].(loop := Idle))
    case EndLoop(sid) => Put(s, sid, s.sessions[sid].(loop := Ended))
    case Disconnect(sid) =>
      var slot := SlotOf(s.sessions[sid]);
      Put(s, sid, s.sessions[sid].(pc := Removed(Find(s, slot)))).(agents := s.agents - {slot})
    case Cancel(sid) =>
      var t := Stop(s, s.sessions[sid].pc.victim);
      Put(t, sid, t.sessions[sid].(pc := Stopped))
    case ForgetRecord(sid, ok) =>
      var t := if ok then Did(s, Forget(s.now, s.sessions[sid].cluster)) else s;
      Put(t, sid, s.sessions[sid].(pc := Gone))
    case Pass => s.(now := s.now + 1)
    case Crash(replica) => Killed(s, replica)
  }

  ghost predicate IsRun(ttl: nat, states: seq<State>, steps: seq<Step>) {
    && |states| == |steps| + 1
    && states[0] == Init(ttl)
    && forall i | 0 <= i < |steps| :: Enabled(states[i], steps[i]) && states[i + 1] == Next(states[i], steps[i])
  }

  // ------------------------------------------------------------ in every run

  /** Registered and not yet unregistered. */
  predicate Registered(x: Session) {
    x.pc == Inserted || x.pc == Armed || x.pc == Announced || x.pc == Live
  }

  /** A table entry is a registered session that announced this cluster to this replica. */
  predicate EntryOk(s: State, slot: Slot)
    requires slot in s.agents
  {
    && s.agents[slot] in s.sessions
    && SlotOf(s.sessions[s.agents[slot]]) == slot
    && Registered(s.sessions[s.agents[slot]])
  }

  predicate TableSound(s: State) {
    forall slot | slot in s.agents :: EntryOk(s, slot)
  }

  predicate HandlerOk(s: State, x: Session) {
    && x.cluster != ""
    && (x.cancelled ==> x.armed)
    && (x.pc == Opened || x.pc == Inserted ==> !x.armed && x.loop == NotStarted)
    && (x.pc == Armed || x.pc == Announced ==> x.armed && x.loop == NotStarted)
    && (x.pc == Live || x.pc.Removed? || x.pc == Stopped ==> x.armed && x.loop != NotStarted)
    && (x.pc == Gone && x.replica !in s.crashed ==> x.armed && x.loop != NotStarted)
    && (x.loop == Ended ==> x.cancelled || x.replica in s.crashed)
    && (x.replica in s.crashed ==> x.pc == Gone && x.loop == Ended)
  }

  predicate HandlersOk(s: State) {
    forall sid | sid in s.sessions :: HandlerOk(s, s.sessions[sid])
  }

  predicate Announcer(s: State, c: ClusterID, addr: Addr) {
    exists sid | sid in s.sessions :: s.sessions[sid].cluster == c && s.sessions[sid].replica == addr
  }

  /** A write was made by a replica some agent of the cluster connected to, while it was up. */
  predicate OpOk(s: State, op: Op) {
    && op.time <= s.now
    && (op.Write? ==>
          && op.ttl == s.ttl && Announcer(s, op.cluster, op.addr)
          && (op.addr in s.crashed ==> op.time <= s.crashed[op.addr]))
  }

  predicate LogOk(s: State) {
    && s.records == Replay(s.log)
    && (forall i | 0 <= i < |s.log| :: OpOk(s, s.log[i]))
  }

  predicate Sound(s: State) {
    TableSound(s) && HandlersOk(s) && LogOk(s)
  }

  lemma StepKeepsTable(s: State, step: Step)
    requires TableSound(s) && Enabled(s, step)
    ensures TableSound(Next(s, step))
  {
    var t := Next(s, step);
    forall slot | slot in t.agents
      ensures EntryOk(t, slot)
    {
      assert slot in s.agents ==> EntryOk(s, slot);
    }
  }

  lemma CrashKeepsHandler(s: State, replica: Addr, sid: SessionID)
    requires replica !in s.crashed && sid in s.sessions && HandlerOk(s, s.sessions[sid])
    ensures HandlerOk(Killed(s, replica), Killed(s, replica).sessions[sid])
  {
  }

  lemma CancelKeepsHandler(s: State, who: SessionID, sid: SessionID)
    requires Enabled(s, Cancel(who)) && sid in s.sessions && HandlerOk(s, s.sessions[sid])
    ensures sid in Next(s, Cancel(who)).sessions && HandlerOk(Next(s, Cancel(who)), Next(s, Cancel(who)).sessions[sid])
  {
    var t := Stop(s, s.sessions[who].pc.victim);
    assert HandlerOk(t, t.sessions[sid]);
  }

  lemma SetupKeepsHandler(s: State, step: Step, sid: SessionID)
    requires Enabled(s, step) && sid in s.sessions && HandlerOk(s, s.sessions[sid])
    requires step.Connect? || step.Insert? || step.Arm? || step.Announce? || step.Spawn?
    ensures sid in Next(s, step).sessions && HandlerOk(Next(s, step), Next(s, step).sessions[sid])
  {
  }

  lemma LoopKeepsHandler(s: State, step: Step, sid: SessionID)
    requires Enabled(s, step) && sid in s.sessions && HandlerOk(s, s.sessions[sid])
    requires step.Tick? || step.Beat? || step.EndLoop? || step.Disconnect? || step.ForgetRecord? || step.Pass?
    ensures sid in Next(s, step).sessions && HandlerOk(Next(s, step), Next(s, step).sessions[sid])
  {
  }

  lemma StepKeepsHandler(s: State, step: Step, sid: SessionID)
    requires Enabled(s, step) && sid in s.sessions && HandlerOk(s, s.sessions[sid])
    ensures sid in Next(s, step).sessions && HandlerOk(Next(s, step), Next(s, step).sessions[sid])
  {
    if step.Crash? {
      CrashKeepsHandler(s, step.replica, sid);
    } else if step.Cancel? {
      CancelKeepsHandler(s, step.sid, sid);
    } else if step.Connect? || step.Insert? || step.Arm? || step.Announce? || step.Spawn? {
      SetupKeepsHandler(s, step, sid);
    } else {
      LoopKeepsHandler(s, step, sid);
    }
  }

  lemma StepKeepsHandlers(s: State, step: Step)
    requires HandlersOk(s) && Enabled(s, step)
    ensures HandlersOk(Next(s, step))
  {
    var t := Next(s, step);
    forall sid | sid in t.sessions
      ensures HandlerOk(t, t.sessions[sid])
    {
      if sid in s.sessions {
        StepKeepsHandler(s, step, sid);
      }
    }
  }

  /** Sessions are never dropped from the history, and never change cluster or replica. */
  lemma SessionsAreFixed(s: State, step: Step)
    requires Enabled(s, step)
    ensures forall sid | sid in s.sessions ::
              sid in Next(s, step).sessions && SlotOf(Next(s, step).sessions[sid]) == SlotOf(s.sessions[sid])
  {
  }

  lemma OnlyConnectAddsSessions(s: State, step: Step)
    requires Enabled(s, step)
    ensures Next(s, step).sessions.Keys == if step.Connect? then s.sessions.Keys + {step.sid} else s.sessions.Keys
  {
  }

  lemma AnnouncerStays(s: State, step: Step, c: ClusterID, addr: Addr)
    requires Enabled(s, step) && Announcer(s, c, addr)
    ensures Announcer(Next(s, step), c, addr)
  {
    SessionsAreFixed(s, step);
    var sid :| sid in s.sessions && s.sessions[sid].cluster == c && s.sessions[sid].replica == addr;
    assert SlotOf(Next(s, step).sessions[sid]) == Slot(addr, c);
  }

  lemma StepKeepsOp(s: State, step: Step, op: Op)
    requires Enabled(s, step) && OpOk(s, op)
    ensures OpOk(Next(s, step), op)
  {
    if op.Write? {
      AnnouncerStays(s, step, op.cluster, op.addr);
    }
  }

  /** What a step adds to the log. */
  function Added(s: State, step: Step): seq<Op>
    requires Enabled(s, step)
  {
    if (step.Announce? || step.Beat?) && step.ok then
      [Write(s.now, s.sessions[step.sid].cluster, s.sessions[step.sid].replica, s.ttl)]
    else if step.ForgetRecord? && step.ok then [Forget(s.now, s.sessions[step.sid].cluster)]
    else []
  }

  lemma StepAdds(s: State, step: Step)
    requires Enabled(s, step)
    ensures Next(s, step).log == s.log + Added(s, step)
    ensures Next(s, step).records == if Added(s, step) == [] then s.records else Apply(s.records, Added(s, step)[0])
  {
  }

  lemma AddedIsOk(s: State, step: Step)
    requires HandlersOk(s) && Enabled(s, step) && Added(s, step) != []
    ensures OpOk(Next(s, step), Added(s, step)[0])
  {
    var x := s.sessions[step.sid];
    assert HandlerOk(s, x);
    assert Announcer(s, x.cluster, x.replica);
    AnnouncerStays(s, step, x.cluster, x.replica);
  }

  lemma StepKeepsLog(s: State, step: Step)
    requires HandlersOk(s) && LogOk(s) && Enabled(s, step)
    ensures LogOk(Next(s, step))
  {
    var t := Next(s, step);
    StepAdds(s, step);
    assert Added(s, step) != [] ==> t.log[..|t.log| - 1] == s.log;
    forall i | 0 <= i < |t.log|
      ensures OpOk(t, t.log[i])
    {
      if i < |s.log| {
        assert t.log[i] == s.log[i];
        StepKeepsOp(s, step, s.log[i]);
      } else {
        AddedIsOk(s, step);
      }
    }
  }

  lemma {:induction false} RunIsSound(ttl: nat, states: seq<State>, steps: seq<Step>, n: nat)
    requires IsRun(ttl, states, steps) && n < |states|
    ensures Sound(states[n]) && states[n].ttl == ttl
  {
    if n > 0 {
      RunIsSound(ttl, states, steps, n - 1);
      StepKeepsTable(states[n - 1], steps[n - 1]);
      StepKeepsHandlers(states[n - 1], steps[n - 1]);
      StepKeepsLog(states[n - 1], steps[n - 1]);
    }
  }

  /** Unconditionally, whatever overlaps or crashes: the session a replica finds for a
      cluster announced exactly that cluster to exactly that replica, and is registered. */
  lemma TableNamesRegisteredSessions(ttl: nat, states: seq<State>, steps: seq<Step>, n: nat, slot: Slot)
    requires IsRun(ttl, states, steps) && n < |states| && slot in states[n].agents
    ensures var sid := states[n].agents[slot];
            && sid in states[n].sessions && Registered(states[n].sessions[sid])
            && states[n].sessions[sid].cluster == slot.cluster && states[n].sessions[sid].replica == slot.replica
  {
    RunIsSound(ttl, states, steps, n);
    assert EntryOk(states[n], slot);
  }

  /** A lookup naming a replica: an agent of that cluster did connect to it, it wrote the
      record at most a TTL ago and was the last to touch it; so a crashed replica is never
      named more than a TTL after it stopped, though nobody cleans up after it. */
  lemma LookupIsFresh(ttl: nat, states: seq<State>, steps: seq<Step>, n: nat, c: ClusterID, addr: Addr)
    requires IsRun(ttl, states, steps) && n < |states|
    requires Lookup(states[n].records, c, states[n].now) == Some(addr)
    ensures exists i: nat :: LastWriteAt(states[n].log, i, c, addr)
                             && states[n].log[i].time <= states[n].now <= states[n].log[i].time + ttl
    ensures Announcer(states[n], c, addr)
    ensures addr in states[n].crashed ==> states[n].now <= states[n].crashed[addr] + ttl
  {
    RunIsSound(ttl, states, steps, n);
    var s := states[n];
    LeaseIsSound(s.log, c, s.now, addr);
    var i: nat :| LastWriteAt(s.log, i, c, addr) && s.now <= s.log[i].time + s.log[i].ttl;
    assert OpOk(s, s.log[i]);
  }

  // ------------------------------------------------------------ overlapping sessions

  /** No two registered sessions of one cluster on one replica. */
  predicate NoOverlap(s: State) {
    forall a, b | a in s.sessions && b in s.sessions && Registered(s.sessions[a]) && Registered(s.sessions[b]) ::
      SlotOf(s.sessions[a]) == SlotOf(s.sessions[b]) ==> a == b
  }

  /** The table is exactly the registered sessions. */
  predicate Exact(s: State) {
    && TableSound(s)
    && (forall sid | sid in s.sessions && Registered(s.sessions[sid]) :: InTable(s, sid))
  }

  predicate InTable(s: State, sid: SessionID)
    requires sid in s.sessions
  {
    Find(s, SlotOf(s.sessions[sid])) == Some(sid)
  }

  lemma InsertKeepsEntry(s: State, joiner: SessionID, sid: SessionID)
    requires At(s, joiner, Opened) && NoOverlap(Next(s, Insert(joiner)))
    requires sid in s.sessions && (sid == joiner || (Registered(s.sessions[sid]) && InTable(s, sid)))
    ensures InTable(Next(s, Insert(joiner)), sid)
  {
    var t := Next(s, Insert(joiner));
    assert t.sessions[joiner].pc == Inserted;
    assert Registered(t.sessions[sid]) && SlotOf(t.sessions[sid]) == SlotOf(s.sessions[sid]);
  }

  lemma DisconnectKeepsEntry(s: State, gone: SessionID, sid: SessionID)
    requires At(s, gone, Live) && InTable(s, gone)
    requires sid in s.sessions && sid != gone && InTable(s, sid)
    ensures InTable(Next(s, Disconnect(gone)), sid)
  {
  }

  lemma CrashKeepsEntry(s: State, replica: Addr, sid: SessionID)
    requires sid in s.sessions && InTable(s, sid) && s.sessions[sid].replica != replica
    ensures InTable(Killed(s, replica), sid)
  {
  }

  /** Any other step leaves the table, and who is registered, alone. */
  lemma OtherStepsLeaveTable(s: State, step: Step, sid: SessionID)
    requires Enabled(s, step) && !step.Insert? && !step.Disconnect? && !step.Crash?
    requires sid in Next(s, step).sessions && Registered(Next(s, step).sessions[sid])
    ensures Next(s, step).agents == s.agents
    ensures sid in s.sessions && Registered(s.sessions[sid])
    ensures SlotOf(Next(s, step).sessions[sid]) == SlotOf(s.sessions[sid])
  {
  }

  lemma StepKeepsExact(s: State, step: Step)
    requires Exact(s) && Enabled(s, step) && NoOverlap(Next(s, step))
    ensures Exact(Next(s, step))
  {
    var t := Next(s, step);
    StepKeepsTable(s, step);
    forall sid | sid in t.sessions && Registered(t.sessions[sid])
      ensures InTable(t, sid)
    {
      if step.Insert? {
        assert sid != step.sid ==> InTable(s, sid);
        InsertKeepsEntry(s, step.sid, sid);
      } else if step.Disconnect? {
        assert InTable(s, step.sid) && InTable(s, sid);
        DisconnectKeepsEntry(s, step.sid, sid);
      } else if step.Crash? {
        assert InTable(s, sid);
        CrashKeepsEntry(s, step.replica, sid);
      } else {
        OtherStepsLeaveTable(s, step, sid);
        assert InTable(s, sid);
      }
    }
  }

  lemma ExactMeansNoOverlap(s: State)
    requires Exact(s)
    ensures NoOverlap(s)
  {
    forall a, b | a in s.sessions && b in s.sessions && Registered(s.sessions[a]) && Registered(s.sessions[b])
      ensures SlotOf(s.sessions[a]) == SlotOf(s.sessions[b]) ==> a == b
    {
      assert InTable(s, a) && InTable(s, b);
    }
  }

  lemma {:induction false} NoOverlapMeansExact(ttl: nat, states: seq<State>, steps: seq<Step>, n: nat)
    requires IsRun(ttl, states, steps) && n < |states|
    requires forall m | 0 <= m < |states| :: NoOverlap(states[m])
    ensures Exact(states[n])
  {
    if n > 0 {
      NoOverlapMeansExact(ttl, states, steps, n - 1);
      assert NoOverlap(states[n]);
      StepKeepsExact(states[n - 1], steps[n - 1]);
    }
  }

  /** Over a whole run the tables are exactly the registered sessions precisely when no
      two sessions of one cluster on one replica ever overlap. */
  lemma TableExactIff(ttl: nat, states: seq<State>, steps: seq<Step>)
    requires IsRun(ttl, states, steps)
    ensures (forall n | 0 <= n < |states| :: Exact(states[n])) <==> (forall n | 0 <= n < |states| :: NoOverlap(states[n]))
  {
    if forall n | 0 <= n < |states| :: NoOverlap(states[n]) {
      forall n | 0 <= n < |states|
        ensures Exact(states[n])
      {
        NoOverlapMeansExact(ttl, states, steps, n);
      }
    }
    forall n | 0 <= n < |states| && Exact(states[n])
      ensures NoOverlap(states[n])
    {
      ExactMeansNoOverlap(states[n]);
    }
  }

  /** A heartbeat that goes on writing. */
  predicate Beating(x: Session) {
    (x.loop == Idle || x.loop == Writing) && !x.cancelled
  }

  predicate StopsItself(sid: SessionID, x: Session) {
    && (x.pc.Removed? ==> x.pc.victim == Some(sid))
    && (Registered(x) || x.pc.Removed? ==> !x.cancelled && x.loop != Ended)
    && (x.pc == Stopped || x.pc == Gone ==> x.cancelled || x.loop == Ended)
  }

  predicate LoopsMatch(s: State) {
    forall sid | sid in s.sessions :: StopsItself(sid, s.sessions[sid])
  }

  lemma StepKeepsLoops(s: State, step: Step)
    requires Exact(s) && HandlersOk(s) && LoopsMatch(s) && Enabled(s, step)
    ensures LoopsMatch(Next(s, step))
  {
    var t := Next(s, step);
    if step.Disconnect? {
      assert InTable(s, step.sid);
    }
    forall sid | sid in t.sessions
      ensures StopsItself(sid, t.sessions[sid])
    {
      if sid in s.sessions {
        assert StopsItself(sid, s.sessions[sid]) && HandlerOk(s, s.sessions[sid]);
      }
      if step.Cancel? {
        assert StopsItself(step.sid, s.sessions[step.sid]) && HandlerOk(s, s.sessions[step.sid]);
      }
    }
  }

  lemma {:induction false} LoopsMatchInRun(ttl: nat, states: seq<State>, steps: seq<Step>, n: nat)
    requires IsRun(ttl, states, steps) && n < |states|
    requires forall m | 0 <= m < |states| :: NoOverlap(states[m])
    ensures LoopsMatch(states[n])
  {
    if n > 0 {
      LoopsMatchInRun(ttl, states, steps, n - 1);
      NoOverlapMeansExact(ttl, states, steps, n - 1);
      RunIsSound(ttl, states, steps, n - 1);
      StepKeepsLoops(states[n - 1], steps[n - 1]);
    }
  }

  /** Without overlap the heartbeats that go on writing are, one to one, those of the
      receiving sessions in the table, but for a session between its two unregister steps. */
  lemma HeartbeatsMatchTable(ttl: nat, states: seq<State>, steps: seq<Step>, n: nat, sid: SessionID)
    requires IsRun(ttl, states, steps) && n < |states| && sid in states[n].sessions
    requires forall m | 0 <= m < |states| :: NoOverlap(states[m])
    ensures var x := states[n].sessions[sid];
            Beating(x) <==> (x.pc == Live && InTable(states[n], sid)) || x.pc == Removed(Some(sid))
  {
    LoopsMatchInRun(ttl, states, steps, n);
    NoOverlapMeansExact(ttl, states, steps, n);
    RunIsSound(ttl, states, steps, n);
    assert StopsItself(sid, states[n].sessions[sid]) && HandlerOk(states[n], states[n].sessions[sid]);
  }

  /** Unregistering stops the session's own heartbeat exactly when the table still holds
      that session: the guard of unregister's branch decides, not who is leaving. */
  lemma UnregisterStopsOwnLoop(s: State, sid: SessionID)
    requires Sound(s) && At(s, sid, Live) && !s.sessions[sid].cancelled
    ensures var t := Next(s, Disconnect(sid));
            && Enabled(t, Cancel(sid))
            && (Next(t, Cancel(sid)).sessions[sid].cancelled <==> InTable(s, sid))
  {
    assert HandlerOk(s, s.sessions[sid]);
  }

  /** What each step does to the shared registry: a registration or a heartbeat whose call works
      makes every lookup for its cluster, for a TTL, name its replica; a departure whose call
      works leaves none; nothing else, and no call that fails, touches any record. */
  lemma RegistryCallsTakeEffect(s: State, step: Step, c: ClusterID, at: nat)
    requires Enabled(s, step)
    ensures Next(s, step).now == s.now + (if step == Pass then 1 else 0)
    ensures Lookup(Next(s, step).records, c, at) ==
            match step
            case Announce(sid, true) =>
              if s.sessions[sid].cluster != c then Lookup(s.records, c, at)
              else if at <= s.now + s.ttl then Some(s.sessions[sid].replica) else None
            case Beat(sid, true) =>
              if s.sessions[sid].cluster != c then Lookup(s.records, c, at)
              else if at <= s.now + s.ttl then Some(s.sessions[sid].replica) else None
            case ForgetRecord(sid, true) => if s.sessions[sid].cluster == c then None else Lookup(s.records, c, at)
            case _ => Lookup(s.records, c, at)
  {
  }
}
