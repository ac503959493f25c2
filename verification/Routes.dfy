/** Where a request ends up and why: over every run, the answers it met on its way - role
    resolver, tables, registry, dialling - decide its failure or its connection exactly. */
module Routes {
  import opened Wrappers
  import opened Registry
  import opened Fleet
  import Sessions
  import AgentConn
  import Wire

  /** A replica's table has this session for a cluster. */
  predicate Entry(s: State, replica: Addr, cluster: ClusterID, sid: SessionID) {
    Sessions.Slot(replica, cluster) in s.net.agents && s.net.agents[Sessions.Slot(replica, cluster)] == sid
  }

  predicate NoEntry(s: State, replica: Addr, cluster: ClusterID) {
    Sessions.Slot(replica, cluster) !in s.net.agents
  }

  /** The registry named this replica for the call, some time before step i. */
  ghost predicate Named(steps: seq<Step>, i: nat, k: CallID, addr: Addr) {
    exists j :: 0 <= j < i && j < |steps| && steps[j] == Locate(k, Holder(addr))
  }

  // ------------------------------------------------------------ one step

  /** In this state, this step fails the call with this error. */
  predicate FailsNow(s: State, step: Step, k: CallID, e: RouteError) {
    && k in s.calls
    && match e
       case RoleFailed => step == TryRole(k, CannotServe)
       case LookupFailed => step == Locate(k, Broken)
       case DialFailed => step == AskPeer(k, false)
       case NotConnected =>
         || step == Locate(k, Nobody)
         || (step == AskPeer(k, true) && s.calls[k].pc.AtPeer? && NoEntry(s, s.calls[k].pc.addr, s.calls[k].cluster))
  }

  /** In this state, this step connects the call to this session after that many hops. */
  predicate BindsNow(s: State, step: Step, k: CallID, sid: SessionID, hops: nat) {
    && k in s.calls
    && (|| (step == GetLocal(k) && hops == 0 && Entry(s, s.calls[k].origin, s.calls[k].cluster, sid))
        || (step == AskPeer(k, true) && hops == 1 && s.calls[k].pc.AtPeer?
            && Entry(s, s.calls[k].pc.addr, s.calls[k].cluster, sid)))
  }

  predicate Connected(s: State, k: CallID, sid: SessionID, hops: nat) {
    k in s.calls && (s.calls[k].pc == Bound(sid) || s.calls[k].pc == OnStream(sid)) && s.calls[k].hops == hops
  }

  lemma FailedAfter(s: State, step: Step, k: CallID, e: RouteError)
    requires Enabled(s, step)
    ensures At(Next(s, step), k, Failed(e)) <==> At(s, k, Failed(e)) || FailsNow(s, step, k, e)
  {
    hide AgentConn.Next, AgentConn.Enabled, Sessions.Next, Sessions.Enabled, Wire.ToResponse, Wire.Answers;
  }

  lemma ConnectedAfter(s: State, step: Step, k: CallID, sid: SessionID, hops: nat)
    requires Enabled(s, step) && (k in s.calls ==> HopsOk(s.calls[k]))
    ensures Connected(Next(s, step), k, sid, hops) <==> Connected(s, k, sid, hops) || BindsNow(s, step, k, sid, hops)
  {
    hide AgentConn.Next, AgentConn.Enabled, Sessions.Next, Sessions.Enabled, Wire.ToResponse, Wire.Answers;
  }

  predicate NotLocated(pc: Pc) {
    pc.AskRole? || pc.AskLocal? || pc.AskRegistry?
  }

  lemma LocatedAfter(s: State, step: Step, k: CallID)
    requires Enabled(s, step)
    ensures k !in s.calls ==> !(step.Locate? && step.k == k)
    ensures k !in s.calls && k in Next(s, step).calls ==> Next(s, step).calls[k].pc == AskRole
    ensures k in s.calls ==> k in Next(s, step).calls
    ensures k in s.calls && step.Locate? && step.k == k ==>
              && s.calls[k].pc == AskRegistry
              && (forall addr :: Next(s, step).calls[k].pc == AtPeer(addr) <==> step.registry == Holder(addr))
              && !NotLocated(Next(s, step).calls[k].pc)
    ensures k in s.calls && !(step.Locate? && step.k == k) ==>
              && (Next(s, step).calls[k].pc.AtPeer? ==> Next(s, step).calls[k].pc == s.calls[k].pc)
              && (NotLocated(Next(s, step).calls[k].pc) ==> NotLocated(s.calls[k].pc))
  {
    hide AgentConn.Next, AgentConn.Enabled, Sessions.Next, Sessions.Enabled, Wire.ToResponse, Wire.Answers;
  }

  // ------------------------------------------------------------ over every run

  /** A call waits at exactly the replica the registry named for it. */
  lemma {:induction false} PeerIsNamed(ttl: nat, states: seq<State>, steps: seq<Step>, n: nat, k: CallID)
    requires IsRun(ttl, states, steps) && n < |states|
    ensures k !in states[n].calls || NotLocated(states[n].calls[k].pc) ==>
              forall j | 0 <= j < n :: !(steps[j].Locate? && steps[j].k == k)
    ensures k in states[n].calls && states[n].calls[k].pc.AtPeer? ==>
              forall addr :: states[n].calls[k].pc == AtPeer(addr) <==> Named(steps, n, k, addr)
  {
    hide Enabled, Next;
    if n > 0 {
      var s, step, t := states[n - 1], steps[n - 1], states[n];
      assert Enabled(s, step) && t == Next(s, step);
      PeerIsNamed(ttl, states, steps, n - 1, k);
      LocatedAfter(s, step, k);
      if k in t.calls && t.calls[k].pc.AtPeer? {
        forall addr
          ensures t.calls[k].pc == AtPeer(addr) <==> Named(steps, n, k, addr)
        {
          NamedAfter(steps, n, k, addr);
        }
      }
    }
  }

  lemma NamedAfter(steps: seq<Step>, n: nat, k: CallID, addr: Addr)
    requires 0 < n <= |steps|
    ensures Named(steps, n, k, addr) <==> Named(steps, n - 1, k, addr) || steps[n - 1] == Locate(k, Holder(addr))
  {
  }

  /** A call fails exactly as it was told to: the role resolver claimed its cluster but could not
      serve it; the registry could not be read; it knew nobody, or the replica it named was
      dialled and had no entry for the cluster at that moment; or that replica could not be
      dialled. */
  ghost predicate FailsAt(states: seq<State>, steps: seq<Step>, i: nat, k: CallID, e: RouteError) {
    && i < |steps| < |states| && k in states[i].calls
    && match e
       case RoleFailed => steps[i] == TryRole(k, CannotServe)
       case LookupFailed => steps[i] == Locate(k, Broken)
       case DialFailed => steps[i] == AskPeer(k, false)
       case NotConnected =>
         || steps[i] == Locate(k, Nobody)
         || (steps[i] == AskPeer(k, true)
             && exists addr :: Named(steps, i, k, addr) && NoEntry(states[i], addr, states[i].calls[k].cluster))
  }

  lemma FailsNowIsAt(ttl: nat, states: seq<State>, steps: seq<Step>, i: nat, k: CallID, e: RouteError)
    requires IsRun(ttl, states, steps) && i < |steps|
    ensures FailsNow(states[i], steps[i], k, e) <==> FailsAt(states, steps, i, k, e)
  {
    PeerIsNamed(ttl, states, steps, i, k);
    if steps[i].AskPeer? && steps[i].k == k {
      assert Enabled(states[i], steps[i]);
    }
    hide Next, Named;
  }

  lemma {:induction false} FailedIff(ttl: nat, states: seq<State>, steps: seq<Step>, n: nat, k: CallID, e: RouteError)
    requires IsRun(ttl, states, steps) && n < |states|
    ensures At(states[n], k, Failed(e)) <==> exists i: nat :: i < n && FailsAt(states, steps, i, k, e)
  {
    hide Enabled, Next, FailsNow, FailsAt;
    if n > 0 {
      FailedIff(ttl, states, steps, n - 1, k, e);
      FailedAfter(states[n - 1], steps[n - 1], k, e);
      FailsNowIsAt(ttl, states, steps, n - 1, k, e);
      if i: nat :| i < n && FailsAt(states, steps, i, k, e) && i < n - 1 {
        assert At(states[n - 1], k, Failed(e));
      }
    }
  }

  /** A call is connected, with no hop, to the session its own replica's table held when it
      looked there; or, after one hop, to the one the dialled replica the registry named
      held at that moment. */
  ghost predicate BindsAt(states: seq<State>, steps: seq<Step>, i: nat, k: CallID, sid: SessionID, hops: nat) {
    && i < |steps| < |states| && k in states[i].calls
    && var c := states[i].calls[k];
       || (steps[i] == GetLocal(k) && hops == 0 && Entry(states[i], c.origin, c.cluster, sid))
       || (steps[i] == AskPeer(k, true) && hops == 1
           && exists addr :: Named(steps, i, k, addr) && Entry(states[i], addr, c.cluster, sid))
  }

  lemma BindsNowIsAt(ttl: nat, states: seq<State>, steps: seq<Step>, i: nat, k: CallID, sid: SessionID, hops: nat)
    requires IsRun(ttl, states, steps) && i < |steps|
    ensures BindsNow(states[i], steps[i], k, sid, hops) <==> BindsAt(states, steps, i, k, sid, hops)
  {
    PeerIsNamed(ttl, states, steps, i, k);
    if steps[i].AskPeer? && steps[i].k == k {
      assert Enabled(states[i], steps[i]);
    }
    hide Next, Named;
  }

  lemma {:induction false} ConnectedIff(ttl: nat, states: seq<State>, steps: seq<Step>, n: nat, k: CallID,
                                        sid: SessionID, hops: nat)
    requires IsRun(ttl, states, steps) && n < |states|
    ensures Connected(states[n], k, sid, hops) <==> exists i: nat :: i < n && BindsAt(states, steps, i, k, sid, hops)
  {
    hide Enabled, Next, BindsNow, BindsAt, Inv;
    if n > 0 {
      ConnectedIff(ttl, states, steps, n - 1, k, sid, hops);
      RunKeepsInv(ttl, states, steps, n - 1);
      InvGivesHops(states[n - 1], k);
      ConnectedAfter(states[n - 1], steps[n - 1], k, sid, hops);
      BindsNowIsAt(ttl, states, steps, n - 1, k, sid, hops);
      if i: nat :| i < n && BindsAt(states, steps, i, k, sid, hops) && i < n - 1 {
        assert Connected(states[n - 1], k, sid, hops);
      }
    }
  }

  lemma InvGivesHops(s: State, k: CallID)
    requires Inv(s)
    ensures k in s.calls ==> HopsOk(s.calls[k])
  {
    hide Sessions.TableSound, LinksOk;
    assert k in s.calls ==> CallOk(s, k);
  }

  // ------------------------------------------------------------ never stuck

  /** A stream only carries calls that were put on it. */
  predicate StreamCallsOk(s: State) {
    forall sid, k | sid in s.links && k in s.links[sid].hub.calls :: k in s.calls && s.calls[k].pc == OnStream(sid)
  }

  lemma TurnAddsNoCall(s: AgentConn.State, turn: AgentConn.Step)
    requires AgentConn.Enabled(s, turn)
    ensures AgentConn.Next(s, turn).hub.calls.Keys == s.hub.calls.Keys + (if turn.Start? then {turn.k} else {})
  {
  }

  lemma StepKeepsStreamCalls(s: State, step: Step)
    requires StreamCallsOk(s) && Enabled(s, step)
    ensures StreamCallsOk(Next(s, step))
  {
    if step.Link? {
      TurnAddsNoCall(s.links[step.sid], step.turn);
    }
    if step.Begin? {
      TurnAddsNoCall(s.links[s.calls[step.k].pc.sid], AgentConn.Start(step.k, step.id, s.calls[step.k].request));
    }
    hide AgentConn.Next, Sessions.Next, Sessions.Enabled, Wire.ToResponse, Wire.Answers;
  }

  lemma {:induction false} RunKeepsStreamCalls(ttl: nat, states: seq<State>, steps: seq<Step>, n: nat)
    requires IsRun(ttl, states, steps) && n < |states|
    ensures StreamCallsOk(states[n])
  {
    hide Enabled, Next;
    if n > 0 {
      RunKeepsStreamCalls(ttl, states, steps, n - 1);
      StepKeepsStreamCalls(states[n - 1], steps[n - 1]);
    }
  }

  lemma {:induction false} LongerThanAll(ids: set<string>) returns (n: nat)
    ensures forall id | id in ids :: |id| < n
  {
    if ids == {} {
      n := 0;
    } else {
      var id :| id in ids;
      var m := LongerThanAll(ids - {id});
      n := m + |id| + 1;
      assert forall x | x in ids :: x == id || x in ids - {id};
    }
  }

  lemma FreshIDExists(h: AgentConn.Hub) returns (id: Wire.RequestID)
    ensures AgentConn.FreshID(h, id)
  {
    var n := LongerThanAll(set j | j in h.calls :: h.calls[j].id);
    id := seq(n, _ => 'a');
  }

  /** While a call is on its way, whatever the role resolver, the registry and the dialling come
      back with next, it can take its next step. With RoutingTerminates, it arrives. */
  lemma RoutingNeverStuck(ttl: nat, states: seq<State>, steps: seq<Step>, n: nat, k: CallID)
    requires IsRun(ttl, states, steps) && n < |states| && k in states[n].calls
    ensures states[n].calls[k].pc == AskRole ==>
              forall role: RoleAnswer | role.Served? ==> Wire.Answers(states[n].calls[k].request, role.result) ::
                Enabled(states[n], TryRole(k, role))
    ensures states[n].calls[k].pc == AskLocal ==> Enabled(states[n], GetLocal(k))
    ensures states[n].calls[k].pc == AskRegistry ==> forall answer :: Enabled(states[n], Locate(k, answer))
    ensures states[n].calls[k].pc.AtPeer? ==>
              Enabled(states[n], AskPeer(k, true)) && Enabled(states[n], AskPeer(k, false))
    ensures states[n].calls[k].pc.Bound? ==> exists id :: Enabled(states[n], Begin(k, id))
  {
    if states[n].calls[k].pc.Bound? {
      hide Enabled, Next, LinksOk, Sessions.TableSound;
      RunKeepsStreamCalls(ttl, states, steps, n);
      RunKeepsInv(ttl, states, steps, n);
      assert CallOk(states[n], k);
      var id := FreshIDExists(states[n].links[states[n].calls[k].pc.sid].hub);
      BeginIsEnabled(states[n], k, id);
    }
  }

  lemma BeginIsEnabled(s: State, k: CallID, id: Wire.RequestID)
    requires k in s.calls && s.calls[k].pc.Bound? && s.calls[k].pc.sid in s.links && StreamCallsOk(s)
    requires AgentConn.FreshID(s.links[s.calls[k].pc.sid].hub, id)
    ensures Enabled(s, Begin(k, id))
  {
  }
}
