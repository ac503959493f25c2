/** A request's way through the fleet: role resolver, local table, registry, one peer,
    and then a stream. Every replica's sessions, every stream and every call are one
    state; routing reads whatever the tables happen to hold at each step. */
module Fleet {
  import opened Wrappers
  import opened Wire
  import opened Registry
  import Sessions
  import AgentConn

  type CallID = nat
  type SessionID = Sessions.SessionID

  datatype RouteError = RoleFailed | NotConnected | LookupFailed | DialFailed

  /** Where `Server.Diagnose` and its five siblings stand. */
  datatype Pc =
    | AskRole
    | AskLocal
    | AskRegistry
    | AtPeer(addr: Addr)          // the registry named this replica; dial it, then its InternalService
    | Bound(sid: SessionID)       // holds a connection, about to await on it
    | OnStream(sid: SessionID)    // the *Local call on that connection
    | RoleAnswered(response: Response)
    | Failed(error: RouteError)

  /** hops counts the replica-to-replica forwards of this call. */
  datatype Call = Call(origin: Addr, cluster: ClusterID, request: Request, pc: Pc, hops: nat)

  datatype State = State(
    net: Sessions.State,
    links: map<SessionID, AgentConn.State>,
    calls: map<CallID, Call>)

  function Init(ttl: nat): State {
    State(Sessions.Init(ttl), map[], map[])
  }

  /** What RoleResolver.Handler, and then the handler itself, came back with. */
  datatype RoleAnswer = NotMine | CannotServe | Served(result: HandlerResult)

  /** What peerFor's registry lookup came back with; Nobody also covers a nil Registry. */
  datatype RegistryAnswer = Broken | Nobody | Holder(addr: Addr)

  datatype Step =
    | Net(move: Sessions.Step)
    | Link(sid: SessionID, turn: AgentConn.Step)
    | Accept(k: CallID, origin: Addr, cluster: ClusterID, request: Request)
    | TryRole(k: CallID, role: RoleAnswer)
    | GetLocal(k: CallID)
    | Locate(k: CallID, registry: RegistryAnswer)
    | AskPeer(k: CallID, dialed: bool)
    | Begin(k: CallID, id: RequestID)

  predicate At(s: State, k: CallID, pc: Pc) {
    k in s.calls && s.calls[k].pc == pc
  }

  predicate Enabled(s: State, step: Step) {
    match step
    case Net(move) => Sessions.Enabled(s.net, move)
    case Link(sid, turn) =>
      sid in s.links && !turn.Start? && AgentConn.ByClient(turn) && AgentConn.Enabled(s.links[sid], turn)
    case Accept(k, _, _, _) => k !in s.calls
    case TryRole(k, role) => At(s, k, AskRole) && (role.Served? ==> Answers(s.calls[k].request, role.result))
    case GetLocal(k) => At(s, k, AskLocal)
    // The registry may say anything: stale, wrong, or naming a replica that never was.
    case Locate(k, _) => At(s, k, AskRegistry)
    case AskPeer(k, _) => k in s.calls && s.calls[k].pc.AtPeer?
    case Begin(k, id) =>
      k in s.calls && s.calls[k].pc.Bound? && s.calls[k].pc.sid in s.links
      && AgentConn.FreshID(s.links[s.calls[k].pc.sid].hub, id)
      && k !in s.links[s.calls[k].pc.sid].hub.calls
  }

  function AfterRole(role: RoleAnswer): Pc {
    match role
    case NotMine => AskLocal
    case CannotServe => Failed(RoleFailed)
    case Served(result) => RoleAnswered(ToResponse(result))
  }

  function AfterRegistry(registry: RegistryAnswer): Pc {
    match registry
    case Broken => Failed(LookupFailed)
    case Nobody => Failed(NotConnected)
    case Holder(addr) => AtPeer(addr)
  }

  /** `get` on one replica. */
  function Held(s: State, replica: Addr, cluster: ClusterID): Option<SessionID> {
    Sessions.Find(s.net, Sessions.Slot(replica, cluster))
  }

  function AfterLocal(s: State, c: Call): Pc {
    match Held(s, c.origin, c.cluster)
    case Some(sid) => Bound(sid)
    case None => AskRegistry
  }

  /** internalServiceServer only ever looks at its own table. */
  function AfterPeer(s: State, c: Call, dialed: bool): Pc
    requires c.pc.AtPeer?
  {
    if !dialed then Failed(DialFailed)
    else
      match Held(s, c.pc.addr, c.cluster)
      case Some(sid) => Bound(sid)
      case None => Failed(NotConnected)
  }

  function Route(s: State, k: CallID, pc: Pc): State
    requires k in s.calls
  {
    var c := s.calls[k];
    s.(calls := s.calls[k := c.(pc := pc, hops := if pc.AtPeer? then c.hops + 1 else c.hops)])
  }

  function Next(s: State, step: Step): State
    requires Enabled(s, step)
  {
    match step
    case Net(move) =>
      s.(net := Sessions.Next(s.net, move),
         links := if move.Connect? then s.links[move.sid := AgentConn.INIT] else s.links)
    case Link(sid, turn) => s.(links := s.links[sid := AgentConn.Next(s.links[sid], turn)])
    case Accept(k, origin, cluster, request) => s.(calls := s.calls[k := Call(origin, cluster, request, AskRole, 0)])
    case TryRole(k, role) => Route(s, k, AfterRole(role))
    case GetLocal(k) => Route(s, k, AfterLocal(s, s.calls[k]))
    case Locate(k, registry) => Route(s, k, AfterRegistry(registry))
    case AskPeer(k, dialed) => Route(s, k, AfterPeer(s, s.calls[k], dialed))
    case Begin(k, id) =>
      var c := s.calls[k];
      var sid := c.pc.sid;
      Route(s, k, OnStream(sid)).(links :=
        s.links[sid := AgentConn.Next(s.links[sid], AgentConn.Start(k, id, c.request))])
  }

  ghost predicate IsRun(ttl: nat, states: seq<State>, steps: seq<Step>) {
    && |states| == |steps| + 1
    && states[0] == Init(ttl)
    && forall i | 0 <= i < |steps| :: Enabled(states[i], steps[i]) && states[i + 1] == Next(states[i], steps[i])
  }

  // ------------------------------------------------------------ what every run keeps

  /** The session a call holds announced the call's own cluster. */
  predicate BoundOk(s: State, c: Call) {
    c.pc.Bound? || c.pc.OnStream? ==>
      && c.pc.sid in s.net.sessions && c.pc.sid in s.links
      && s.net.sessions[c.pc.sid].cluster == c.cluster
  }

  predicate HopsOk(c: Call) {
    && c.hops <= 1
    && (c.pc.AskRole? || c.pc.AskLocal? || c.pc.AskRegistry? ==> c.hops == 0)
    && (c.pc.AtPeer? ==> c.hops == 1)
  }

  /** The call on the stream is this one, with this one's arguments. */
  predicate StreamOk(s: State, k: CallID, c: Call) {
    c.pc.OnStream? ==>
      && c.pc.sid in s.links
      && k in s.links[c.pc.sid].hub.calls
      && s.links[c.pc.sid].hub.calls[k].request == c.request
  }

  predicate CallOk(s: State, k: CallID)
    requires k in s.calls
  {
    BoundOk(s, s.calls[k]) && HopsOk(s.calls[k]) && StreamOk(s, k, s.calls[k])
  }

  predicate CallsOk(s: State) {
    forall k | k in s.calls :: CallOk(s, k)
  }

  ghost predicate LinksOk(s: State) {
    && s.links.Keys == s.net.sessions.Keys
    && (forall sid | sid in s.links :: AgentConn.Honest(s.links[sid]))
  }

  ghost predicate Inv(s: State) {
    Sessions.TableSound(s.net) && LinksOk(s) && CallsOk(s)
  }

  lemma InitIsHonest()
    ensures AgentConn.Honest(AgentConn.INIT)
  {
    AgentConn.RunIsHonest([AgentConn.INIT], [], 0);
  }

  lemma StepKeepsLinks(s: State, step: Step)
    requires LinksOk(s) && Enabled(s, step)
    ensures LinksOk(Next(s, step))
  {
    hide AgentConn.Honest, AgentConn.Next, AgentConn.Enabled, Sessions.Next, Sessions.Enabled;
    match step
    case Net(move) =>
      InitIsHonest();
      Sessions.OnlyConnectAddsSessions(s.net, move);
    case Link(sid, turn) => AgentConn.StepKeepsHonest(s.links[sid], turn);
    case Begin(k, id) =>
      var sid := s.calls[k].pc.sid;
      AgentConn.StepKeepsHonest(s.links[sid], AgentConn.Start(k, id, s.calls[k].request));
    case _ =>
  }

  lemma HeldAnnounced(s: State, replica: Addr, cluster: ClusterID)
    requires Sessions.TableSound(s.net) && Held(s, replica, cluster).Some?
    ensures Held(s, replica, cluster).value in s.net.sessions
    ensures s.net.sessions[Held(s, replica, cluster).value].cluster == cluster
  {
    assert Sessions.EntryOk(s.net, Sessions.Slot(replica, cluster));
  }

  lemma NetKeepsCall(s: State, move: Sessions.Step, k: CallID)
    requires LinksOk(s) && Enabled(s, Net(move)) && k in s.calls && CallOk(s, k)
    ensures CallOk(Next(s, Net(move)), k)
  {
    hide AgentConn.Honest, Sessions.Next;
    Sessions.SessionsAreFixed(s.net, move);
  }

  lemma LinkKeepsCall(s: State, sid: SessionID, turn: AgentConn.Step, k: CallID)
    requires Enabled(s, Link(sid, turn)) && k in s.calls && CallOk(s, k)
    ensures CallOk(Next(s, Link(sid, turn)), k)
  {
    AgentConn.CallsAreFixed(s.links[sid], turn);
    hide AgentConn.Next, AgentConn.Enabled;
  }

  lemma BeginKeepsCall(s: State, j: CallID, id: RequestID, k: CallID)
    requires Enabled(s, Begin(j, id)) && k in s.calls && CallOk(s, k) && CallOk(s, j)
    ensures CallOk(Next(s, Begin(j, id)), k)
  {
    AgentConn.CallsAreFixed(s.links[s.calls[j].pc.sid], AgentConn.Start(j, id, s.calls[j].request));
    AgentConn.StartOpens(s.links[s.calls[j].pc.sid], j, id, s.calls[j].request);
    hide AgentConn.Next;
  }

  lemma RouteKeepsCall(s: State, step: Step, k: CallID)
    requires Sessions.TableSound(s.net) && LinksOk(s) && Enabled(s, step) && k in s.calls && CallOk(s, k)
    requires step.Accept? || step.TryRole? || step.GetLocal? || step.Locate? || step.AskPeer?
    ensures k in Next(s, step).calls && CallOk(Next(s, step), k)
  {
    hide AgentConn.Honest;
    if step.GetLocal? && Held(s, s.calls[step.k].origin, s.calls[step.k].cluster).Some? {
      HeldAnnounced(s, s.calls[step.k].origin, s.calls[step.k].cluster);
    }
    if step.AskPeer? && Held(s, s.calls[step.k].pc.addr, s.calls[step.k].cluster).Some? {
      HeldAnnounced(s, s.calls[step.k].pc.addr, s.calls[step.k].cluster);
    }
  }

  lemma StepKeepsCall(s: State, step: Step, k: CallID)
    requires Inv(s) && Enabled(s, step) && k in s.calls
    ensures k in Next(s, step).calls && CallOk(Next(s, step), k)
  {
    hide AgentConn.Honest, AgentConn.Next, AgentConn.Enabled, Sessions.Next, Sessions.Enabled, BoundOk, HopsOk, StreamOk;
    match step
    case Net(move) => NetKeepsCall(s, move, k);
    case Link(sid, turn) => LinkKeepsCall(s, sid, turn, k);
    case Begin(j, id) => BeginKeepsCall(s, j, id, k);
    case _ => RouteKeepsCall(s, step, k);
  }

  lemma StepKeepsInv(s: State, step: Step)
    requires Inv(s) && Enabled(s, step)
    ensures Inv(Next(s, step))
  {
    StepKeepsLinks(s, step);
    if step.Net? {
      Sessions.StepKeepsTable(s.net, step.move);
    }
    var t := Next(s, step);
    forall k | k in t.calls
      ensures CallOk(t, k)
    {
      if k in s.calls {
        StepKeepsCall(s, step, k);
      }
    }
  }

  lemma {:induction false} RunKeepsInv(ttl: nat, states: seq<State>, steps: seq<Step>, n: nat)
    requires IsRun(ttl, states, steps) && n < |states|
    ensures Inv(states[n])
  {
    if n > 0 {
      RunKeepsInv(ttl, states, steps, n - 1);
      StepKeepsInv(states[n - 1], steps[n - 1]);
    }
  }

  /** End to end, with replicas and agents coming, going and crashing, the registry saying
      anything, and calls interleaving and being cancelled: a call that succeeds on a stream
      was forwarded at most once, to the session of an agent that announced exactly the
      cluster asked for, and returns what that agent's handler computed, in its one run for
      this call, from this call's arguments. */
  lemma AnswerIsFromTheRightAgent(ttl: nat, states: seq<State>, steps: seq<Step>, n: nat,
                                  k: CallID, sid: SessionID, r: Response)
    requires IsRun(ttl, states, steps) && n < |states| && At(states[n], k, OnStream(sid))
    requires sid in states[n].links && k in states[n].links[sid].hub.calls
    requires AgentConn.Returned(states[n].links[sid].hub.calls[k], AgentConn.Success(r))
    ensures states[n].calls[k].hops <= 1
    ensures sid in states[n].net.sessions && states[n].net.sessions[sid].cluster == states[n].calls[k].cluster
    ensures KindOfResponse(r) == KindOfRequest(states[n].calls[k].request)
    ensures exists i :: 0 <= i < |states[n].links[sid].invoked|
                        && states[n].links[sid].invoked[i].request == states[n].calls[k].request
                        && r == ToResponse(states[n].links[sid].invoked[i].result)
                        && AgentConn.AnsweredBy(states[n].links[sid], states[n].links[sid].hub.calls[k], r, i)
  {
    hide AgentConn.Honest, AgentConn.Next, AgentConn.Enabled, Sessions.Next, Sessions.Enabled, Next, Enabled;
    RunKeepsInv(ttl, states, steps, n);
    var s := states[n];
    assert StreamOk(s, k, s.calls[k]) && BoundOk(s, s.calls[k]) && HopsOk(s.calls[k]);
    AgentConn.AnswerOf(s.links[sid], k, AgentConn.Success(r));
    var i: nat :| AgentConn.AnsweredBy(s.links[sid], s.links[sid].hub.calls[k], r, i);
    assert s.links[sid].invoked[i].request == s.calls[k].request;
  }

  /** Routing steps still ahead of a call. */
  function Rank(pc: Pc): nat {
    match pc
    case AskRole => 5
    case AskLocal => 4
    case AskRegistry => 3
    case AtPeer(_) => 2
    case Bound(_) => 1
    case _ => 0
  }

  predicate Routes(step: Step, k: CallID) {
    (step.TryRole? || step.GetLocal? || step.Locate? || step.AskPeer? || step.Begin?) && step.k == k
  }

  /** Routing ends: each of a call's own steps lowers its rank, no other step touches it, and
      it is never forwarded twice - whatever the registry says, however stale or wrong. */
  lemma RoutingTerminates(ttl: nat, states: seq<State>, steps: seq<Step>, n: nat, k: CallID)
    requires IsRun(ttl, states, steps) && n < |steps| && k in states[n].calls
    ensures k in states[n + 1].calls
    ensures Routes(steps[n], k) ==> Rank(states[n + 1].calls[k].pc) < Rank(states[n].calls[k].pc)
    ensures !Routes(steps[n], k) ==> states[n + 1].calls[k] == states[n].calls[k]
    ensures states[n + 1].calls[k].hops <= 1
  {
    hide AgentConn.Honest, AgentConn.Next, AgentConn.Enabled, Sessions.Next, Sessions.Enabled;
    RunKeepsInv(ttl, states, steps, n + 1);
    assert Enabled(states[n], steps[n]) && states[n + 1] == Next(states[n], steps[n]);
    assert k in states[n + 1].calls ==> HopsOk(states[n + 1].calls[k]);
  }

  /** A cluster the role resolver claims - whether it then serves it or fails - never
      falls through to an agent, a registry lookup or a peer. */
  lemma {:induction false} RoleClustersStayOffStreams(ttl: nat, states: seq<State>, steps: seq<Step>, n: nat,
                                                      c: ClusterID, k: CallID)
    requires IsRun(ttl, states, steps) && n < |states|
    requires forall i | 0 <= i < |steps| ::
               steps[i].TryRole? && steps[i].k in states[i].calls && states[i].calls[steps[i].k].cluster == c
               ==> !steps[i].role.NotMine?
    requires k in states[n].calls && states[n].calls[k].cluster == c
    ensures var pc := states[n].calls[k].pc; pc.AskRole? || pc.RoleAnswered? || pc == Failed(RoleFailed)
  {
    if n > 0 {
      assert Enabled(states[n - 1], steps[n - 1]) && states[n] == Next(states[n - 1], steps[n - 1]);
      if k in states[n - 1].calls {
        RoleClustersStayOffStreams(ttl, states, steps, n - 1, c, k);
      }
    }
  }

  /** The step of the run that answered a call in process. */
  predicate AnsweredInProcess(states: seq<State>, steps: seq<Step>, i: nat, k: CallID, r: Response) {
    && i < |steps| && i < |states|
    && steps[i].TryRole? && steps[i].k == k && steps[i].role.Served?
    && k in states[i].calls && Answers(states[i].calls[k].request, steps[i].role.result)
    && r == ToResponse(steps[i].role.result)
  }

  /** Over every run, an in-process answer is what one handler invocation for that call returned,
      in full, of the request's own kind: the same as AnswerIsFromTheRightAgent says of a
      stream's answer, without the stream. */
  lemma {:induction false} RoleAnswerIsFromTheHandler(ttl: nat, states: seq<State>, steps: seq<Step>, n: nat,
                                                      k: CallID, r: Response)
    requires IsRun(ttl, states, steps) && n < |states| && At(states[n], k, RoleAnswered(r))
    ensures KindOfResponse(r) == KindOfRequest(states[n].calls[k].request)
    ensures exists i: nat :: i < n && AnsweredInProcess(states, steps, i, k, r)
                        && states[i].calls[k].request == states[n].calls[k].request
                        && (steps[i].role.result.err != Some("") ==> FromResponse(r) == steps[i].role.result)
  {
    hide AgentConn.Next, AgentConn.Enabled, Sessions.Next, Sessions.Enabled, FromResponse;
    if n > 0 {
      var s, step := states[n - 1], steps[n - 1];
      assert Enabled(s, step) && states[n] == Next(s, step);
      if At(s, k, RoleAnswered(r)) {
        RoleAnswerIsFromTheHandler(ttl, states, steps, n - 1, k, r);
        RequestStays(s, step, k);
      } else {
        assert AnsweredInProcess(states, steps, n - 1, k, r);
      }
    }
  }

  lemma RequestStays(s: State, step: Step, k: CallID)
    requires Enabled(s, step) && k in s.calls
    ensures k in Next(s, step).calls && Next(s, step).calls[k].request == s.calls[k].request
  {
    hide AgentConn.Next, AgentConn.Enabled, Sessions.Next, Sessions.Enabled;
  }
}
