/** One connected agent's stream: the hub's request/response correlation and the
    agent's side of it, first as the lock sections of agentConn, then as a step
    machine in which any number of calls, the receive loop and the agent's
    goroutines interleave freely. */
module AgentConn {
  import opened Wrappers
  import opened Wire

  // ------------------------------------------------------------ the lock sections

  /** `make(chan *pb.AgentMessage, 1)`. */
  class ReplyChannel {
    var slot: Option<AgentMessage>

    constructor ()
      ensures slot == None
    {
      slot := None;
    }
  }

  class PendingTable {
    var pending: map<RequestID, ReplyChannel>

    constructor ()
      ensures pending == map[]
    {
      pending := map[];
    }

    /** `await`: a new one-slot channel replaces whatever the ID held. */
    method Await(id: RequestID) returns (ch: ReplyChannel)
      modifies this
      ensures fresh(ch) && ch.slot == None
      ensures pending == AfterAwait(old(pending), id, ch)
    {
      ch := new ReplyChannel();
      pending := pending[id := ch];
    }

    /** `forget`, deferred by every caller. */
    method Forget(id: RequestID)
      modifies this
      ensures pending == AfterForget(old(pending), id)
    {
      pending := pending - {id};
    }

    /** `dispatch`. The precondition is what keeps `ch <- msg` from blocking the
        receive loop; ChannelNeverBlocks below shows that every run meets it. */
    method Dispatch(msg: AgentMessage)
      requires msg.Reply? && msg.id in pending ==> pending[msg.id].slot == None
      modifies this, if msg.Reply? && msg.id in pending then {pending[msg.id]} else {}
      ensures pending == (if msg.Reply? then AfterForget(old(pending), msg.id) else old(pending))
      ensures msg.Reply? && msg.id in old(pending) ==> old(pending)[msg.id].slot == Some(msg)
    {
      if msg.Reply? {
        if msg.id in pending {
          var ch := pending[msg.id];
          pending := pending - {msg.id};
          ch.slot := Some(msg);
        } else {
          assert pending - {msg.id} == pending;
        }
      }
    }
  }

  function AfterAwait<C>(pending: map<RequestID, C>, id: RequestID, ch: C): map<RequestID, C> {
    pending[id := ch]
  }

  function AfterForget<C>(pending: map<RequestID, C>, id: RequestID): map<RequestID, C> {
    pending - {id}
  }

  // ------------------------------------------------------------ the step machine

  type CallID = nat

  datatype Outcome =
    | Success(response: Response)
    | SendFailed
    | UnexpectedReply(got: AgentMessage)
    | Cancelled

  /** Where a `*Local` call stands: pending entry made, request sent and selecting,
      about to run its deferred forget, returned. */
  datatype Pc = Registered | Waiting | Returning(outcome: Outcome) | Done(outcome: Outcome)

  /** `channel` is the call's one-slot channel and `delivered` counts what was ever
      put in it. */
  datatype Call = Call(id: RequestID, request: Request, pc: Pc, channel: Option<AgentMessage>, delivered: nat)

  /** The hub's receive loop: in Recv, or past dispatch's lock and at `ch <- msg`. */
  datatype Loop = Receiving | Delivering(call: CallID, msg: AgentMessage)

  /** The hub's side of the connection. */
  datatype Hub = Hub(pending: map<RequestID, CallID>, calls: map<CallID, Call>, loop: Loop)

  predicate At(h: Hub, k: CallID, pc: Pc) {
    k in h.calls && h.calls[k].pc == pc
  }

  predicate FreshID(h: Hub, id: RequestID) {
    forall j | j in h.calls :: h.calls[j].id != id
  }

  function Opened(h: Hub, k: CallID, id: RequestID, q: Request): Hub {
    h.(pending := AfterAwait(h.pending, id, k), calls := h.calls[k := Call(id, q, Registered, None, 0)])
  }

  function Moved(h: Hub, k: CallID, pc: Pc): Hub
    requires k in h.calls
  {
    h.(calls := h.calls[k := h.calls[k].(pc := pc)])
  }

  /** dispatch up to its unlock: a pending ID is claimed, anything else is ignored. */
  function Claimed(h: Hub, msg: AgentMessage): Hub {
    if msg.Reply? && msg.id in h.pending
    then h.(pending := AfterForget(h.pending, msg.id), loop := Delivering(h.pending[msg.id], msg))
    else h
  }

  /** `ch <- msg`, enabled while the slot is free. */
  predicate CanPut(h: Hub) {
    h.loop.Delivering? && h.loop.call in h.calls && h.calls[h.loop.call].channel == None
  }

  function Put(h: Hub): Hub
    requires CanPut(h)
  {
    var k := h.loop.call;
    var c := h.calls[k];
    h.(loop := Receiving, calls := h.calls[k := c.(channel := Some(h.loop.msg), delivered := c.delivered + 1)])
  }

  /** The type assertion after the select: the reply must be of the request's own kind. */
  function Received(q: Request, msg: AgentMessage): Outcome {
    if msg.Reply? && KindOfResponse(msg.response) == KindOfRequest(q) then Success(msg.response)
    else UnexpectedReply(msg)
  }

  function Taken(h: Hub, k: CallID): Hub
    requires k in h.calls && h.calls[k].channel.Some?
  {
    var c := h.calls[k];
    h.(calls := h.calls[k := c.(pc := Returning(Received(c.request, c.channel.value)), channel := None)])
  }

  function Forgotten(h: Hub, k: CallID): Hub
    requires k in h.calls && h.calls[k].pc.Returning?
  {
    Moved(h, k, Done(h.calls[k].pc.outcome)).(pending := AfterForget(h.pending, h.calls[k].id))
  }

  // ------------------------------------------------------------ what the hub's side keeps

  predicate InFlight(h: Hub, k: CallID) {
    k in h.calls && !h.calls[k].pc.Done?
  }

  predicate BeingDelivered(h: Hub, k: CallID) {
    h.loop.Delivering? && h.loop.call == k
  }

  /** A pending ID is that of a call still in flight which nothing has reached yet. */
  predicate PendingOk(h: Hub) {
    forall id | id in h.pending :: PendingEntryOk(h, id)
  }

  predicate PendingEntryOk(h: Hub, id: RequestID)
    requires id in h.pending
  {
    var k := h.pending[id];
    InFlight(h, k) && h.calls[k].id == id && h.calls[k].delivered == 0 && !BeingDelivered(h, k)
  }

  predicate LoopOk(h: Hub) {
    h.loop.Delivering? ==>
      && h.loop.call in h.calls && h.loop.msg.Reply?
      && h.loop.msg.id == h.calls[h.loop.call].id && h.calls[h.loop.call].delivered == 0
  }

  predicate ChannelOk(c: Call) {
    && c.delivered <= 1
    && (c.channel.Some? ==> c.delivered == 1 && c.channel.value.Reply? && c.channel.value.id == c.id)
  }

  predicate ChannelsOk(h: Hub) {
    forall k | k in h.calls :: ChannelOk(h.calls[k])
  }

  predicate Selecting(c: Call) { c.pc == Registered || c.pc == Waiting }

  /** A call that has not returned can still be reached: nothing was dropped on the way. */
  predicate Reachable(h: Hub, k: CallID)
    requires k in h.calls
  {
    h.calls[k].id in h.pending || BeingDelivered(h, k) || h.calls[k].channel.Some?
  }

  predicate ReachableOk(h: Hub) {
    forall k | k in h.calls && Selecting(h.calls[k]) :: Reachable(h, k)
  }

  predicate IDsDistinct(h: Hub) {
    forall j, k | j in h.calls && k in h.calls && h.calls[j].id == h.calls[k].id :: j == k
  }

  predicate Safe(h: Hub) {
    PendingOk(h) && LoopOk(h) && ChannelsOk(h) && ReachableOk(h) && IDsDistinct(h)
  }

  lemma OpenedIsSafe(h: Hub, k: CallID, id: RequestID, q: Request)
    requires Safe(h) && k !in h.calls && FreshID(h, id)
    ensures Safe(Opened(h, k, id, q))
  {
    var t := Opened(h, k, id, q);
    OpenedKeepsPending(h, k, id, q);
    forall j | j in t.calls && Selecting(t.calls[j])
      ensures Reachable(t, j)
    {
      assert j != k ==> Reachable(h, j);
    }
    forall i, j | i in t.calls && j in t.calls && t.calls[i].id == t.calls[j].id
      ensures i == j
    {
      if i != k && j != k {
        assert h.calls[i].id == h.calls[j].id;
      }
    }
    assert ChannelsOk(t) by {
      forall j | j in t.calls
        ensures ChannelOk(t.calls[j])
      {
        assert j != k ==> ChannelOk(h.calls[j]);
      }
    }
  }

  lemma OpenedKeepsPending(h: Hub, k: CallID, id: RequestID, q: Request)
    requires PendingOk(h) && LoopOk(h) && k !in h.calls
    ensures PendingOk(Opened(h, k, id, q)) && LoopOk(Opened(h, k, id, q))
  {
    var t := Opened(h, k, id, q);
    forall i | i in t.pending
      ensures PendingEntryOk(t, i)
    {
      assert i != id ==> PendingEntryOk(h, i);
    }
  }

  lemma MovedIsSafe(h: Hub, k: CallID, pc: Pc)
    requires Safe(h) && k in h.calls && Selecting(h.calls[k]) && (pc == Waiting || pc.Returning?)
    ensures Safe(Moved(h, k, pc))
  {
  }

  lemma ClaimedIsSafe(h: Hub, msg: AgentMessage)
    requires Safe(h) && h.loop == Receiving
    ensures Safe(Claimed(h, msg))
  {
  }

  lemma PutIsSafe(h: Hub)
    requires Safe(h) && CanPut(h)
    ensures Safe(Put(h))
  {
  }

  lemma TakenIsSafe(h: Hub, k: CallID)
    requires Safe(h) && At(h, k, Waiting) && h.calls[k].channel.Some?
    ensures Safe(Taken(h, k))
  {
  }

  lemma ForgottenIsSafe(h: Hub, k: CallID)
    requires Safe(h) && k in h.calls && h.calls[k].pc.Returning?
    ensures Safe(Forgotten(h, k))
  {
  }

  // ------------------------------------------------------------ the whole connection

  /** One invocation of the agent's Handler, kept as history. */
  datatype Invocation = Invocation(id: RequestID, request: Request, result: HandlerResult)

  /** toAgent and toHub are the two ordered directions of the stream; jobs are the
      agent's handler goroutines, which finish in any order. lost and late are
      history: replies the agent failed to send, and replies nobody waited for. */
  datatype State = State(
    hub: Hub,
    toAgent: seq<HubMessage>,
    jobs: multiset<HubMessage>,
    toHub: seq<AgentMessage>,
    invoked: seq<Invocation>,
    lost: multiset<RequestID>,
    late: multiset<RequestID>)

  const INIT := State(Hub(map[], map[], Receiving), [], multiset{}, [], [], multiset{}, multiset{})

  datatype Step =
    | Start(k: CallID, id: RequestID, request: Request)
    | SendOk(k: CallID)
    | SendFails(k: CallID)
    | AgentReceives
    | AgentAnswers(job: HubMessage, result: HandlerResult)
    | AgentSendFails(job: HubMessage, result: HandlerResult)
    | HubReceives
    | Deliver
    | Take(k: CallID)
    | Cancel(k: CallID)
    | Forget(k: CallID)
    | Rogue(msg: AgentMessage)  // an agent that does not run client.go sends anything

  predicate Enabled(s: State, step: Step) {
    match step
    // newRequestID draws 8 random bytes; that it repeats itself is taken not to happen.
    case Start(k, id, _) => k !in s.hub.calls && FreshID(s.hub, id)
    case SendOk(k) => At(s.hub, k, Registered)
    case SendFails(k) => At(s.hub, k, Registered)
    case AgentReceives => s.toAgent != []
    case AgentAnswers(job, result) => job in s.jobs && Answers(job.request, result)
    case AgentSendFails(job, result) => job in s.jobs && Answers(job.request, result)
    case HubReceives => s.hub.loop == Receiving && s.toHub != []
    case Deliver => CanPut(s.hub)
    case Take(k) => At(s.hub, k, Waiting) && s.hub.calls[k].channel.Some?
    case Cancel(k) => At(s.hub, k, Waiting)
    case Forget(k) => k in s.hub.calls && s.hub.calls[k].pc.Returning?
    case Rogue(_) => true
  }

  function Next(s: State, step: Step): State
    requires Enabled(s, step)
  {
    match step
    case Start(k, id, q) => s.(hub := Opened(s.hub, k, id, q))
    case SendOk(k) => s.(hub := Moved(s.hub, k, Waiting), toAgent := s.toAgent + [Mail(s.hub.calls[k])])
    case SendFails(k) => s.(hub := Moved(s.hub, k, Returning(SendFailed)))
    case AgentReceives => s.(toAgent := s.toAgent[1..], jobs := s.jobs + multiset{s.toAgent[0]})
    case AgentAnswers(job, result) =>
      s.(jobs := s.jobs - multiset{job},
         toHub := s.toHub + [Reply(job.id, ToResponse(result))],
         invoked := s.invoked + [Invocation(job.id, job.request, result)])
    case AgentSendFails(job, result) =>
      s.(jobs := s.jobs - multiset{job},
         lost := s.lost + multiset{job.id},
         invoked := s.invoked + [Invocation(job.id, job.request, result)])
    case HubReceives =>
      var msg := s.toHub[0];
      s.(hub := Claimed(s.hub, msg),
         toHub := s.toHub[1..],
         late := if msg.Reply? && msg.id !in s.hub.pending then s.late + multiset{msg.id} else s.late)
    case Deliver => s.(hub := Put(s.hub))
    case Take(k) => s.(hub := Taken(s.hub, k))
    case Cancel(k) => s.(hub := Moved(s.hub, k, Returning(Cancelled)))
    case Forget(k) => s.(hub := Forgotten(s.hub, k))
    case Rogue(msg) => s.(toHub := s.toHub + [msg])
  }

  function Mail(c: Call): HubMessage {
    HubMessage(c.id, c.request)
  }

  /** A run: consecutive states related by enabled steps, from the fresh connection. */
  ghost predicate IsRun(states: seq<State>, steps: seq<Step>) {
    && |states| == |steps| + 1
    && states[0] == INIT
    && forall i | 0 <= i < |steps| :: Enabled(states[i], steps[i]) && states[i + 1] == Next(states[i], steps[i])
  }

  lemma StepKeepsSafe(s: State, step: Step)
    requires Safe(s.hub) && Enabled(s, step)
    ensures Safe(Next(s, step).hub)
  {
    match step
    case Start(k, id, q) => OpenedIsSafe(s.hub, k, id, q);
    case SendOk(k) => MovedIsSafe(s.hub, k, Waiting);
    case SendFails(k) => MovedIsSafe(s.hub, k, Returning(SendFailed));
    case HubReceives => ClaimedIsSafe(s.hub, s.toHub[0]);
    case Deliver => PutIsSafe(s.hub);
    case Take(k) => TakenIsSafe(s.hub, k);
    case Cancel(k) => MovedIsSafe(s.hub, k, Returning(Cancelled));
    case Forget(k) => ForgottenIsSafe(s.hub, k);
    case _ =>
  }

  /** In every interleaving, with any agent at the other end. */
  lemma {:induction false} RunIsSafe(states: seq<State>, steps: seq<Step>, n: nat)
    requires IsRun(states, steps) && n < |states|
    ensures Safe(states[n].hub)
  {
    if n > 0 {
      RunIsSafe(states, steps, n - 1);
      StepKeepsSafe(states[n - 1], steps[n - 1]);
    }
  }

  /** Whatever the agent sends, at most one message is ever put in a call's channel, so
      `ch <- msg` always finds its slot free and the receive loop cannot block there. */
  lemma ChannelNeverBlocks(states: seq<State>, steps: seq<Step>, n: nat)
    requires IsRun(states, steps) && n < |states|
    ensures states[n].hub.loop.Delivering? ==> Enabled(states[n], Deliver)
    ensures forall k | k in states[n].hub.calls :: states[n].hub.calls[k].delivered <= 1
  {
    RunIsSafe(states, steps, n);
    var h := states[n].hub;
    assert forall k | k in h.calls :: ChannelOk(h.calls[k]);
  }

  /** Every pending ID is that of a call still in flight; with none, the table is empty. */
  lemma PendingMeansInFlight(states: seq<State>, steps: seq<Step>, n: nat)
    requires IsRun(states, steps) && n < |states|
    ensures forall id | id in states[n].hub.pending ::
              exists k :: InFlight(states[n].hub, k) && states[n].hub.calls[k].id == id
    ensures (forall k | k in states[n].hub.calls :: states[n].hub.calls[k].pc.Done?) ==> states[n].hub.pending == map[]
  {
    RunIsSafe(states, steps, n);
    var h := states[n].hub;
    forall id | id in h.pending
      ensures exists k :: InFlight(h, k) && h.calls[k].id == id
    {
      assert PendingEntryOk(h, id);
    }
  }

  /** A late, duplicate or unknown reply, or a second Hello, changes no call and no entry. */
  lemma StrayReplyChangesNothing(s: State)
    requires Enabled(s, HubReceives)
    requires s.toHub[0].Reply? ==> s.toHub[0].id !in s.hub.pending
    ensures Next(s, HubReceives).hub == s.hub
    ensures Next(s, HubReceives).toHub == s.toHub[1..]
  {
  }

  // ------------------------------------------------------------ agents running client.go

  predicate ByClient(step: Step) { !step.Rogue? }

  predicate Owned(h: Hub, id: RequestID, q: Request) {
    exists k | k in h.calls :: h.calls[k].id == id && h.calls[k].request == q
  }

  /** Requests in the stream, in a goroutine or invoked are exactly as some call made them. */
  predicate MailOk(s: State) {
    && (forall i | 0 <= i < |s.toAgent| :: Owned(s.hub, s.toAgent[i].id, s.toAgent[i].request))
    && (forall m | m in s.jobs :: Owned(s.hub, m.id, m.request))
    && (forall i | 0 <= i < |s.invoked| ::
          Owned(s.hub, s.invoked[i].id, s.invoked[i].request) && Answers(s.invoked[i].request, s.invoked[i].result))
  }

  /** `r` is what the handler's result for request `id` converts to. */
  predicate Computed(invoked: seq<Invocation>, id: RequestID, r: Response) {
    exists i | 0 <= i < |invoked| :: invoked[i].id == id && r == ToResponse(invoked[i].result)
  }

  predicate Genuine(invoked: seq<Invocation>, msg: AgentMessage) {
    msg.Reply? && Computed(invoked, msg.id, msg.response)
  }

  predicate RepliesOk(s: State) {
    && (forall i | 0 <= i < |s.toHub| :: Genuine(s.invoked, s.toHub[i]))
    && (s.hub.loop.Delivering? ==> Genuine(s.invoked, s.hub.loop.msg))
    && (forall k | k in s.hub.calls && s.hub.calls[k].channel.Some? :: Genuine(s.invoked, s.hub.calls[k].channel.value))
  }

  predicate Returned(c: Call, o: Outcome) {
    c.pc == Returning(o) || c.pc == Done(o)
  }

  predicate OutcomeOk(invoked: seq<Invocation>, c: Call) {
    c.pc.Returning? || c.pc.Done? ==>
      match c.pc.outcome
      case Success(r) => Computed(invoked, c.id, r)
      case UnexpectedReply(_) => false
      case _ => true
  }

  predicate OutcomesOk(s: State) {
    forall k | k in s.hub.calls :: OutcomeOk(s.invoked, s.hub.calls[k])
  }

  lemma OwnedGrows(h: Hub, t: Hub, id: RequestID, q: Request)
    requires Owned(h, id, q)
    requires forall k | k in h.calls ::
               k in t.calls && t.calls[k].id == h.calls[k].id && t.calls[k].request == h.calls[k].request
    ensures Owned(t, id, q)
  {
    var k :| k in h.calls && h.calls[k].id == id && h.calls[k].request == q;
    assert k in t.calls;
  }

  /** No step drops a call or alters its ID or arguments. */
  lemma CallsAreFixed(s: State, step: Step)
    requires Enabled(s, step)
    ensures forall k | k in s.hub.calls ::
              && k in Next(s, step).hub.calls
              && Next(s, step).hub.calls[k].id == s.hub.calls[k].id
              && Next(s, step).hub.calls[k].request == s.hub.calls[k].request
  {
  }

  lemma OwnedSurvives(s: State, step: Step, id: RequestID, q: Request)
    requires Enabled(s, step) && Owned(s.hub, id, q)
    ensures Owned(Next(s, step).hub, id, q)
  {
    CallsAreFixed(s, step);
    OwnedGrows(s.hub, Next(s, step).hub, id, q);
  }

  lemma StartOpens(s: State, k: CallID, id: RequestID, q: Request)
    requires Enabled(s, Start(k, id, q))
    ensures k in Next(s, Start(k, id, q)).hub.calls
    ensures Next(s, Start(k, id, q)).hub.calls[k] == Call(id, q, Registered, None, 0)
  {
  }

  lemma StepKeepsSentMail(s: State, step: Step, i: nat)
    requires MailOk(s) && Enabled(s, step) && i < |Next(s, step).toAgent|
    ensures Owned(Next(s, step).hub, Next(s, step).toAgent[i].id, Next(s, step).toAgent[i].request)
  {
    var t := Next(s, step);
    var m := t.toAgent[i];
    if step.SendOk? && i == |s.toAgent| {
      assert Owned(s.hub, s.hub.calls[step.k].id, s.hub.calls[step.k].request);
    } else {
      assert m == s.toAgent[if step.AgentReceives? then i + 1 else i];
    }
    OwnedSurvives(s, step, m.id, m.request);
  }

  lemma StepKeepsJob(s: State, step: Step, m: HubMessage)
    requires MailOk(s) && Enabled(s, step) && m in Next(s, step).jobs
    ensures Owned(Next(s, step).hub, m.id, m.request)
  {
    assert m in s.jobs || (step.AgentReceives? && m == s.toAgent[0]);
    OwnedSurvives(s, step, m.id, m.request);
  }

  lemma StepKeepsInvocation(s: State, step: Step, i: nat)
    requires MailOk(s) && Enabled(s, step) && i < |Next(s, step).invoked|
    ensures var v := Next(s, step).invoked[i];
            Owned(Next(s, step).hub, v.id, v.request) && Answers(v.request, v.result)
  {
    var v := Next(s, step).invoked[i];
    assert i < |s.invoked| ==> v == s.invoked[i];
    OwnedSurvives(s, step, v.id, v.request);
  }

  lemma StepKeepsMail(s: State, step: Step)
    requires MailOk(s) && Enabled(s, step)
    ensures MailOk(Next(s, step))
  {
    var t := Next(s, step);
    forall i | 0 <= i < |t.toAgent|
      ensures Owned(t.hub, t.toAgent[i].id, t.toAgent[i].request)
    {
      StepKeepsSentMail(s, step, i);
    }
    forall m | m in t.jobs
      ensures Owned(t.hub, m.id, m.request)
    {
      StepKeepsJob(s, step, m);
    }
    forall i | 0 <= i < |t.invoked|
      ensures Owned(t.hub, t.invoked[i].id, t.invoked[i].request) && Answers(t.invoked[i].request, t.invoked[i].result)
    {
      StepKeepsInvocation(s, step, i);
    }
  }

  lemma ComputedGrows(invoked: seq<Invocation>, more: seq<Invocation>, id: RequestID, r: Response)
    requires Computed(invoked, id, r)
    ensures Computed(invoked + more, id, r)
  {
    var i :| 0 <= i < |invoked| && invoked[i].id == id && r == ToResponse(invoked[i].result);
    assert (invoked + more)[i] == invoked[i];
  }

  lemma GenuineGrows(invoked: seq<Invocation>, now: Invocation)
    ensures forall msg | Genuine(invoked, msg) :: Genuine(invoked + [now], msg)
  {
    forall msg | Genuine(invoked, msg)
      ensures Genuine(invoked + [now], msg)
    {
      ComputedGrows(invoked, [now], msg.id, msg.response);
    }
  }

  lemma InvokingKeepsReplies(s: State, step: Step)
    requires RepliesOk(s) && Enabled(s, step) && (step.AgentAnswers? || step.AgentSendFails?)
    ensures RepliesOk(Next(s, step))
  {
    var t := Next(s, step);
    var now := Invocation(step.job.id, step.job.request, step.result);
    GenuineGrows(s.invoked, now);
    assert t.invoked == s.invoked + [now] && t.invoked[|s.invoked|] == now;
    if step.AgentAnswers? {
      assert Computed(t.invoked, now.id, ToResponse(now.result));
    }
    forall i | 0 <= i < |t.toHub|
      ensures Genuine(t.invoked, t.toHub[i])
    {
      assert i < |s.toHub| ==> Genuine(s.invoked, s.toHub[i]) && t.toHub[i] == s.toHub[i];
    }
  }

  lemma HubKeepsReplies(s: State, step: Step)
    requires RepliesOk(s) && Enabled(s, step)
    requires !step.AgentAnswers? && !step.AgentSendFails? && ByClient(step)
    ensures RepliesOk(Next(s, step))
  {
    hide Genuine;
    var t := Next(s, step);
    forall k | k in t.hub.calls && t.hub.calls[k].channel.Some?
      ensures Genuine(t.invoked, t.hub.calls[k].channel.value)
    {
    }
    forall i | 0 <= i < |t.toHub|
      ensures Genuine(t.invoked, t.toHub[i])
    {
      assert t.toHub[i] == s.toHub[if step.HubReceives? then i + 1 else i];
    }
  }

  lemma StepKeepsReplies(s: State, step: Step)
    requires RepliesOk(s) && Enabled(s, step) && ByClient(step)
    ensures RepliesOk(Next(s, step))
  {
    if step.AgentAnswers? || step.AgentSendFails? {
      InvokingKeepsReplies(s, step);
    } else {
      HubKeepsReplies(s, step);
    }
  }

  /** A reply's kind is that of the request whose call it reaches. */
  lemma GenuineIsExpected(s: State, k: CallID, msg: AgentMessage)
    requires Safe(s.hub) && MailOk(s) && k in s.hub.calls && Genuine(s.invoked, msg) && msg.id == s.hub.calls[k].id
    ensures Received(s.hub.calls[k].request, msg) == Success(msg.response)
  {
    var i :| 0 <= i < |s.invoked| && s.invoked[i].id == msg.id && msg.response == ToResponse(s.invoked[i].result);
    var j :| j in s.hub.calls && s.hub.calls[j].id == s.invoked[i].id && s.hub.calls[j].request == s.invoked[i].request;
    assert j == k;
  }

  lemma OutcomeGrows(invoked: seq<Invocation>, now: Invocation, c: Call)
    requires OutcomeOk(invoked, c)
    ensures OutcomeOk(invoked + [now], c)
  {
    if (c.pc.Returning? || c.pc.Done?) && c.pc.outcome.Success? {
      ComputedGrows(invoked, [now], c.id, c.pc.outcome.response);
    }
  }

  lemma TakingKeepsOutcome(s: State, k: CallID)
    requires Safe(s.hub) && MailOk(s) && RepliesOk(s) && Enabled(s, Take(k))
    ensures OutcomeOk(s.invoked, Taken(s.hub, k).calls[k])
  {
    assert ChannelOk(s.hub.calls[k]);
    GenuineIsExpected(s, k, s.hub.calls[k].channel.value);
  }

  lemma StepKeepsOutcomes(s: State, step: Step)
    requires Safe(s.hub) && MailOk(s) && RepliesOk(s) && OutcomesOk(s) && Enabled(s, step) && ByClient(step)
    ensures OutcomesOk(Next(s, step))
  {
    hide Safe, MailOk, RepliesOk;
    var t := Next(s, step);
    if step.Take? {
      TakingKeepsOutcome(s, step.k);
    }
    forall k | k in t.hub.calls
      ensures OutcomeOk(t.invoked, t.hub.calls[k])
    {
      if k in s.hub.calls {
        assert OutcomeOk(s.invoked, s.hub.calls[k]);
        if step.AgentAnswers? || step.AgentSendFails? {
          OutcomeGrows(s.invoked, Invocation(step.job.id, step.job.request, step.result), s.hub.calls[k]);
        }
      }
    }
  }

  // ------------------------------------------------------------ conservation of requests

  function InvokedCount(invoked: seq<Invocation>, id: RequestID): nat {
    if invoked == [] then 0
    else InvokedCount(invoked[..|invoked| - 1], id) + (if invoked[|invoked| - 1].id == id then 1 else 0)
  }

  function ReplyCount(msgs: seq<AgentMessage>, id: RequestID): nat {
    if msgs == [] then 0
    else (if msgs[0].Reply? && msgs[0].id == id then 1 else 0) + ReplyCount(msgs[1..], id)
  }

  lemma {:induction false} ReplyCountAppend(msgs: seq<AgentMessage>, msg: AgentMessage, id: RequestID)
    ensures ReplyCount(msgs + [msg], id) == ReplyCount(msgs, id) + (if msg.Reply? && msg.id == id then 1 else 0)
  {
    if msgs == [] {
      assert [msg][1..] == [];
    } else {
      ReplyCountAppend(msgs[1..], msg, id);
      assert (msgs + [msg])[1..] == msgs[1..] + [msg];
    }
  }

  predicate Sent(c: Call) {
    match c.pc
    case Registered => false
    case Waiting => true
    case Returning(o) => o != SendFailed
    case Done(o) => o != SendFailed
  }

  /** The request is still on its way to the handler. */
  function Asked(s: State, c: Call): nat {
    multiset(s.toAgent)[Mail(c)] + s.jobs[Mail(c)]
  }

  /** The handler has run; its reply is in the stream, in the receive loop's hand, was
      delivered, was not sent, or came after the call was forgotten. */
  function Answered(s: State, k: CallID): nat
    requires k in s.hub.calls
  {
    var c := s.hub.calls[k];
    ReplyCount(s.toHub, c.id) + (if BeingDelivered(s.hub, k) then 1 else 0) + c.delivered + s.lost[c.id] + s.late[c.id]
  }

  predicate CountOk(s: State, k: CallID)
    requires k in s.hub.calls
  {
    && Asked(s, s.hub.calls[k]) + Answered(s, k) == (if Sent(s.hub.calls[k]) then 1 else 0)
    && InvokedCount(s.invoked, s.hub.calls[k].id) == Answered(s, k)
    && (s.hub.calls[k].id in s.hub.pending ==> s.late[s.hub.calls[k].id] == 0)
  }

  predicate Untraced(s: State, id: RequestID) {
    ReplyCount(s.toHub, id) == 0 && InvokedCount(s.invoked, id) == 0 && s.lost[id] == 0 && s.late[id] == 0
  }

  ghost predicate CountsOk(s: State) {
    && (forall k | k in s.hub.calls :: CountOk(s, k))
    && (forall id | FreshID(s.hub, id) :: Untraced(s, id))
  }

  ghost predicate Honest(s: State) {
    Safe(s.hub) && MailOk(s) && RepliesOk(s) && OutcomesOk(s) && CountsOk(s)
  }

  lemma InvokedAppend(invoked: seq<Invocation>, now: Invocation, id: RequestID)
    ensures InvokedCount(invoked + [now], id) == InvokedCount(invoked, id) + (if now.id == id then 1 else 0)
  {
    assert (invoked + [now])[..|invoked|] == invoked;
  }

  lemma OwnedByOne(h: Hub, k: CallID, id: RequestID, q: Request)
    requires IDsDistinct(h) && k in h.calls && Owned(h, id, q) && id == h.calls[k].id
    ensures HubMessage(id, q) == Mail(h.calls[k])
  {
    var j :| j in h.calls && h.calls[j].id == id && h.calls[j].request == q;
    assert j == k;
  }

  lemma ReplyTaken(s: State, id: RequestID)
    requires s.toHub != []
    ensures ReplyCount(s.toHub, id) ==
            (if s.toHub[0].Reply? && s.toHub[0].id == id then 1 else 0) + ReplyCount(s.toHub[1..], id)
  {
  }

  lemma CountOfNewCall(s: State, step: Step)
    requires LoopOk(s.hub) && MailOk(s) && step.Start? && Enabled(s, step) && Untraced(s, step.id)
    ensures CountOk(Next(s, step), step.k)
  {
    forall i | 0 <= i < |s.toAgent|
      ensures s.toAgent[i].id != step.id
    {
      assert Owned(s.hub, s.toAgent[i].id, s.toAgent[i].request);
    }
    forall m | m in s.jobs
      ensures m.id != step.id
    {
      assert Owned(s.hub, m.id, m.request);
    }
    assert HubMessage(step.id, step.request) !in multiset(s.toAgent);
  }

  lemma CountWhenAsked(s: State, step: Step, k: CallID)
    requires IDsDistinct(s.hub) && k in s.hub.calls && CountOk(s, k) && Enabled(s, step)
    requires step.SendOk? || step.AgentReceives?
    ensures CountOk(Next(s, step), k)
  {
    if step.AgentReceives? {
      assert s.toAgent == [s.toAgent[0]] + s.toAgent[1..];
      assert multiset(s.toAgent) == multiset{s.toAgent[0]} + multiset(s.toAgent[1..]);
    }
  }

  lemma JobTaken(s: State, k: CallID, job: HubMessage)
    requires IDsDistinct(s.hub) && MailOk(s) && k in s.hub.calls && job in s.jobs
    ensures s.jobs[Mail(s.hub.calls[k])]
         == (s.jobs - multiset{job})[Mail(s.hub.calls[k])] + (if job.id == s.hub.calls[k].id then 1 else 0)
  {
    assert Owned(s.hub, job.id, job.request);
    if job.id == s.hub.calls[k].id {
      OwnedByOne(s.hub, k, job.id, job.request);
    }
  }

  lemma CountWhenAnswered(s: State, job: HubMessage, result: HandlerResult, k: CallID)
    requires IDsDistinct(s.hub) && MailOk(s) && k in s.hub.calls && CountOk(s, k)
    requires Enabled(s, AgentAnswers(job, result))
    ensures CountOk(Next(s, AgentAnswers(job, result)), k)
  {
    var id := s.hub.calls[k].id;
    JobTaken(s, k, job);
    InvokedAppend(s.invoked, Invocation(job.id, job.request, result), id);
    ReplyCountAppend(s.toHub, Reply(job.id, ToResponse(result)), id);
    hide MailOk, IDsDistinct, ReplyCount, InvokedCount, ToResponse, Answers;
  }

  lemma CountWhenUnsent(s: State, job: HubMessage, result: HandlerResult, k: CallID)
    requires IDsDistinct(s.hub) && MailOk(s) && k in s.hub.calls && CountOk(s, k)
    requires Enabled(s, AgentSendFails(job, result))
    ensures CountOk(Next(s, AgentSendFails(job, result)), k)
  {
    JobTaken(s, k, job);
    InvokedAppend(s.invoked, Invocation(job.id, job.request, result), s.hub.calls[k].id);
    hide MailOk, IDsDistinct, ReplyCount, InvokedCount, ToResponse, Answers;
  }

  lemma CountWhenReceived(s: State, k: CallID)
    requires IDsDistinct(s.hub) && PendingOk(s.hub) && k in s.hub.calls && CountOk(s, k) && Enabled(s, HubReceives)
    ensures CountOk(Next(s, HubReceives), k)
  {
    ReplyTaken(s, s.hub.calls[k].id);
    var msg := s.toHub[0];
    if msg.Reply? && msg.id in s.hub.pending {
      assert PendingEntryOk(s.hub, msg.id);
    }
  }

  lemma CountWhenDelivered(s: State, k: CallID)
    requires LoopOk(s.hub) && k in s.hub.calls && CountOk(s, k) && CanPut(s.hub)
    ensures CountOk(Next(s, Deliver), k)
  {
    hide ReplyCount, InvokedCount;
  }

  lemma CountWhenCallMoves(s: State, step: Step, k: CallID)
    requires IDsDistinct(s.hub) && LoopOk(s.hub) && k in s.hub.calls && CountOk(s, k) && Enabled(s, step)
    requires step.Start? || step.SendFails? || step.Take? || step.Cancel? || step.Forget?
    requires step.Take? ==> ChannelOk(s.hub.calls[step.k])
    ensures CountOk(Next(s, step), k)
  {
    hide ReplyCount, InvokedCount;
  }

  lemma StepKeepsCount(s: State, step: Step, k: CallID)
    requires Safe(s.hub) && MailOk(s) && k in s.hub.calls && CountOk(s, k) && Enabled(s, step) && ByClient(step)
    ensures k in Next(s, step).hub.calls && CountOk(Next(s, step), k)
  {
    match step
    case SendOk(_) => CountWhenAsked(s, step, k);
    case AgentReceives => CountWhenAsked(s, step, k);
    case AgentAnswers(job, result) => CountWhenAnswered(s, job, result, k);
    case AgentSendFails(job, result) => CountWhenUnsent(s, job, result, k);
    case HubReceives => CountWhenReceived(s, k);
    case Deliver => CountWhenDelivered(s, k);
    case _ => CountWhenCallMoves(s, step, k);
  }

  lemma StepKeepsCounts(s: State, step: Step)
    requires Honest(s) && Enabled(s, step) && ByClient(step)
    ensures CountsOk(Next(s, step))
  {
    var t := Next(s, step);
    forall k | k in t.hub.calls
      ensures CountOk(t, k)
    {
      if k in s.hub.calls {
        StepKeepsCount(s, step, k);
      } else {
        assert Untraced(s, step.id);
        CountOfNewCall(s, step);
      }
    }
    forall id | FreshID(t.hub, id)
      ensures Untraced(t, id)
    {
      CallsAreFixed(s, step);
      assert FreshID(s.hub, id);
      StepKeepsUntraced(s, step, id);
    }
  }

  lemma StepKeepsUntraced(s: State, step: Step, id: RequestID)
    requires MailOk(s) && Enabled(s, step) && ByClient(step)
    requires FreshID(s.hub, id) && Untraced(s, id)
    ensures Untraced(Next(s, step), id)
  {
    match step
    case AgentAnswers(job, result) =>
      assert Owned(s.hub, job.id, job.request);
      InvokedAppend(s.invoked, Invocation(job.id, job.request, result), id);
      ReplyCountAppend(s.toHub, Reply(job.id, ToResponse(result)), id);
    case AgentSendFails(job, result) =>
      assert Owned(s.hub, job.id, job.request);
      InvokedAppend(s.invoked, Invocation(job.id, job.request, result), id);
    case HubReceives => ReplyTaken(s, id);
    case _ =>
  }

  lemma StepKeepsHonest(s: State, step: Step)
    requires Honest(s) && Enabled(s, step) && ByClient(step)
    ensures Honest(Next(s, step))
  {
    StepKeepsSafe(s, step);
    StepKeepsMail(s, step);
    StepKeepsReplies(s, step);
    StepKeepsOutcomes(s, step);
    StepKeepsCounts(s, step);
  }

  ghost predicate ClientRun(states: seq<State>, steps: seq<Step>) {
    IsRun(states, steps) && forall i | 0 <= i < |steps| :: ByClient(steps[i])
  }

  lemma {:induction false} RunIsHonest(states: seq<State>, steps: seq<Step>, n: nat)
    requires ClientRun(states, steps) && n < |states|
    ensures Honest(states[n])
  {
    if n > 0 {
      RunIsHonest(states, steps, n - 1);
      StepKeepsHonest(states[n - 1], steps[n - 1]);
    }
  }

  lemma {:induction false} InvokedOnce(invoked: seq<Invocation>, id: RequestID, i: nat)
    requires i < |invoked| && invoked[i].id == id
    ensures InvokedCount(invoked, id) >= 1
    ensures InvokedCount(invoked, id) == 1 ==> forall j | 0 <= j < |invoked| && invoked[j].id == id :: j == i
  {
    var n := |invoked| - 1;
    if i < n {
      InvokedOnce(invoked[..n], id, i);
      forall j | 0 <= j < |invoked| && invoked[j].id == id && InvokedCount(invoked, id) == 1
        ensures j == i
      {
        if j < n {
          assert invoked[..n][j] == invoked[j];
        }
      }
    } else {
      forall j | 0 <= j < n && invoked[j].id == id
        ensures InvokedCount(invoked, id) > 1
      {
        InvokedOnce(invoked[..n], id, j);
      }
    }
  }

  /** The one invocation whose result a successful call returns. */
  ghost predicate AnsweredBy(s: State, c: Call, r: Response, i: nat) {
    && i < |s.invoked|
    && s.invoked[i].id == c.id && s.invoked[i].request == c.request
    && Answers(c.request, s.invoked[i].result)
    && r == ToResponse(s.invoked[i].result)
    && (forall j | 0 <= j < |s.invoked| && s.invoked[j].id == c.id :: j == i)
  }

  /** A call that succeeds returns the response of its own kind that the handler's result
      for that call's own arguments converts to - what the in-process path returns for the
      same result - and the handler ran for it exactly once. No call ever reports an
      unexpected reply. All this in every interleaving, with any cancellations. */
  lemma CallGetsItsOwnAnswer(states: seq<State>, steps: seq<Step>, n: nat, k: CallID, o: Outcome)
    requires ClientRun(states, steps) && n < |states|
    requires k in states[n].hub.calls && Returned(states[n].hub.calls[k], o)
    ensures !o.UnexpectedReply?
    ensures o.Success? ==> KindOfResponse(o.response) == KindOfRequest(states[n].hub.calls[k].request)
    ensures o.Success? ==> exists i :: AnsweredBy(states[n], states[n].hub.calls[k], o.response, i)
  {
    RunIsHonest(states, steps, n);
    AnswerOf(states[n], k, o);
  }

  lemma AnswerOf(s: State, k: CallID, o: Outcome)
    requires Honest(s) && k in s.hub.calls && Returned(s.hub.calls[k], o)
    ensures !o.UnexpectedReply?
    ensures o.Success? ==> KindOfResponse(o.response) == KindOfRequest(s.hub.calls[k].request)
    ensures o.Success? ==> exists i :: AnsweredBy(s, s.hub.calls[k], o.response, i)
  {
    var c := s.hub.calls[k];
    assert OutcomeOk(s.invoked, c);
    if o.Success? {
      var i :| 0 <= i < |s.invoked| && s.invoked[i].id == c.id && o.response == ToResponse(s.invoked[i].result);
      OwnedByOne(s.hub, k, c.id, s.invoked[i].request);
      assert CountOk(s, k);
      InvokedOnce(s.invoked, c.id, i);
      assert AnsweredBy(s, c, o.response, i);
    }
  }

  /** Each request is in exactly one place, and its handler runs at most once, whether
      or not anybody is still waiting for the answer. */
  lemma RequestIsConserved(states: seq<State>, steps: seq<Step>, n: nat, k: CallID)
    requires ClientRun(states, steps) && n < |states| && k in states[n].hub.calls
    ensures Asked(states[n], states[n].hub.calls[k]) + Answered(states[n], k) ==
            (if Sent(states[n].hub.calls[k]) then 1 else 0)
    ensures InvokedCount(states[n].invoked, states[n].hub.calls[k].id) == Answered(states[n], k)
  {
    RunIsHonest(states, steps, n);
    assert CountOk(states[n], k);
  }

  /** Nothing left for the agent, the streams or the receive loop to do. */
  predicate Quiet(s: State) {
    s.toAgent == [] && s.jobs == multiset{} && s.toHub == [] && !Enabled(s, Deliver)
  }

  /** Messages weighted by the steps they still need. */
  function Work(s: State): nat {
    4 * |s.toAgent| + 3 * |s.jobs| + 2 * |s.toHub| + (if s.hub.loop.Delivering? then 1 else 0)
  }

  predicate Moves(step: Step) {
    step.AgentReceives? || step.AgentAnswers? || step.AgentSendFails? || step.HubReceives? || step.Deliver?
  }

  lemma QuietCall(s: State, k: CallID)
    requires Honest(s) && Quiet(s) && At(s.hub, k, Waiting)
    ensures s.hub.calls[k].channel.Some? || s.lost[s.hub.calls[k].id] == 1
  {
    assert CountOk(s, k) && Reachable(s.hub, k);
    if s.hub.loop.Delivering? {
      assert ChannelOk(s.hub.calls[s.hub.loop.call]);
    }
    if s.hub.calls[k].id in s.hub.pending {
      assert PendingEntryOk(s.hub, s.hub.calls[k].id);
      assert Asked(s, s.hub.calls[k]) == 0;
    }
  }

  /** A handler can always return something of its kind. */
  function AnyResult(q: Request): (h: HandlerResult)
    ensures Answers(q, h)
  {
    var r := match KindOfRequest(q)
      case Diagnose => DiagnoseReturned("", "", [], map[], false)
      case Execute => ExecuteReturned(false, [])
      case Scan => ScanReturned([])
      case ApproveAction => ApproveActionReturned(None)
      case GetLogs => GetLogsReturned("")
      case ListNodes => ListNodesReturned([]);
    HandlerResult(r, None)
  }

  lemma SomeStepMoves(s: State)
    requires Safe(s.hub) && !Quiet(s)
    ensures exists step :: Moves(step) && Enabled(s, step)
  {
    if s.toAgent != [] {
      assert Enabled(s, AgentReceives);
    } else if s.jobs != multiset{} {
      var job :| job in s.jobs;
      assert Enabled(s, AgentAnswers(job, AnyResult(job.request)));
    } else if s.hub.loop.Delivering? {
      assert ChannelOk(s.hub.calls[s.hub.loop.call]);
      assert Enabled(s, Deliver);
    } else {
      assert Enabled(s, HubReceives);
    }
  }

  lemma WorkShrinks(s: State, step: Step)
    requires Enabled(s, step) && Moves(step)
    ensures Work(Next(s, step)) < Work(s)
  {
  }

  lemma NothingMislaid(s: State)
    requires Honest(s)
    ensures forall step | Enabled(s, step) && Moves(step) :: Work(Next(s, step)) < Work(s)
    ensures Quiet(s) ==>
              forall k | At(s.hub, k, Waiting) ::
                s.hub.calls[k].channel.Some? || s.lost[s.hub.calls[k].id] == 1
    ensures !Quiet(s) ==> exists step :: Moves(step) && Enabled(s, step)
  {
    forall step | Enabled(s, step) && Moves(step)
      ensures Work(Next(s, step)) < Work(s)
    {
      WorkShrinks(s, step);
    }
    if Quiet(s) {
      forall k | At(s.hub, k, Waiting)
        ensures s.hub.calls[k].channel.Some? || s.lost[s.hub.calls[k].id] == 1
      {
        QuietCall(s, k);
      }
    } else {
      SomeStepMoves(s);
    }
  }

  /** The machinery runs down: every such step takes from a finite amount of work, some
      such step is possible until it is quiet, and once quiet every call still selecting
      has its reply in its channel unless the agent itself failed to send it. */
  lemma NoReplyIsMislaid(states: seq<State>, steps: seq<Step>, n: nat)
    requires ClientRun(states, steps) && n < |states|
    ensures forall step | Enabled(states[n], step) && Moves(step) :: Work(Next(states[n], step)) < Work(states[n])
    ensures Quiet(states[n]) ==>
              forall k | At(states[n].hub, k, Waiting) ::
                states[n].hub.calls[k].channel.Some? || states[n].lost[states[n].hub.calls[k].id] == 1
    ensures !Quiet(states[n]) ==> exists step :: Moves(step) && Enabled(states[n], step)
  {
    RunIsHonest(states, steps, n);
    NothingMislaid(states[n]);
  }
}
