/** How calls on a stream end: over every run, each outcome has exactly one cause among the
    steps of that call, and a reply that reached a call's channel is never thrown away. */
module Outcomes {
  import opened Wrappers
  import Wire
  import opened AgentConn

  /** The three steps that can end a call. */
  predicate Ends(step: Step, k: CallID) {
    step == SendFails(k) || step == Cancel(k) || step == Take(k)
  }

  /** This step, in this state, gives call `k` the outcome `o`. */
  predicate Causes(s: State, step: Step, k: CallID, o: Outcome) {
    && k in s.hub.calls
    && match step
       case SendFails(j) => j == k && o == SendFailed
       case Cancel(j) => j == k && o == Cancelled
       case Take(j) =>
         && j == k && s.hub.calls[k].channel.Some? && s.hub.calls[k].channel.value.Reply?
         && var response := s.hub.calls[k].channel.value.response;
            if Wire.KindOfResponse(response) == Wire.KindOfRequest(s.hub.calls[k].request) then o == Success(response)
            else o == UnexpectedReply(s.hub.calls[k].channel.value)
       case _ => false
  }

  lemma EndingStep(s: State, step: Step, k: CallID)
    requires Safe(s.hub) && Enabled(s, step) && k in s.hub.calls && Ends(step, k)
    ensures Selecting(s.hub.calls[k]) && k in Next(s, step).hub.calls
    ensures Next(s, step).hub.calls[k].pc.Returning?
    ensures Causes(s, step, k, Next(s, step).hub.calls[k].pc.outcome)
  {
    assert ChannelOk(s.hub.calls[k]);
    hide Safe;
  }

  lemma OtherStep(s: State, step: Step, k: CallID)
    requires Enabled(s, step) && k in s.hub.calls && !Ends(step, k)
    ensures k in Next(s, step).hub.calls
    ensures Selecting(Next(s, step).hub.calls[k]) <==> Selecting(s.hub.calls[k])
    ensures forall o :: Returned(Next(s, step).hub.calls[k], o) <==> Returned(s.hub.calls[k], o)
    ensures Next(s, step).hub.calls[k].request == s.hub.calls[k].request
  {
  }

  lemma NewCallSelects(s: State, step: Step, k: CallID)
    requires Enabled(s, step) && k !in s.hub.calls
    ensures k in Next(s, step).hub.calls ==> Selecting(Next(s, step).hub.calls[k])
    ensures !Ends(step, k)
  {
  }

  /** The cause of an outcome: one step, and no other step of the run ended this call. */
  ghost predicate CausedBy(states: seq<State>, steps: seq<Step>, n: nat, k: CallID, o: Outcome, i: nat) {
    && i < n <= |steps| < |states|
    && Causes(states[i], steps[i], k, o)
    && forall j | 0 <= j < n && Ends(steps[j], k) :: j == i
  }

  lemma EndedOrSelects(s: State, k: CallID)
    requires k in s.hub.calls && !Selecting(s.hub.calls[k])
    ensures exists o :: Returned(s.hub.calls[k], o)
  {
    assert Returned(s.hub.calls[k], s.hub.calls[k].pc.outcome);
  }

  lemma ReturnedOnce(c: Call, o: Outcome, p: Outcome)
    requires Returned(c, o) && Returned(c, p)
    ensures o == p && !Selecting(c)
  {
  }

  lemma CausesEnds(s: State, step: Step, k: CallID, o: Outcome)
    requires Causes(s, step, k, o)
    ensures Ends(step, k)
  {
  }

  /** In every run, with any agent: a call still selecting has met none of the three steps; any
      other has met exactly one, which is the cause of its outcome. */
  lemma {:induction false} OutcomeHasOneCause(states: seq<State>, steps: seq<Step>, n: nat, k: CallID)
    requires IsRun(states, steps) && n < |states|
    ensures k !in states[n].hub.calls || Selecting(states[n].hub.calls[k]) ==>
              forall j | 0 <= j < n :: !Ends(steps[j], k)
    ensures k in states[n].hub.calls ==>
              forall o | Returned(states[n].hub.calls[k], o) :: exists i :: CausedBy(states, steps, n, k, o, i)
  {
    hide Enabled, Next, Safe, Causes, Ends, Selecting, Returned;
    if n == 0 {
      assert k !in INIT.hub.calls;
    } else {
      var s, step, t := states[n - 1], steps[n - 1], states[n];
      assert Enabled(s, step) && t == Next(s, step);
      OutcomeHasOneCause(states, steps, n - 1, k);
      RunIsSafe(states, steps, n - 1);
      if k !in s.hub.calls {
        NewCallSelects(s, step, k);
        NoneReturned(t, k);
      } else if Ends(step, k) {
        EndingStep(s, step, k);
        EndingIsReturned(t, k);
        forall o | Returned(t.hub.calls[k], o)
          ensures exists i :: CausedBy(states, steps, n, k, o, i)
        {
          ReturnedOnce(t.hub.calls[k], o, t.hub.calls[k].pc.outcome);
          assert CausedBy(states, steps, n, k, o, n - 1);
        }
      } else {
        OtherStep(s, step, k);
        forall o | Returned(t.hub.calls[k], o)
          ensures exists i :: CausedBy(states, steps, n, k, o, i)
        {
          var i :| CausedBy(states, steps, n - 1, k, o, i);
          assert CausedBy(states, steps, n, k, o, i);
        }
      }
    }
  }

  lemma NoneReturned(s: State, k: CallID)
    requires k in s.hub.calls ==> Selecting(s.hub.calls[k])
    ensures k in s.hub.calls ==> forall o :: !Returned(s.hub.calls[k], o)
  {
  }

  lemma EndingIsReturned(s: State, k: CallID)
    requires k in s.hub.calls && s.hub.calls[k].pc.Returning?
    ensures Returned(s.hub.calls[k], s.hub.calls[k].pc.outcome) && !Selecting(s.hub.calls[k])
  {
  }

  /** So a call comes back cancelled if and only if its caller cancelled it while it waited, and
      with a send failure if and only if its request could not be sent. */
  lemma FailuresAreCaused(states: seq<State>, steps: seq<Step>, n: nat, k: CallID)
    requires IsRun(states, steps) && n < |states| && k in states[n].hub.calls
    ensures Returned(states[n].hub.calls[k], Cancelled) <==> exists i :: 0 <= i < n && steps[i] == Cancel(k)
    ensures Returned(states[n].hub.calls[k], SendFailed) <==> exists i :: 0 <= i < n && steps[i] == SendFails(k)
  {
    OutcomeHasOneCause(states, steps, n, k);
    hide Enabled, Next, Returned, Selecting;
    if exists o :: Returned(states[n].hub.calls[k], o) {
      var o :| Returned(states[n].hub.calls[k], o);
      var i :| CausedBy(states, steps, n, k, o, i);
      forall p | Returned(states[n].hub.calls[k], p)
        ensures p == o
      {
        ReturnedOnce(states[n].hub.calls[k], o, p);
      }
    } else if !Selecting(states[n].hub.calls[k]) {
      EndedOrSelects(states[n], k);
      assert false;
    }
  }

  predicate Succeeded(s: State, k: CallID, r: Wire.Response) {
    k in s.hub.calls && Returned(s.hub.calls[k], Success(r))
  }

  /** With agents that run client.go, taking the reply is success with that very response. */
  lemma TakingSucceeds(s: State, k: CallID)
    requires Honest(s) && Enabled(s, Take(k))
    ensures k in s.hub.calls && s.hub.calls[k].channel.Some? && s.hub.calls[k].channel.value.Reply?
    ensures Succeeded(Next(s, Take(k)), k, s.hub.calls[k].channel.value.response)
  {
    EndingStep(s, Take(k), k);
    var msg := s.hub.calls[k].channel.value;
    assert ChannelOk(s.hub.calls[k]) && Genuine(s.invoked, msg);
    GenuineIsExpected(s, k, msg);
    hide Next, Honest, Safe;
    assert Wire.KindOfResponse(msg.response) == Wire.KindOfRequest(s.hub.calls[k].request);
  }

  /** In a client run that has come to rest, every call that was sent, was not cancelled, and
      whose reply the agent did not fail to send, has succeeded. */
  lemma AtRestMeansAnswered(states: seq<State>, steps: seq<Step>, n: nat, k: CallID)
    requires ClientRun(states, steps) && n < |states| && k in states[n].hub.calls
    requires Quiet(states[n]) && !Enabled(states[n], Take(k))
    requires states[n].hub.calls[k].pc != Registered && states[n].lost[states[n].hub.calls[k].id] == 0
    requires forall i | 0 <= i < n :: steps[i] != Cancel(k) && steps[i] != SendFails(k)
    ensures exists r :: Succeeded(states[n], k, r)
  {
    RunIsHonest(states, steps, n);
    var c := states[n].hub.calls[k];
    if c.pc == Waiting {
      QuietCall(states[n], k);
      assert false;
    }
    hide Enabled, Next, Quiet, Honest;
    var o := c.pc.outcome;
    FailuresAreCaused(states, steps, n, k);
    CallGetsItsOwnAnswer(states, steps, n, k, o);
    assert Returned(c, o);
    assert Succeeded(states[n], k, o.response);
  }

  // ------------------------------------------------------------ a waiting call can always be answered

  ghost predicate Leads(states: seq<State>, steps: seq<Step>) {
    && |states| == |steps| + 1
    && forall i | 0 <= i < |steps| ::
         ByClient(steps[i]) && Enabled(states[i], steps[i]) && states[i + 1] == Next(states[i], steps[i])
  }

  /** A way on in which the caller does nothing but take its reply, ending in success. */
  ghost predicate WayToSuccess(states: seq<State>, steps: seq<Step>, s: State, k: CallID, r: Wire.Response) {
    && Leads(states, steps) && states[0] == s
    && (forall i | 0 <= i < |steps| :: Moves(steps[i]) || steps[i] == Take(k))
    && Succeeded(states[|steps|], k, r)
  }

  ghost predicate CanSucceed(s: State, k: CallID) {
    exists states, steps, r :: WayToSuccess(states, steps, s, k, r)
  }

  lemma OneStepMore(s: State, step: Step, k: CallID)
    requires ByClient(step) && Enabled(s, step) && (Moves(step) || step == Take(k)) && CanSucceed(Next(s, step), k)
    ensures CanSucceed(s, k)
  {
    hide Enabled, Next, Succeeded, Moves, ByClient;
    var states, steps, r :| WayToSuccess(states, steps, Next(s, step), k, r);
    LongerLeads(s, step, states, steps);
    var longer, script := [s] + states, [step] + steps;
    assert longer[|script|] == states[|steps|];
    assert WayToSuccess(longer, script, s, k, r);
  }

  lemma LongerLeads(s: State, step: Step, states: seq<State>, steps: seq<Step>)
    requires ByClient(step) && Enabled(s, step) && Leads(states, steps) && states[0] == Next(s, step)
    ensures Leads([s] + states, [step] + steps)
  {
    hide Enabled, Next, ByClient;
    var longer, script := [s] + states, [step] + steps;
    forall i | 0 <= i < |script|
      ensures ByClient(script[i]) && Enabled(longer[i], script[i]) && longer[i + 1] == Next(longer[i], script[i])
    {
      if i > 0 {
        assert longer[i] == states[i - 1] && script[i] == steps[i - 1] && longer[i + 1] == states[i];
      }
    }
  }

  lemma GoodStep(s: State) returns (step: Step)
    requires Safe(s.hub) && !Quiet(s)
    ensures Moves(step) && !step.AgentSendFails? && Enabled(s, step)
  {
    if s.toAgent != [] {
      step := AgentReceives;
    } else if s.jobs != multiset{} {
      var job :| job in s.jobs;
      step := AgentAnswers(job, AnyResult(job.request));
    } else if s.hub.loop.Delivering? {
      assert ChannelOk(s.hub.calls[s.hub.loop.call]);
      step := Deliver;
    } else {
      step := HubReceives;
    }
  }

  lemma GoodStepKeepsWaiting(s: State, step: Step, k: CallID)
    requires Enabled(s, step) && Moves(step) && !step.AgentSendFails? && At(s.hub, k, Waiting)
    ensures At(Next(s, step).hub, k, Waiting) && Next(s, step).hub.calls[k].id == s.hub.calls[k].id
    ensures Next(s, step).lost == s.lost
  {
  }

  /** A call can be sent or fail to be, cancelled, answered and returned whenever it stands there. */
  lemma CallersAreFree(s: State, k: CallID)
    ensures At(s.hub, k, Registered) ==> Enabled(s, SendOk(k)) && Enabled(s, SendFails(k))
    ensures At(s.hub, k, Waiting) ==> Enabled(s, Cancel(k))
    ensures At(s.hub, k, Waiting) && s.hub.calls[k].channel.Some? ==> Enabled(s, Take(k))
    ensures k in s.hub.calls && s.hub.calls[k].pc.Returning? ==> Enabled(s, AgentConn.Forget(k))
    ensures Enabled(s, SendOk(k)) ==> At(Next(s, SendOk(k)).hub, k, Waiting)
  {
  }

  lemma TakeNow(s: State, k: CallID)
    requires Honest(s) && At(s.hub, k, Waiting) && s.hub.calls[k].channel.Some?
    ensures CanSucceed(s, k)
  {
    CallersAreFree(s, k);
    hide *;
    TakingSucceeds(s, k);
    AlreadyThere(Next(s, Take(k)), k, s.hub.calls[k].channel.value.response);
    TakeIsByClient(k);
    OneStepMore(s, Take(k), k);
  }

  lemma TakeIsByClient(k: CallID)
    ensures ByClient(Take(k))
  {
  }

  lemma AlreadyThere(s: State, k: CallID, r: Wire.Response)
    requires Succeeded(s, k, r)
    ensures CanSucceed(s, k)
  {
    hide Succeeded, Enabled, Next;
    assert WayToSuccess([s], [], s, k, r);
  }

  /** Whatever has happened so far, a waiting call can still get its answer, unless the agent has
      already failed to send it: nothing but the agent, the streams and the receive loop
      doing their work has to happen. */
  lemma {:induction false} WaitingCanSucceed(s: State, k: CallID)
    requires Honest(s) && At(s.hub, k, Waiting) && s.lost[s.hub.calls[k].id] == 0
    ensures CanSucceed(s, k)
    decreases Work(s)
  {
    if s.hub.calls[k].channel.Some? {
      TakeNow(s, k);
    } else {
      if Quiet(s) {
        QuietCall(s, k);
        assert false;
      }
      var step := GoodStep(s);
      WorkShrinks(s, step);
      GoodStepKeepsWaiting(s, step, k);
      StepKeepsHonest(s, step);
      hide Honest, Enabled, Next, Work, Quiet;
      WaitingCanSucceed(Next(s, step), k);
      OneStepMore(s, step, k);
    }
  }

  /** That much is so in every run. */
  lemma AnyWaitingCallCanSucceed(states: seq<State>, steps: seq<Step>, n: nat, k: CallID)
    requires ClientRun(states, steps) && n < |states| && At(states[n].hub, k, Waiting)
    requires states[n].lost[states[n].hub.calls[k].id] == 0
    ensures CanSucceed(states[n], k)
  {
    RunIsHonest(states, steps, n);
    WaitingCanSucceed(states[n], k);
  }
}
