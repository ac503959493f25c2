/** The cache of handlers for clusters reached through an AWS role (rolecluster.go): checked
    under the lock, built without it, published under it again. */
module RoleCluster {
  import opened Wrappers

  datatype Info = Info(account: string, eksName: string, region: string)

  function RoleARN(account: string): string {
    "arn:aws:iam::" + account + ":role/k8s-ts-mcp-readonly"
  }

  /** A handler, known by the call that built it, and what its client was built from. */
  datatype Handler = Handler(builder: nat, roleARN: string, eksName: string, region: string)

  /** The EKS name falls back to the cluster ID. */
  function HandlerFor(builder: nat, cluster: string, info: Info): Handler {
    Handler(builder, RoleARN(info.account), if info.eksName == "" then cluster else info.eksName, info.region)
  }

  /** The handler a call builds for a cluster: that cluster's account's role in its region, under
      its EKS name, or the cluster ID if it has none. */
  predicate IsHandlerOf(h: Handler, builder: nat, cluster: string, info: Info) {
    && h.builder == builder
    && h.roleARN == "arn:aws:iam::" + info.account + ":role/k8s-ts-mcp-readonly"
    && h.eksName == (if info.eksName == "" then cluster else info.eksName)
    && h.region == info.region
  }

  /** What Handler returns: (h, true, nil), (nil, false, nil), or an error with ok still true. */
  datatype Outcome = Served(handler: Handler) | NotMine | LookupFailed(err: string) | BuildFailed(err: string)

  type Cache = map<string, Handler>

  /** Inventory.Lookup's (info, found, err). */
  type Answer = Result<Option<Info>, string>

  /** The second lock section: whoever is first wins. */
  function Published(handlers: Cache, cluster: string, built: Handler): (Cache, Handler) {
    if cluster in handlers then (handlers, handlers[cluster]) else (handlers[cluster := built], built)
  }

  /** Nothing goes and nothing changes. */
  predicate Extends(before: Cache, after: Cache) {
    forall c | c in before :: c in after && after[c] == before[c]
  }

  class Manager {
    var handlers: Cache

    constructor ()
      ensures handlers == map[]
    {
      handlers := map[];
    }

    /** Handler, from one caller's side: `meanwhile` is the cache as other callers have left it
        by the time this one takes the lock again, or gives up. No inventory is None. */
    method Handler(builder: nat, cluster: string, inventory: Option<Answer>, buildError: Option<string>, meanwhile: Cache)
      returns (r: Outcome)
      requires cluster !in handlers ==> Extends(handlers, meanwhile)
      modifies this
      ensures Extends(old(handlers), handlers)
      ensures cluster in old(handlers) ==> r == Served(old(handlers)[cluster]) && handlers == old(handlers)
      ensures cluster !in old(handlers) ==>
                && (inventory.None? || inventory == Some(Ok(None)) <==> r.NotMine?)
                && (inventory.Some? && inventory.value.Err? <==> r.LookupFailed?)
                && (r.LookupFailed? ==> r.err == inventory.value.error)
                && (inventory.Some? && inventory.value.Ok? && inventory.value.value.Some?
                    <==> r.BuildFailed? || r.Served?)
                && (r.BuildFailed? ==> buildError == Some(r.err)) && (r.Served? ==> buildError.None?)
      ensures cluster !in old(handlers) && !r.Served? ==> handlers == meanwhile
      ensures cluster !in old(handlers) && r.Served? ==>
                if cluster in meanwhile then r.handler == meanwhile[cluster] && handlers == meanwhile
                else
                  && handlers == meanwhile[cluster := r.handler]
                  && IsHandlerOf(r.handler, builder, cluster, inventory.value.value.value)
      ensures r.Served? ==> cluster in handlers && handlers[cluster] == r.handler
    {
      if cluster in handlers {
        return Served(handlers[cluster]);
      }
      handlers := meanwhile;
      if inventory.None? {
        return NotMine;
      }
      var answer := inventory.value;
      if answer.Err? {
        return LookupFailed(answer.error);
      }
      if answer.value.None? {
        return NotMine;
      }
      var info := answer.value.value;
      if buildError.Some? {
        return BuildFailed(buildError.value);
      }
      var built := HandlerFor(builder, cluster, info);
      if cluster in handlers {
        return Served(handlers[cluster]);
      }
      handlers := handlers[cluster := built];
      return Served(built);
    }
  }

  // ------------------------------------------------------------ any number of callers at once

  /** Where a caller is between its atomic steps. */
  datatype At = Arrived | Looking | Building(info: Info) | Publishing(built: Handler) | Returned(outcome: Outcome)

  datatype Call = Call(cluster: string, at: At)

  /** The cache and every call made so far, by its number. */
  datatype State = State(handlers: Cache, calls: seq<Call>)

  datatype Step =
    | Arrive(cluster: string)
    | Check(n: nat)
    | LookUp(n: nat, inventory: Option<Answer>)
    | Build(n: nat, buildError: Option<string>)
    | Publish(n: nat)

  function Moved(s: State, n: nat, at: At): State
    requires n < |s.calls|
  {
    s.(calls := s.calls[n := s.calls[n].(at := at)])
  }

  function AfterLookup(inventory: Option<Answer>): At {
    match inventory
    case None => Returned(NotMine)
    case Some(Err(e)) => Returned(LookupFailed(e))
    case Some(Ok(None)) => Returned(NotMine)
    case Some(Ok(Some(info))) => Building(info)
  }

  predicate Enabled(s: State, step: Step) {
    match step
    case Arrive(_) => true
    case Check(n) => n < |s.calls| && s.calls[n].at.Arrived?
    case LookUp(n, _) => n < |s.calls| && s.calls[n].at.Looking?
    case Build(n, _) => n < |s.calls| && s.calls[n].at.Building?
    case Publish(n) => n < |s.calls| && s.calls[n].at.Publishing?
  }

  function Next(s: State, step: Step): State
    requires Enabled(s, step)
  {
    match step
    case Arrive(cluster) => s.(calls := s.calls + [Call(cluster, Arrived)])
    case Check(n) =>
      var c := s.calls[n].cluster;
      Moved(s, n, if c in s.handlers then Returned(Served(s.handlers[c])) else Looking)
    case LookUp(n, inventory) => Moved(s, n, AfterLookup(inventory))
    case Build(n, buildError) =>
      Moved(s, n, if buildError.Some? then Returned(BuildFailed(buildError.value))
                  else Publishing(HandlerFor(n, s.calls[n].cluster, s.calls[n].at.info)))
    case Publish(n) =>
      var (handlers, winner) := Published(s.handlers, s.calls[n].cluster, s.calls[n].at.built);
      Moved(s.(handlers := handlers), n, Returned(Served(winner)))
  }

  ghost predicate IsRun(states: seq<State>, steps: seq<Step>) {
    && |states| == |steps| + 1
    && states[0] == State(map[], [])
    && forall i | 0 <= i < |steps| :: Enabled(states[i], steps[i]) && states[i + 1] == Next(states[i], steps[i])
  }

  /** Call `n` built the handler the cache holds for `c`, and was served it. */
  predicate BuiltBy(s: State, c: string, n: nat) {
    && n < |s.calls| && c in s.handlers && s.handlers[c].builder == n
    && s.calls[n] == Call(c, Returned(Served(s.handlers[c])))
  }

  predicate CallOk(s: State, n: nat)
    requires n < |s.calls|
  {
    var call := s.calls[n];
    && (call.at.Publishing? ==> call.at.built.builder == n)
    && (call.at.Returned? && call.at.outcome.Served? ==>
          call.cluster in s.handlers && s.handlers[call.cluster] == call.at.outcome.handler)
  }

  predicate Coherent(s: State) {
    && (forall c | c in s.handlers :: BuiltBy(s, c, s.handlers[c].builder))
    && (forall n | 0 <= n < |s.calls| :: CallOk(s, n))
  }

  lemma StepExtends(s: State, step: Step)
    requires Enabled(s, step)
    ensures Extends(s.handlers, Next(s, step).handlers)
    ensures |s.calls| <= |Next(s, step).calls|
    ensures forall n | 0 <= n < |s.calls| :: Next(s, step).calls[n].cluster == s.calls[n].cluster
    ensures forall n | 0 <= n < |s.calls| && s.calls[n].at.Returned? :: Next(s, step).calls[n] == s.calls[n]
  {
  }

  lemma StepKeepsCoherent(s: State, step: Step)
    requires Coherent(s) && Enabled(s, step)
    ensures Coherent(Next(s, step))
  {
    var t := Next(s, step);
    StepExtends(s, step);
    forall c | c in t.handlers
      ensures BuiltBy(t, c, t.handlers[c].builder)
    {
      if c in s.handlers {
        assert BuiltBy(s, c, s.handlers[c].builder);
      } else {
        assert CallOk(s, step.n);
      }
    }
    forall n | 0 <= n < |t.calls|
      ensures CallOk(t, n)
    {
      if n < |s.calls| {
        assert CallOk(s, n);
      }
    }
  }

  lemma {:induction false} RunIsCoherent(states: seq<State>, steps: seq<Step>, i: nat)
    requires IsRun(states, steps) && i < |states|
    ensures Coherent(states[i])
  {
    if i > 0 {
      RunIsCoherent(states, steps, i - 1);
      StepKeepsCoherent(states[i - 1], steps[i - 1]);
    }
  }

  /** The cache only grows, and a key's handler never changes; an outcome, once returned, stays. */
  lemma {:induction false} CacheOnlyGrows(states: seq<State>, steps: seq<Step>, i: nat, j: nat)
    requires IsRun(states, steps) && i <= j < |states|
    ensures Extends(states[i].handlers, states[j].handlers)
    ensures |states[i].calls| <= |states[j].calls|
    ensures forall n | 0 <= n < |states[i].calls| :: states[j].calls[n].cluster == states[i].calls[n].cluster
    ensures forall n | 0 <= n < |states[i].calls| && states[i].calls[n].at.Returned? ::
              states[j].calls[n] == states[i].calls[n]
  {
    if i < j {
      CacheOnlyGrows(states, steps, i, j - 1);
      StepExtends(states[j - 1], steps[j - 1]);
    }
  }

  predicate ServedAt(s: State, n: nat, c: string, h: Handler) {
    n < |s.calls| && s.calls[n] == Call(c, Returned(Served(h)))
  }

  /** Every successful call for a cluster, at whatever point of the run, is handed the same
      handler - however many callers built one - and calls for different clusters never
      share one. */
  lemma OneHandlerPerCluster(states: seq<State>, steps: seq<Step>, i: nat, j: nat, n: nat, m: nat, c: string, d: string,
                             h: Handler, g: Handler)
    requires IsRun(states, steps) && i <= j < |states|
    requires ServedAt(states[i], n, c, h) && ServedAt(states[j], m, d, g)
    ensures c == d <==> h == g
  {
    RunIsCoherent(states, steps, i);
    RunIsCoherent(states, steps, j);
    CacheOnlyGrows(states, steps, i, j);
    assert CallOk(states[i], n) && CallOk(states[j], m);
    assert BuiltBy(states[j], c, h.builder) && BuiltBy(states[j], d, g.builder);
  }

  /** What is cached for a cluster was built by a call for it that was served it: calls that
      fail, or find the cluster is not theirs, leave no trace. */
  lemma FailuresLeaveNoTrace(states: seq<State>, steps: seq<Step>, i: nat, c: string)
    requires IsRun(states, steps) && i < |states|
    ensures c in states[i].handlers <==> exists n, h :: ServedAt(states[i], n, c, h)
    ensures forall n, h :: ServedAt(states[i], n, c, h) ==> c in states[i].handlers && h == states[i].handlers[c]
  {
    var s := states[i];
    RunIsCoherent(states, steps, i);
    if c in s.handlers {
      assert BuiltBy(s, c, s.handlers[c].builder);
      assert ServedAt(s, s.handlers[c].builder, c, s.handlers[c]);
    }
    forall n, h | ServedAt(s, n, c, h)
      ensures c in s.handlers && h == s.handlers[c]
    {
      assert CallOk(s, n);
    }
  }

  // ------------------------------------------------------------ what a handler is built from

  predicate Knows(answer: Option<Answer>) {
    answer.Some? && answer.value.Ok? && answer.value.value.Some?
  }

  /** The inventory never changes what it says of a cluster. */
  ghost predicate Follows(states: seq<State>, steps: seq<Step>, inventory: string -> Info)
    requires IsRun(states, steps)
  {
    forall i | 0 <= i < |steps| && steps[i].LookUp? && Knows(steps[i].inventory) ::
      steps[i].inventory.value.value.value == inventory(states[i].calls[steps[i].n].cluster)
  }

  predicate InfoOk(s: State, n: nat, inventory: string -> Info)
    requires n < |s.calls|
  {
    var call := s.calls[n];
    && (call.at.Building? ==> call.at.info == inventory(call.cluster))
    && (call.at.Publishing? ==> IsHandlerOf(call.at.built, n, call.cluster, inventory(call.cluster)))
  }

  predicate FromInventory(s: State, inventory: string -> Info) {
    && (forall c | c in s.handlers :: IsHandlerOf(s.handlers[c], s.handlers[c].builder, c, inventory(c)))
    && (forall n | 0 <= n < |s.calls| :: InfoOk(s, n, inventory))
  }

  lemma StepFollows(s: State, step: Step, inventory: string -> Info)
    requires Enabled(s, step) && FromInventory(s, inventory)
    requires step.LookUp? && Knows(step.inventory) ==>
               step.inventory.value.value.value == inventory(s.calls[step.n].cluster)
    ensures FromInventory(Next(s, step), inventory)
  {
    var t := Next(s, step);
    forall n | 0 <= n < |t.calls|
      ensures InfoOk(t, n, inventory)
    {
      if n < |s.calls| {
        assert InfoOk(s, n, inventory);
      }
    }
    forall c | c in t.handlers
      ensures IsHandlerOf(t.handlers[c], t.handlers[c].builder, c, inventory(c))
    {
      if c !in s.handlers {
        assert InfoOk(s, step.n, inventory);
      }
    }
  }

  /** With an inventory that does not change, every cached handler assumes that cluster's
      account's role in its region, under its EKS name - or the cluster ID if it has none. */
  lemma {:induction false} CachedFromInventory(states: seq<State>, steps: seq<Step>, inventory: string -> Info, i: nat)
    requires IsRun(states, steps) && Follows(states, steps, inventory) && i < |states|
    ensures FromInventory(states[i], inventory)
  {
    if i > 0 {
      CachedFromInventory(states, steps, inventory, i - 1);
      StepFollows(states[i - 1], steps[i - 1], inventory);
    }
  }

  /** The steps of one call with nobody in between: a cached handler is served at once; otherwise
      the inventory's answer decides, and a handler built for what it said is cached and served. */
  lemma UndisturbedCall(s: State, n: nat, inventory: Option<Answer>, buildError: Option<string>)
    requires n < |s.calls| && s.calls[n].at.Arrived?
    ensures var c, s1 := s.calls[n].cluster, Next(s, Check(n));
            && s1.handlers == s.handlers
            && (c in s.handlers ==> s1.calls[n] == Call(c, Returned(Served(s.handlers[c]))))
            && (c !in s.handlers ==>
                  && Enabled(s1, LookUp(n, inventory))
                  && var s2 := Next(s1, LookUp(n, inventory));
                     && s2.handlers == s.handlers
                     && (inventory.None? || inventory == Some(Ok(None)) ==> s2.calls[n] == Call(c, Returned(NotMine)))
                     && (inventory.Some? && inventory.value.Err? ==>
                           s2.calls[n] == Call(c, Returned(LookupFailed(inventory.value.error))))
                     && (Knows(inventory) ==>
                           && Enabled(s2, Build(n, buildError))
                           && var s3 := Next(s2, Build(n, buildError));
                              && s3.handlers == s.handlers
                              && (buildError.Some? ==> s3.calls[n] == Call(c, Returned(BuildFailed(buildError.value))))
                              && (buildError.None? ==>
                                    && Enabled(s3, Publish(n))
                                    && var s4 := Next(s3, Publish(n));
                                       && c in s4.handlers && s4.handlers == s.handlers[c := s4.handlers[c]]
                                       && IsHandlerOf(s4.handlers[c], n, c, inventory.value.value.value)
                                       && s4.calls[n] == Call(c, Returned(Served(s4.handlers[c]))))))
  {
  }
}
