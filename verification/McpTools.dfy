/** The hub's tool handlers: the risk a whole ladder is judged at, troubleshoot, its runbook
    fallback, approve_action, and the append-only audit trail that links them. */
module McpTools {
  import opened Wrappers
  import opened Policy
  import opened Wire
  import AgentCore
  import E = ExecEngine
  import Playbooks

  // ------------------------------------------------------------ the ladder's risk

  /** What maxRisk promises: high only when nothing else is there, otherwise the highest
      of the declared non-high risks; a risk outside the table never raises it. */
  function MaxRisk(actions: seq<ProposedAction>): Risk {
    if forall i | 0 <= i < |actions| :: actions[i].risk == High then High
    else if exists i | 0 <= i < |actions| :: actions[i].risk == Medium then Medium
    else Safe
  }

  method ComputeMaxRisk(actions: seq<ProposedAction>) returns (risk: Risk)
    ensures risk == MaxRisk(actions)
    ensures risk == High <==> forall i | 0 <= i < |actions| :: actions[i].risk == High
    ensures risk == Medium <==> exists i | 0 <= i < |actions| :: actions[i].risk == Medium
    ensures risk == Safe <==> && (exists i | 0 <= i < |actions| :: actions[i].risk != High)
                              && (forall i | 0 <= i < |actions| :: actions[i].risk != Medium)
  {
    var best, bestRank: int := Safe, -1;
    var sawOnlyHigh := true;
    for n := 0 to |actions|
      invariant sawOnlyHigh <==> forall i | 0 <= i < n :: actions[i].risk == High
      invariant best == if exists i | 0 <= i < n :: actions[i].risk == Medium then Medium else Safe
      invariant bestRank == if best == Medium then 1
                            else if exists i | 0 <= i < n :: actions[i].risk == Safe then 0 else -1
    {
      var a := actions[n];
      if a.risk != High {
        sawOnlyHigh := false;
        if KnownRisk(a.risk) && RiskRank(a.risk) > bestRank {
          bestRank, best := RiskRank(a.risk), a.risk;
        }
      }
    }
    risk := if sawOnlyHigh then High else best;
  }

  // ------------------------------------------------------------ the gate

  /** The ladder an agent derives proposes exactly these risks. */
  predicate SameRisks<W, S>(proposed: seq<ProposedAction>, actions: seq<E.Action<W, S>>) {
    |proposed| == |actions| && forall i | 0 <= i < |actions| :: actions[i].risk == proposed[i].risk
  }

  lemma GateCoversRisk(m: GroupMapping, r: Policy.Request, proposed: seq<ProposedAction>, i: nat)
    requires Executes(m, r.(risk := MaxRisk(proposed)))
    requires i < |proposed| && proposed[i].risk != High && KnownRisk(proposed[i].risk)
    ensures Executes(m, r.(risk := proposed[i].risk))
  {
    var top := r.(risk := MaxRisk(proposed));
    ExecutionAntitoneInRisk(m, top, proposed[i].risk);
    assert top.(risk := proposed[i].risk) == r.(risk := proposed[i].risk);
  }

  /** A rung that could run by itself: its risk is declared, and not high. */
  predicate CouldRun(a: ProposedAction) {
    a.risk == Safe || a.risk == Medium
  }

  lemma MaxRiskIsSomeRung(proposed: seq<ProposedAction>) returns (i: nat)
    requires exists k :: 0 <= k < |proposed| && CouldRun(proposed[k])
    ensures i < |proposed| && CouldRun(proposed[i]) && proposed[i].risk == MaxRisk(proposed)
  {
    var k :| 0 <= k < |proposed| && CouldRun(proposed[k]);
    i := k;
    if j :| 0 <= j < |proposed| && proposed[j].risk == Medium {
      i := j;
    }
  }

  /** Both ways: a ladder with a rung that could run is let run exactly when each such rung may run
      at its own risk. High rungs never stop the others; a ladder of high rungs only, or of no
      rung at all, is never run. */
  lemma GateIsItsRungs(m: GroupMapping, r: Policy.Request, proposed: seq<ProposedAction>)
    ensures (exists i :: 0 <= i < |proposed| && CouldRun(proposed[i])) ==>
              (Executes(m, r.(risk := MaxRisk(proposed)))
               <==> forall i | 0 <= i < |proposed| && CouldRun(proposed[i]) :: Executes(m, r.(risk := proposed[i].risk)))
    ensures (forall i | 0 <= i < |proposed| :: proposed[i].risk == High) ==> !Executes(m, r.(risk := MaxRisk(proposed)))
  {
    hide Executes;
    if exists i :: 0 <= i < |proposed| && CouldRun(proposed[i]) {
      var top := MaxRiskIsSomeRung(proposed);
      if Executes(m, r.(risk := MaxRisk(proposed))) {
        forall i | 0 <= i < |proposed| && CouldRun(proposed[i])
          ensures Executes(m, r.(risk := proposed[i].risk))
        {
          GateCoversRisk(m, r, proposed, i);
        }
      }
    }
    UnlistedRiskNeverExecutes(m, r.(risk := High));
  }

  /** The one policy question asked per ladder answers for its rungs: if it says execute, the
      rungs before the first high-risk one may each execute at their own risk exactly when
      none of them carries an undeclared risk. */
  lemma GateDecidesForEveryRung<W, S>(
      m: GroupMapping, r: Policy.Request, proposed: seq<ProposedAction>, actions: seq<E.Action<W, S>>)
    requires SameRisks(proposed, actions)
    requires Executes(m, r.(risk := MaxRisk(proposed)))
    ensures var front := E.BeforeHigh(actions);
            (forall j | 0 <= j < |front| :: Executes(m, r.(risk := front[j].risk)))
            <==> (forall j | 0 <= j < |front| :: KnownRisk(front[j].risk))
  {
    hide Executes;
    var front := E.BeforeHigh(actions);
    E.BeforeHighIsPrefix(actions);
    forall j | 0 <= j < |front|
      ensures Executes(m, r.(risk := front[j].risk)) <==> KnownRisk(front[j].risk)
    {
      assert front[j].risk == actions[j].risk == proposed[j].risk;
      if KnownRisk(front[j].risk) {
        GateCoversRisk(m, r, proposed, j);
      } else {
        UnlistedRiskNeverExecutes(m, r.(risk := front[j].risk));
      }
    }
  }

  /** So when Execute's ladder has the risks that were diagnosed, those before the first high one
      declared, every action really invoked is one the policy would itself let run. */
  lemma InvokedActionsAreAllowed<W, S>(m: GroupMapping, r: Policy.Request, proposed: seq<ProposedAction>,
                                       rd: E.Redactor<S>, actions: seq<E.Action<W, S>>, w: W, k: nat)
    requires SameRisks(proposed, actions)
    requires forall i | 0 <= i < |E.BeforeHigh(actions)| :: KnownRisk(E.BeforeHigh(actions)[i].risk)
    requires Executes(m, r.(risk := MaxRisk(proposed)))
    requires k < |E.Invoked(rd, actions, w)|
    ensures Executes(m, r.(risk := E.Invoked(rd, actions, w)[k].risk))
  {
    hide Executes;
    E.InvokedBeforeHigh(rd, actions, w, k);
    GateDecidesForEveryRung(m, r, proposed, actions);
    var front := E.BeforeHigh(actions);
    var j :| 0 <= j < |front| && front[j] == E.Invoked(rd, actions, w)[k];
    assert KnownRisk(front[j].risk);
  }

  // ------------------------------------------------------------ the audit trail

  datatype EntryKind = Diagnosed | FromRunbook | Approved

  datatype Outcome = Outcome(resolved: bool, attempts: seq<Attempt>)

  /** `kind` says which handler wrote the entry; everything else is audit.Entry's. */
  datatype Entry = Entry(
    id: string, cluster: string, groups: seq<string>, playbookID: string, kind: EntryKind, summary: string,
    decision: Decision, signal: Signal, meta: Meta, proposed: seq<ProposedAction>,
    commands: seq<string>, result: Option<Outcome>)

  class AuditStore {
    var entries: seq<Entry>

    constructor ()
      ensures entries == []
    {
      entries := [];
    }

    /** An append that fails leaves the trail as it was. */
    method Append(e: Entry, fails: bool) returns (ok: bool)
      modifies this
      ensures ok == !fails
      ensures entries == if ok then old(entries) + [e] else old(entries)
    {
      ok := !fails;
      if ok {
        entries := entries + [e];
      }
    }

    /** Reads the trail from the front. */
    method Get(id: string) returns (at: nat, ok: bool)
      ensures (if ok then Some(at) else None) == FindEntry(entries, id)
    {
      at := 0;
      while at < |entries|
        invariant at <= |entries|
        invariant forall j | 0 <= j < at :: entries[j].id != id
      {
        if entries[at].id == id {
          FirstEntry(entries, id, at);
          return at, true;
        }
        at := at + 1;
      }
      NoEntry(entries, id);
      return 0, false;
    }
  }

  function FindEntry(entries: seq<Entry>, id: string): Option<nat> {
    if entries == [] then None
    else if entries[0].id == id then Some(0)
    else
      match FindEntry(entries[1..], id)
      case Some(i) => Some(i + 1)
      case None => None
  }

  lemma {:induction false} FirstEntry(entries: seq<Entry>, id: string, at: nat)
    requires at < |entries| && entries[at].id == id && forall j | 0 <= j < at :: entries[j].id != id
    ensures FindEntry(entries, id) == Some(at)
  {
    if at > 0 {
      assert entries[0].id != id;
      FirstEntry(entries[1..], id, at - 1);
    }
  }

  lemma {:induction false} NoEntry(entries: seq<Entry>, id: string)
    requires forall j | 0 <= j < |entries| :: entries[j].id != id
    ensures FindEntry(entries, id) == None
  {
    if entries != [] {
      NoEntry(entries[1..], id);
    }
  }

  /** The first entry with that ID. */
  predicate FirstWithID(entries: seq<Entry>, id: string, at: nat) {
    at < |entries| && entries[at].id == id && forall j | 0 <= j < at :: entries[j].id != id
  }

  lemma {:induction false} FoundIsThere(entries: seq<Entry>, id: string)
    ensures FindEntry(entries, id).None? <==> forall j | 0 <= j < |entries| :: entries[j].id != id
    ensures forall at: nat :: FirstWithID(entries, id, at) <==> FindEntry(entries, id) == Some(at)
  {
    if at: nat :| FirstWithID(entries, id, at) {
      FirstEntry(entries, id, at);
    } else {
      NoFirst(entries, id, |entries|);
      NoEntry(entries, id);
    }
  }

  lemma {:induction false} NoFirst(entries: seq<Entry>, id: string, n: nat)
    requires n <= |entries| && !exists at: nat :: FirstWithID(entries, id, at)
    ensures forall j | 0 <= j < n :: entries[j].id != id
  {
    if n > 0 {
      NoFirst(entries, id, n - 1);
      assert !FirstWithID(entries, id, n - 1);
    }
  }

  // ------------------------------------------------------------ troubleshoot

  datatype Config = Config(mapping: GroupMapping, executionFlag: bool, prodClusters: set<string>)

  function ClusterEnv(cfg: Config, cluster: string): Env {
    if cluster in cfg.prodClusters then Prod else NonProd
  }

  datatype ToolError =
    | OutOfScope | HubFailed | AgentFailed(err: string) | AuditFailed
    | ExecutionOff | AuditUnreadable | UnknownIncident | NotProposed | NotHighRisk | NeedsProdAdmin

  /** What a hub call came back with: nothing, or a reply carrying the agent's error. */
  datatype Answer<T> = Lost | Replied(value: T, error: string)

  function Failure<T>(a: Answer<T>): Option<ToolError> {
    if a.Lost? then Some(HubFailed) else if a.error != "" then Some(AgentFailed(a.error)) else None
  }

  function RiskText(r: Risk): string {
    match r
    case Safe => "safe"
    case Medium => "medium"
    case High => "high"
    case OtherRisk(name) => name
  }

  function Command(a: ProposedAction): string {
    "[" + RiskText(a.risk) + "] " + a.name + " — " + a.description
  }

  function Commands(actions: seq<ProposedAction>): seq<string> {
    seq(|actions|, i requires 0 <= i < |actions| => Command(actions[i]))
  }

  /** A proposal as the caller reads it: its risk, its name, and what it is for. */
  predicate IsCommand(text: string, a: ProposedAction) {
    && (a.risk == Safe ==> text == "[safe] " + a.name + " — " + a.description)
    && (a.risk == Medium ==> text == "[medium] " + a.name + " — " + a.description)
    && (a.risk == High ==> text == "[high] " + a.name + " — " + a.description)
    && (a.risk.OtherRisk? ==> text == "[" + a.risk.name + "] " + a.name + " — " + a.description)
  }

  lemma CommandsRead(actions: seq<ProposedAction>)
    ensures |Commands(actions)| == |actions|
    ensures forall i | 0 <= i < |actions| :: IsCommand(Commands(actions)[i], actions[i])
  {
    forall i | 0 <= i < |actions|
      ensures IsCommand(Commands(actions)[i], actions[i])
    {
      var a := actions[i];
      assert "[" + "safe" + "] " == "[safe] " && "[" + "medium" + "] " == "[medium] " && "[" + "high" + "] " == "[high] ";
      assert Commands(actions)[i] == "[" + RiskText(a.risk) + "] " + a.name + " — " + a.description;
    }
  }

  /** The attempt as the hub records it, built from the message. */
  function HubAttempt<S>(a: Attempt): E.Attempt<S> {
    E.Attempt(a.action, a.description, a.risk, a.output, a.error, None, a.validated, a.rolledBack, a.skipped)
  }

  /** What the hub records of a run it asked for: the ladder's own attempts, all but their
      snapshots, which never leave the agent. So an entry that says resolved ends in the one
      action that was validated, and those before it are the ladder's earlier rungs, failed. */
  lemma TrailTellsTheRun<W, S>(rd: E.Redactor<S>, actions: seq<E.Action<W, S>>, w: W, out: Outcome)
    requires var (_, resolved, ts) := E.Climb(rd, actions, w);
             && out.resolved == resolved && |out.attempts| == |ts|
             && forall i | 0 <= i < |ts| :: out.attempts[i] == AgentCore.OutAttempt(ts[i])
    ensures |out.attempts| <= |actions|
    ensures forall i | 0 <= i < |out.attempts| ::
              && HubAttempt<S>(out.attempts[i]) == E.Climb(rd, actions, w).2[i].(snapshot := None)
              && out.attempts[i].action == actions[i].name && out.attempts[i].risk == actions[i].risk
              && (out.attempts[i].validated <==> out.resolved && i == |out.attempts| - 1)
              && (out.attempts[i].skipped ==> !out.resolved && i == |out.attempts| - 1)
    ensures out.resolved ==> out.attempts != [] && out.attempts[|out.attempts| - 1].risk != High
  {
    hide E.Climb;
    E.ClimbIsInOrder(rd, actions, w);
    NotSkipped(rd, actions, w);
  }

  lemma {:induction false} NotSkipped<W, S>(rd: E.Redactor<S>, actions: seq<E.Action<W, S>>, w: W)
    ensures E.Climb(rd, actions, w).1 ==> forall t | t in E.Climb(rd, actions, w).2 :: !t.skipped
  {
    if actions != [] && actions[0].risk != High {
      E.NamesItsAction(rd, actions[0], w);
      hide E.RunOneSpec;
      NotSkipped(rd, actions[1..], E.RunOneSpec(rd, actions[0], w).0);
    }
  }

  /** The entry of a diagnosis: the whole ladder is recorded whatever was decided. */
  function DiagnosisEntry(id: string, groups: seq<string>, cluster: string, sig: Signal, d: AgentCore.Diagnosis,
                          decision: Decision, result: Option<Outcome>): Entry {
    Entry(id, cluster, groups, d.playbookID, Diagnosed, d.summary, decision, sig, d.meta, d.proposed,
          if decision.allow && decision.dryRun then Commands(d.proposed) else [], result)
  }

  /** The entry of the runbook fallback: text only, nothing proposed. */
  function RunbookEntry(id: string, groups: seq<string>, cluster: string, text: (string, seq<string>)): Entry {
    Entry(id, cluster, groups, "runbook", FromRunbook, text.0, Decision(true, true, RunbookOnly),
          Signal("", "", "", ""), map[], [], text.1, None)
  }

  /** troubleshoot. The answers the hub would give are parameters; `ran` says whether Execute
      was asked for at all. */
  method Troubleshoot(store: AuditStore, cfg: Config, groups: seq<string>, inScope: bool, cluster: string, sig: Signal,
                      diag: Answer<AgentCore.Diagnosis>, exec: Answer<Outcome>, text: (string, seq<string>),
                      id: string, auditFails: bool)
    returns (r: Result<Entry, ToolError>, ran: bool)
    modifies store
    ensures store.entries == if r.Ok? then old(store.entries) + [r.value] else old(store.entries)
    ensures ran <==> inScope && diag.Replied? && diag.error == "" && !diag.value.noPlaybook
                     && Executes(cfg.mapping,
                                 Policy.Request(groups, if cluster in cfg.prodClusters then Prod else NonProd,
                                                MaxRisk(diag.value.proposed), cfg.executionFlag))
    ensures !inScope ==> r == Err(OutOfScope)
    ensures inScope && diag.Lost? ==> r == Err(HubFailed)
    ensures inScope && diag.Replied? && diag.error != "" ==> r == Err(AgentFailed(diag.error))
    ensures ran && exec.Lost? ==> r == Err(HubFailed)
    ensures ran && exec.Replied? && exec.error != "" ==> r == Err(AgentFailed(exec.error))
    ensures inScope && diag.Replied? && diag.error == "" && (ran ==> exec.Replied? && exec.error == "") ==>
              if auditFails then r == Err(AuditFailed) else r.Ok?
    ensures r.Ok? && diag.value.noPlaybook ==>
              r.value == Entry(id, cluster, groups, "runbook", FromRunbook, text.0, Decision(true, true, RunbookOnly),
                               Signal("", "", "", ""), map[], [], text.1, None)
    ensures r.Ok? && !diag.value.noPlaybook ==>
              var d, e := diag.value, r.value;
              && Decide(cfg.mapping, Policy.Request(groups, if cluster in cfg.prodClusters then Prod else NonProd,
                                                    MaxRisk(d.proposed), cfg.executionFlag)) == Ok(e.decision)
              && e == Entry(id, cluster, groups, d.playbookID, Diagnosed, d.summary, e.decision, sig, d.meta, d.proposed,
                            e.commands, if ran then Some(exec.value) else None)
              && (if e.decision.allow && e.decision.dryRun then
                    && |e.commands| == |d.proposed|
                    && forall i | 0 <= i < |d.proposed| :: IsCommand(e.commands[i], d.proposed[i])
                  else e.commands == [])
  {
    ran := false;
    if !inScope {
      return Err(OutOfScope), ran;
    }
    if Failure(diag).Some? {
      return Err(Failure(diag).value), ran;
    }
    var d := diag.value;
    if d.noPlaybook {
      var fallback := RunbookEntry(id, groups, cluster, text);
      var kept := store.Append(fallback, auditFails);
      return if kept then Ok(fallback) else Err(AuditFailed), ran;
    }
    var risk := ComputeMaxRisk(d.proposed);
    var request := Policy.Request(groups, ClusterEnv(cfg, cluster), risk, cfg.executionFlag);
    ExecutesExactly(cfg.mapping, request);
    var decision := Decide(cfg.mapping, request).value;
    var entry :=
      Entry(id, cluster, groups, d.playbookID, Diagnosed, d.summary, decision, sig, d.meta, d.proposed, [], None);
    if !decision.allow {
      // nothing to run or propose
    } else if decision.dryRun {
      var commands: seq<string> := [];
      for i := 0 to |d.proposed|
        invariant commands == Commands(d.proposed)[..i]
      {
        commands := commands + [Command(d.proposed[i])];
      }
      assert commands == Commands(d.proposed);
      CommandsRead(d.proposed);
      entry := entry.(commands := commands);
    } else {
      ran := true;
      if Failure(exec).Some? {
        return Err(Failure(exec).value), ran;
      }
      entry := entry.(result := Some(exec.value));
    }
    var ok := store.Append(entry, auditFails);
    return if ok then Ok(entry) else Err(AuditFailed), ran;
  }

  // ------------------------------------------------------------ approve_action

  /** What the hub sends an agent after authorising: one action of one recorded incident. */
  datatype Approval = Approval(
    cluster: string, playbookID: string, signal: Signal, action: string, meta: Meta,
    incident: nat, groups: seq<string>)

  function FindProposed(proposed: seq<ProposedAction>, name: string): Option<ProposedAction> {
    if proposed == [] then None
    else if proposed[0].name == name then Some(proposed[0])
    else FindProposed(proposed[1..], name)
  }

  /** The first proposed action of that name. */
  predicate FirstNamed(proposed: seq<ProposedAction>, name: string, k: nat) {
    k < |proposed| && proposed[k].name == name && forall j | 0 <= j < k :: proposed[j].name != name
  }

  lemma {:induction false} FoundProposedIsThere(proposed: seq<ProposedAction>, name: string)
    ensures FindProposed(proposed, name).None? <==> forall i | 0 <= i < |proposed| :: proposed[i].name != name
    ensures FindProposed(proposed, name).Some? <==> exists k: nat :: FirstNamed(proposed, name, k)
    ensures forall k: nat | FirstNamed(proposed, name, k) :: FindProposed(proposed, name) == Some(proposed[k])
  {
    if proposed == [] {
    } else if proposed[0].name == name {
      assert FirstNamed(proposed, name, 0);
    } else {
      FoundProposedIsThere(proposed[1..], name);
      if k: nat :| FirstNamed(proposed[1..], name, k) {
        assert FirstNamed(proposed, name, k + 1);
      }
      forall k: nat | FirstNamed(proposed, name, k)
        ensures FindProposed(proposed, name) == Some(proposed[k])
      {
        assert FirstNamed(proposed[1..], name, k - 1);
      }
    }
  }

  /** The checks before the hub call, in order. */
  function Authorize(cfg: Config, groups: seq<string>, entries: seq<Entry>, readable: bool, id: string, name: string,
                     inScope: bool)
    : Result<Approval, ToolError>
  {
    if !cfg.executionFlag then Err(ExecutionOff)
    else if !readable then Err(AuditUnreadable)
    else if FindEntry(entries, id).None? || FindEntry(entries, id).value >= |entries| then Err(UnknownIncident)
    else
      var at := FindEntry(entries, id).value;
      var e := entries[at];
      if !inScope then Err(OutOfScope)
      else
        match FindProposed(e.proposed, name)
        case None => Err(NotProposed)
        case Some(p) =>
          if p.risk != High then Err(NotHighRisk)
          else if Highest(cfg.mapping, groups) != Some(ProdAdmin) then Err(NeedsProdAdmin)
          else Ok(Approval(e.cluster, e.playbookID, e.signal, name, e.meta, at, groups))
  }

  /** Every check passes: for the first entry with that ID, and the first action of that name it
      proposed. */
  predicate Passes(cfg: Config, groups: seq<string>, entries: seq<Entry>, readable: bool, id: string, name: string,
                   inScope: bool, at: nat, k: nat)
  {
    && cfg.executionFlag && readable && FirstWithID(entries, id, at) && inScope
    && FirstNamed(entries[at].proposed, name, k) && entries[at].proposed[k].risk == High
    && Highest(cfg.mapping, groups) == Some(ProdAdmin)
  }

  /** The approval of entry number `at`, carrying that incident's own facts. */
  predicate IsApprovalOf(a: Approval, entries: seq<Entry>, at: nat, name: string, groups: seq<string>) {
    && at < |entries| && a.incident == at && a.action == name && a.groups == groups
    && a.cluster == entries[at].cluster && a.playbookID == entries[at].playbookID
    && a.signal == entries[at].signal && a.meta == entries[at].meta
  }

  /** Why an approval is refused, in the order of the checks. */
  predicate IsRefusal(why: ToolError, cfg: Config, groups: seq<string>, entries: seq<Entry>, readable: bool, id: string,
                      name: string, inScope: bool)
  {
    if !cfg.executionFlag then why == ExecutionOff
    else if !readable then why == AuditUnreadable
    else if forall e | e in entries :: e.id != id then why == UnknownIncident
    else if !inScope then why == OutOfScope
    else
      forall at: nat | at < |entries| && FirstWithID(entries, id, at) ::
        if forall p | p in entries[at].proposed :: p.name != name then why == NotProposed
        else
          forall k: nat | k < |entries[at].proposed| && FirstNamed(entries[at].proposed, name, k) ::
            if entries[at].proposed[k].risk != High then why == NotHighRisk
            else Highest(cfg.mapping, groups) != Some(ProdAdmin) && why == NeedsProdAdmin
  }

  /** An approval goes out exactly when every check passes, for the incident and the action
      they passed for; otherwise the first that failed is the answer. */
  lemma AuthorizedIff(cfg: Config, groups: seq<string>, entries: seq<Entry>, readable: bool, id: string, name: string,
                      inScope: bool)
    ensures var r := Authorize(cfg, groups, entries, readable, id, name, inScope);
            && (r.Ok? <==> exists at: nat, k: nat :: Passes(cfg, groups, entries, readable, id, name, inScope, at, k))
            && (forall at: nat, k: nat | Passes(cfg, groups, entries, readable, id, name, inScope, at, k) ::
                  r.Ok? && IsApprovalOf(r.value, entries, at, name, groups))
            && (r.Err? ==> IsRefusal(r.error, cfg, groups, entries, readable, id, name, inScope))
  {
    hide Highest, FindEntry, FindProposed;
    FoundIsThere(entries, id);
    if FindEntry(entries, id).Some? {
      var at := FindEntry(entries, id).value;
      assert FirstWithID(entries, id, at) && entries[at] in entries;
      FoundProposedIsThere(entries[at].proposed, name);
      var r := Authorize(cfg, groups, entries, readable, id, name, inScope);
      if r.Ok? {
        var k: nat :| FirstNamed(entries[at].proposed, name, k);
        assert Passes(cfg, groups, entries, readable, id, name, inScope, at, k);
      }
    }
  }

  /** The entry of an approval: the attempt, and nothing proposed. */
  function ApprovalEntry(id: string, a: Approval, attempt: Attempt): Entry {
    Entry(id, a.cluster, a.groups, a.playbookID, Approved, "aprovação explícita de " + a.action,
          Decision(true, false, ApprovedExplicitly), a.signal, map[], [], [], Some(Outcome(attempt.validated, [attempt])))
  }

  /** approve_action. `sent` says whether the agent was asked to run the action. */
  method ApproveAction(store: AuditStore, cfg: Config, groups: seq<string>, readable: bool, inScope: bool,
                       incidentID: string, name: string, answer: Answer<Attempt>, id: string, auditFails: bool)
    returns (r: Result<Entry, ToolError>, sent: Option<Approval>)
    modifies store
    ensures store.entries == if r.Ok? then old(store.entries) + [r.value] else old(store.entries)
    ensures sent.Some? <==> exists at: nat, k: nat ::
              Passes(cfg, groups, old(store.entries), readable, incidentID, name, inScope, at, k)
    ensures forall at: nat, k: nat |
              Passes(cfg, groups, old(store.entries), readable, incidentID, name, inScope, at, k) ::
              sent.Some? && IsApprovalOf(sent.value, old(store.entries), at, name, groups)
    ensures sent.None? ==>
              r.Err? && IsRefusal(r.error, cfg, groups, old(store.entries), readable, incidentID, name, inScope)
    ensures sent.Some? && answer.Lost? ==> r == Err(HubFailed)
    ensures sent.Some? && answer.Replied? && answer.error != "" ==> r == Err(AgentFailed(answer.error))
    ensures sent.Some? && answer.Replied? && answer.error == "" ==>
              var a := sent.value;
              r == if auditFails then Err(AuditFailed) else
                   Ok(Entry(id, a.cluster, groups, a.playbookID, Approved, "aprovação explícita de " + name,
                            Decision(true, false, ApprovedExplicitly), a.signal, map[], [], [],
                            Some(Outcome(answer.value.validated, [answer.value]))))
    ensures var allowed := Authorize(cfg, groups, old(store.entries), readable, incidentID, name, inScope);
            sent == if allowed.Ok? then Some(allowed.value) else None
  {
    AuthorizedIff(cfg, groups, store.entries, readable, incidentID, name, inScope);
    hide Highest, Passes, IsRefusal, IsApprovalOf, FirstWithID, FirstNamed;
    sent := None;
    if !cfg.executionFlag {
      return Err(ExecutionOff), sent;
    }
    if !readable {
      return Err(AuditUnreadable), sent;
    }
    var at, ok := store.Get(incidentID);
    if !ok {
      return Err(UnknownIncident), sent;
    }
    assert at < |store.entries| by {
      FoundIsThere(store.entries, incidentID);
    }
    hide FindEntry;
    var entry := store.entries[at];
    if !inScope {
      return Err(OutOfScope), sent;
    }
    var i := 0;
    while i < |entry.proposed| && entry.proposed[i].name != name
      invariant i <= |entry.proposed|
      invariant FindProposed(entry.proposed, name) == FindProposed(entry.proposed[i..], name)
    {
      i := i + 1;
    }
    if i == |entry.proposed| {
      return Err(NotProposed), sent;
    }
    if entry.proposed[i].risk != High {
      return Err(NotHighRisk), sent;
    }
    var tier, known := HighestTier(cfg.mapping, groups);
    if !known || tier != ProdAdmin {
      return Err(NeedsProdAdmin), sent;
    }
    var approval := Approval(entry.cluster, entry.playbookID, entry.signal, name, entry.meta, at, groups);
    sent := Some(approval);
    if Failure(answer).Some? {
      return Err(Failure(answer).value), sent;
    }
    var newEntry := ApprovalEntry(id, approval, answer.value);
    var kept := store.Append(newEntry, auditFails);
    return if kept then Ok(newEntry) else Err(AuditFailed), sent;
  }

  // ------------------------------------------------------------ high risk over whole runs

  /** One invocation of an action's Run: on which cluster, for which playbook and signal, and
      under which approval, if any. */
  datatype RunEvent = RunEvent(cluster: string, playbookID: string, signal: Signal, action: string, risk: Risk,
                               approval: Option<nat>)

  /** The hub's audit trail, the approvals it has sent out, and what agents have run. */
  datatype State = State(entries: seq<Entry>, approvals: seq<Approval>, events: seq<RunEvent>)

  /** Tool calls of any callers and agents' actions, interleaved; what an agent derives at each
      point is whatever its playbooks make of its cluster then. Approvals may be delivered
      late, repeatedly or never. */
  datatype Step<!W, !S> =
    | RecordDiagnosis(id: string, groups: seq<string>, cluster: string, sig: Signal, diagnosis: AgentCore.Diagnosis,
                      decision: Decision, result: Option<Outcome>)
    | RecordRunbook(id: string, groups: seq<string>, cluster: string, text: (string, seq<string>))
    | AgentExecutes(cluster: string, playbookID: string, signal: Signal, rd: E.Redactor<S>,
                    ladder: seq<E.Action<W, S>>, world: W)
    | HubApproves(groups: seq<string>, readable: bool, incidentID: string, name: string, inScope: bool)
    | AgentApproves(n: nat, registry: seq<Playbooks.Playbook<W, S>>, world: W)
    | RecordApproval(id: string, n: nat, attempt: Attempt)

  function EventsOf<W, S>(cluster: string, playbookID: string, sig: Signal, ran: seq<E.Action<W, S>>): seq<RunEvent> {
    seq(|ran|, i requires 0 <= i < |ran| => RunEvent(cluster, playbookID, sig, ran[i].name, ran[i].risk, None))
  }

  /** The action an approval's delivery makes the agent invoke, if it comes to that. */
  function Approves<W, S>(a: Approval, registry: seq<Playbooks.Playbook<W, S>>, w: W): Option<E.Action<W, S>> {
    var (w1, chosen) := AgentCore.ToRun(registry, a.playbookID, a.signal, a.action, a.meta, w);
    if chosen.Ok? && E.Invokes(chosen.value, w1) then Some(chosen.value) else None
  }

  lemma ApprovesByName<W, S>(a: Approval, registry: seq<Playbooks.Playbook<W, S>>, w: W)
    ensures Approves(a, registry, w).Some? ==> Approves(a, registry, w).value.name == a.action
  {
    var pbk := Playbooks.Find(registry, a.signal);
    if pbk.Some? {
      var ladder := AgentCore.CurrentLadder(registry, pbk.value, a.signal, a.meta, w).1;
      if ladder.Ok? {
        AgentCore.NamedIsFirst(ladder.value, a.action);
      }
    }
  }

  function Next<W, S>(cfg: Config, s: State, step: Step<W, S>): State {
    match step
    case RecordDiagnosis(id, groups, cluster, sig, d, decision, result) =>
      s.(entries := s.entries + [DiagnosisEntry(id, groups, cluster, sig, d, decision, result)])
    case RecordRunbook(id, groups, cluster, text) => s.(entries := s.entries + [RunbookEntry(id, groups, cluster, text)])
    case AgentExecutes(cluster, playbookID, sig, rd, ladder, world) =>
      s.(events := s.events + EventsOf(cluster, playbookID, sig, E.Invoked(rd, ladder, world)))
    case HubApproves(groups, readable, incidentID, name, inScope) =>
      var allowed := Authorize(cfg, groups, s.entries, readable, incidentID, name, inScope);
      if allowed.Ok? then s.(approvals := s.approvals + [allowed.value]) else s
    case AgentApproves(n, registry, world) =>
      if n >= |s.approvals| then s
      else
        var a := s.approvals[n];
        var ran := Approves(a, registry, world);
        if ran.None? then s
        else
          var event := RunEvent(a.cluster, a.playbookID, a.signal, ran.value.name, ran.value.risk, Some(n));
          s.(events := s.events + [event])
    case RecordApproval(id, n, attempt) =>
      if n < |s.approvals| then s.(entries := s.entries + [ApprovalEntry(id, s.approvals[n], attempt)]) else s
  }

  /** The trail outlives the hub, so a run starts from any trail an earlier one can have left. */
  ghost predicate IsRun<W, S>(cfg: Config, states: seq<State>, steps: seq<Step<W, S>>) {
    && |states| == |steps| + 1
    && states[0].approvals == [] && states[0].events == [] && OnlyDiagnosesPropose(states[0].entries)
    && forall i | 0 <= i < |steps| :: states[i + 1] == Next(cfg, states[i], steps[i])
  }

  predicate OnlyDiagnosesPropose(entries: seq<Entry>) {
    forall i | 0 <= i < |entries| :: entries[i].kind != Diagnosed ==> entries[i].proposed == []
  }

  /** An entry on the trail proposed this action name at high risk, and it is a diagnosis. */
  predicate ProposedHigh(entries: seq<Entry>, at: nat, name: string) {
    && at < |entries| && entries[at].kind == Diagnosed
    && exists p | p in entries[at].proposed :: p.name == name && p.risk == High
  }

  /** Authorised, for the very incident recorded. */
  predicate ApprovalOk(cfg: Config, entries: seq<Entry>, a: Approval) {
    && cfg.executionFlag
    && Highest(cfg.mapping, a.groups) == Some(ProdAdmin)
    && ProposedHigh(entries, a.incident, a.action)
    && entries[a.incident].cluster == a.cluster && entries[a.incident].playbookID == a.playbookID
    && entries[a.incident].signal == a.signal && entries[a.incident].meta == a.meta
  }

  /** The run an approval asked for. */
  predicate RunsApproval(e: RunEvent, a: Approval) {
    e.cluster == a.cluster && e.playbookID == a.playbookID && e.signal == a.signal && e.action == a.action
  }

  predicate EventOk(s: State, e: RunEvent) {
    e.risk == High ==>
      e.approval.Some? && e.approval.value < |s.approvals| && RunsApproval(e, s.approvals[e.approval.value])
  }

  predicate Guarded(cfg: Config, s: State) {
    && OnlyDiagnosesPropose(s.entries)
    && (forall i | 0 <= i < |s.approvals| :: ApprovalOk(cfg, s.entries, s.approvals[i]))
    && (forall i | 0 <= i < |s.events| :: EventOk(s, s.events[i]))
  }

  lemma TrailOnlyGrows<W, S>(cfg: Config, s: State, step: Step<W, S>)
    ensures s.entries <= Next(cfg, s, step).entries && s.approvals <= Next(cfg, s, step).approvals
    ensures s.events <= Next(cfg, s, step).events
  {
  }

  lemma ProposedStays(entries: seq<Entry>, more: seq<Entry>, at: nat, name: string)
    requires entries <= more && ProposedHigh(entries, at, name)
    ensures ProposedHigh(more, at, name)
  {
    assert more[at] == entries[at];
  }

  lemma AuthorizedIsOk(cfg: Config, groups: seq<string>, entries: seq<Entry>, readable: bool, id: string, name: string,
                       inScope: bool)
    requires OnlyDiagnosesPropose(entries) && Authorize(cfg, groups, entries, readable, id, name, inScope).Ok?
    ensures ApprovalOk(cfg, entries, Authorize(cfg, groups, entries, readable, id, name, inScope).value)
  {
    var at := FindEntry(entries, id).value;
    FoundProposedIsThere(entries[at].proposed, name);
  }

  lemma NewEventsAreOk<W, S>(cfg: Config, s: State, step: Step<W, S>, i: nat)
    requires |s.events| <= i < |Next(cfg, s, step).events|
    ensures EventOk(Next(cfg, s, step), Next(cfg, s, step).events[i])
  {
    hide Approves, E.Invoked, Authorize, DiagnosisEntry, RunbookEntry, ApprovalEntry;
    if step.AgentExecutes? {
      E.InvokedBeforeHigh(step.rd, step.ladder, step.world, i - |s.events|);
    } else {
      ApprovesByName(s.approvals[step.n], step.registry, step.world);
    }
  }

  lemma StepKeepsGuarded<W, S>(cfg: Config, s: State, step: Step<W, S>)
    requires Guarded(cfg, s)
    ensures Guarded(cfg, Next(cfg, s, step))
  {
    var t := Next(cfg, s, step);
    TrailOnlyGrows(cfg, s, step);
    forall i | 0 <= i < |t.approvals|
      ensures ApprovalOk(cfg, t.entries, t.approvals[i])
    {
      if i < |s.approvals| {
        assert ApprovalOk(cfg, s.entries, s.approvals[i]);
        ProposedStays(s.entries, t.entries, s.approvals[i].incident, s.approvals[i].action);
      } else {
        AuthorizedIsOk(cfg, step.groups, s.entries, step.readable, step.incidentID, step.name, step.inScope);
      }
    }
    forall i | 0 <= i < |t.events|
      ensures EventOk(t, t.events[i])
    {
      if i < |s.events| {
        assert EventOk(s, s.events[i]);
      } else {
        NewEventsAreOk(cfg, s, step, i);
      }
    }
  }

  /** The step that sent an approval: an approve_action call, by the caller it names, in scope, all
      of whose checks passed on the trail as it was. */
  ghost predicate Sent<W, S>(cfg: Config, s: State, step: Step<W, S>, a: Approval) {
    && step.HubApproves? && step.inScope && step.readable && step.name == a.action && step.groups == a.groups
    && IsApprovalOf(a, s.entries, a.incident, step.name, step.groups)
    && exists k: nat :: Passes(cfg, step.groups, s.entries, step.readable, step.incidentID, step.name, step.inScope,
                               a.incident, k)
  }

  /** One more approval, exactly when such a call passes every check. */
  lemma ApprovalIsSentIff<W, S>(cfg: Config, s: State, step: Step<W, S>)
    ensures var t := Next(cfg, s, step);
            && (t.approvals != s.approvals <==>
                  step.HubApproves? && exists at: nat, k: nat ::
                    Passes(cfg, step.groups, s.entries, step.readable, step.incidentID, step.name, step.inScope, at, k))
            && (t.approvals != s.approvals ==>
                  && |t.approvals| == |s.approvals| + 1 && t.approvals[..|s.approvals|] == s.approvals
                  && Sent(cfg, s, step, t.approvals[|s.approvals|]))
  {
    hide Highest, FindEntry, FindProposed, FirstWithID, FirstNamed, Approves, E.Invoked,
         DiagnosisEntry, RunbookEntry, ApprovalEntry;
    if step.HubApproves? {
      AuthorizedIff(cfg, step.groups, s.entries, step.readable, step.incidentID, step.name, step.inScope);
      hide Authorize, IsRefusal;
      var r := Authorize(cfg, step.groups, s.entries, step.readable, step.incidentID, step.name, step.inScope);
      if r.Ok? {
        var at: nat, k: nat :|
          Passes(cfg, step.groups, s.entries, step.readable, step.incidentID, step.name, step.inScope, at, k);
      }
    }
  }

  /** So each approval there is goes back to the call that sent it. */
  lemma {:induction false} ApprovalCameFrom<W, S>(cfg: Config, states: seq<State>, steps: seq<Step<W, S>>, n: nat, i: nat)
    returns (m: nat)
    requires IsRun(cfg, states, steps) && n < |states| && i < |states[n].approvals|
    ensures m < n && Sent(cfg, states[m], steps[m], states[n].approvals[i])
    ensures states[m].approvals == states[n].approvals[..i]
  {
    hide Sent, Next;
    assert states[n] == Next(cfg, states[n - 1], steps[n - 1]);
    ApprovalIsSentIff(cfg, states[n - 1], steps[n - 1]);
    if i < |states[n - 1].approvals| {
      m := ApprovalCameFrom(cfg, states, steps, n - 1, i);
    } else {
      m := n - 1;
    }
  }

  /** In every run the guard holds, and each approval sent goes back to the approve_action call,
      in scope and with every check passed, that sent it. */
  lemma {:induction false} RunIsGuarded<W, S>(cfg: Config, states: seq<State>, steps: seq<Step<W, S>>, n: nat)
    requires IsRun(cfg, states, steps) && n < |states|
    ensures Guarded(cfg, states[n])
    ensures forall i: nat | i < |states[n].approvals| ::
              exists m: nat :: m < n && Sent(cfg, states[m], steps[m], states[n].approvals[i])
  {
    hide Sent;
    if n > 0 {
      RunIsGuarded(cfg, states, steps, n - 1);
      StepKeepsGuarded(cfg, states[n - 1], steps[n - 1]);
    }
    hide Guarded, Next;
    forall i: nat | i < |states[n].approvals|
      ensures exists m: nat :: m < n && Sent(cfg, states[m], steps[m], states[n].approvals[i])
    {
      var m := ApprovalCameFrom(cfg, states, steps, n, i);
    }
  }

  lemma {:induction false} TrailGrowsInRun<W, S>(cfg: Config, states: seq<State>, steps: seq<Step<W, S>>, i: nat, n: nat)
    requires IsRun(cfg, states, steps) && i <= n < |states|
    ensures states[i].entries <= states[n].entries && states[i].approvals <= states[n].approvals
  {
    if i < n {
      TrailGrowsInRun(cfg, states, steps, i, n - 1);
      TrailOnlyGrows(cfg, states[n - 1], steps[n - 1]);
    }
  }

  /** The recorded diagnosis an approved run goes back to. */
  predicate OnIncident(e: RunEvent, entry: Entry) {
    && entry.kind == Diagnosed
    && entry.cluster == e.cluster && entry.playbookID == e.playbookID && entry.signal == e.signal
    && exists p | p in entry.proposed :: p.name == e.action && p.risk == High
  }

  /** Over every run: whenever a step makes an agent invoke a high-risk action, execution was
      enabled, whoever approved it held prod-admin as their highest tier and had the cluster in
      scope, in an approve_action call made earlier in the run, and an entry already on the
      trail before that step - a diagnosis of that same cluster, playbook and signal - had
      proposed that action at high risk. What runs is what the agent's
      playbooks, checking again at that moment, choose for it. */
  lemma HighRiskNeedsApproval<W, S>(cfg: Config, states: seq<State>, steps: seq<Step<W, S>>, n: nat, e: RunEvent)
    requires IsRun(cfg, states, steps) && n < |steps|
    requires states[n + 1].events != [] && |states[n + 1].events| > |states[n].events|
    requires e in states[n + 1].events[|states[n].events|..] && e.risk == High
    ensures cfg.executionFlag
    ensures e.approval.Some? && e.approval.value < |states[n].approvals|
    ensures var a := states[n].approvals[e.approval.value];
            && RunsApproval(e, a)
            && (exists m: nat :: m < n && Sent(cfg, states[m], steps[m], a))
            && Highest(cfg.mapping, a.groups) == Some(ProdAdmin)
            && a.incident < |states[n].entries| && OnIncident(e, states[n].entries[a.incident])
            && steps[n].AgentApproves? && steps[n].n == e.approval.value
            && Approves(a, steps[n].registry, steps[n].world).Some?
            && Approves(a, steps[n].registry, steps[n].world).value.risk == High
  {
    hide Approves, E.Invoked, Authorize, DiagnosisEntry, RunbookEntry, ApprovalEntry, Sent;
    RunIsGuarded(cfg, states, steps, n);
    var s, step := states[n], steps[n];
    assert states[n + 1] == Next(cfg, s, step);
    var i :| |s.events| <= i < |states[n + 1].events| && states[n + 1].events[i] == e;
    NewEventsAreOk(cfg, s, step, i);
    if step.AgentExecutes? {
      E.InvokedBeforeHigh(step.rd, step.ladder, step.world, i - |s.events|);
    }
    assert states[n + 1].approvals == s.approvals;
    assert ApprovalOk(cfg, s.entries, s.approvals[e.approval.value]);
  }
}
