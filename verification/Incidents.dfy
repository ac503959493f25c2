/** The core playbooks seen through the hub: what an incident recorded by one call still
    means when a later call derives its ladder again. */
module Incidents {
  import opened Wrappers
  import opened Policy
  import opened Wire
  import opened Cluster
  import opened Playbooks
  import opened CoreK8s
  import AgentCore
  import E = ExecEngine
  import McpTools

  type Registry = seq<Playbook<World, Snap>>

  // ------------------------------------------------------------ a ladder that grows

  lemma CrashLoopRisks(rd: E.Redactor<Snap>, d: seq<string>, key: Option<Key>)
    requires |d| == 3
    ensures var actions := CrashLoopActions(d, key);
            && McpTools.SameRisks(AgentCore.ProposedAll(rd, actions), actions)
            && McpTools.MaxRisk(AgentCore.ProposedAll(rd, actions)) == if key.Some? then Medium else Safe
  {
    var actions := CrashLoopActions(d, key);
    var proposed := AgentCore.ProposedAll(rd, actions);
    assert proposed[0].risk == actions[0].risk == Safe;
    if key.Some? {
      assert proposed[1].risk == actions[1].risk == Medium;
    }
  }

  /** Finding the owning deployment is best effort, so Execute may climb a longer ladder
      than the one the policy was asked about. What was allowed then covers every rung now
      exactly when the owner was known then, is not known now, or the caller may run a
      medium action anyway. */
  lemma GateCoversCrashLoopIff(rd: E.Redactor<Snap>, d: seq<string>, m: GroupMapping, r: Policy.Request,
                               was: Option<Key>, now: Option<Key>)
    requires |d| == 3
    requires Executes(m, r.(risk := McpTools.MaxRisk(AgentCore.ProposedAll(rd, CrashLoopActions(d, was)))))
    ensures var actions := CrashLoopActions(d, now);
            (forall j | 0 <= j < |actions| :: Executes(m, r.(risk := actions[j].risk)))
            <==> was.Some? || now.None? || Executes(m, r.(risk := Medium))
  {
    CrashLoopRisks(rd, d, was);
    hide Executes, AgentCore.ProposedAll, McpTools.MaxRisk;
    var asked := r.(risk := if was.Some? then Medium else Safe);
    ExecutionAntitoneInRisk(m, asked, Safe);
    assert asked.(risk := Safe) == r.(risk := Safe);
    var actions := CrashLoopActions(d, now);
    assert actions[0].risk == Safe;
    if now.Some? {
      assert actions[1].risk == Medium && actions[2].risk == Medium;
    }
  }

  const OWNER := "web"

  /** A cluster whose API fails its second call, while Diagnose looks for the owner, and its
      sixth, the restart. */
  function Flaky(namespace: string): World {
    World(map[Key(namespace, OWNER) := Deployment(Some(1), 0, 0)], 0, 0,
          (i: nat) => Fate(if i == 1 || i == 5 then Some("unavailable") else None, 0, 0, false, Some(OWNER), false))
  }

  lemma FlakyDiagnosis(rd: E.Redactor<Snap>, d: seq<string>, sig: Signal)
    requires |d| == 3 && sig.kind == "PodCrashLoopBackOff"
    ensures var (w1, diag) := AgentCore.DiagnoseSpec([CrashLoopBackOff(d)], rd, sig, Flaky(sig.namespace));
            && w1 == Flaky(sig.namespace).(calls := 2)
            && diag.Ok? && diag.value.proposed == AgentCore.ProposedAll(rd, CrashLoopActions(d, None))
  {
    var w := Flaky(sig.namespace);
    var f := DiagnoseCrashLoop(w, sig);
    assert f.world == w.(calls := 2) && f.result.Ok? && f.result.value.meta == map[];
    assert Owner(sig.namespace, f.result.value.meta) == None;
  }

  lemma FlakyLadder(d: seq<string>, sig: Signal)
    requires |d| == 3 && sig.kind == "PodCrashLoopBackOff"
    ensures var again := AgentCore.Derive([CrashLoopBackOff(d)], sig, Flaky(sig.namespace).(calls := 2));
            && again.world == Flaky(sig.namespace).(calls := 5)
            && again.result.Ok? && again.result.value.2 == CrashLoopActions(d, Some(Key(sig.namespace, OWNER)))
  {
    hide CrashLoopActions;
    var w := Flaky(sig.namespace).(calls := 2);
    var f := DiagnoseCrashLoop(w, sig);
    assert f.world == w.(calls := 5) && f.result.value.meta == map["deployment" := OWNER];
    assert Owner(sig.namespace, f.result.value.meta) == Some(Key(sig.namespace, OWNER));
  }

  lemma RestartRefused(rd: E.Redactor<Snap>, description: string, key: Option<Key>, w: World)
    requires FailsAt(w, 0)
    ensures RestartPodAction(description, key).risk == Safe
    ensures E.RunOneSpec(rd, RestartPodAction(description, key), w).0 == Elapsed(w)
    ensures !E.RunOneSpec(rd, RestartPodAction(description, key), w).1.validated
  {
    hide ValidateRestart;
  }

  lemma ScaleStarts(description: string, key: Key, w: World)
    requires key in w.deployments && !FailsAt(w, 0)
    ensures ScaleAction(description, key).risk == Medium
    ensures E.Invokes(ScaleAction(description, key), w)
  {
    assert TakeReplicas(w, key).err.None?;
    hide TakeReplicas;
  }

  /** When the restart is refused and the replica count can be read, the scale rung runs. */
  lemma ScaleIsInvoked(rd: E.Redactor<Snap>, d: seq<string>, key: Key, w: World)
    requires |d| == 3 && key in w.deployments && FailsAt(w, 0) && !FailsAt(w, 1)
    ensures ScaleAction(d[1], key) in E.Invoked(rd, CrashLoopActions(d, Some(key)), w)
  {
    hide E.RunOneSpec, E.Invokes, E.Invoked, ScaleAction, RestartPodAction, RolloutAction;
    var restart, scale, rollout := RestartPodAction(d[0], Some(key)), ScaleAction(d[1], key), RolloutAction(d[2], key);
    RestartRefused(rd, d[0], Some(key), w);
    ScaleStarts(d[1], key, Elapsed(w));
    assert CrashLoopActions(d, Some(key)) == [restart] + ([scale] + [rollout]);
    E.InvokedStep(rd, restart, [scale] + [rollout], w);
    E.InvokedStep(rd, scale, [rollout], Elapsed(w));
  }

  lemma MediumInProdNeedsProdAdmin(m: GroupMapping, groups: seq<string>)
    requires Highest(m, groups) == Some(NonProdAdmin)
    ensures Executes(m, Policy.Request(groups, Prod, Safe, true))
    ensures !Executes(m, Policy.Request(groups, Prod, Medium, true))
  {
    hide Highest, Decide;
    ExecutesExactly(m, Policy.Request(groups, Prod, Safe, true));
    ExecutesExactly(m, Policy.Request(groups, Prod, Medium, true));
  }

  /** And that does happen: a caller who may only run safe actions in production gets a
      medium one run, through the very call the policy allowed. */
  lemma LadderMayOutgrowItsGate(rd: E.Redactor<Snap>, d: seq<string>, sig: Signal, m: GroupMapping, groups: seq<string>)
    requires |d| == 3 && sig.kind == "PodCrashLoopBackOff" && Highest(m, groups) == Some(NonProdAdmin)
    ensures exists w: World ::
              var (w1, diag) := AgentCore.DiagnoseSpec([CrashLoopBackOff(d)], rd, sig, w);
              var again := AgentCore.Derive([CrashLoopBackOff(d)], sig, w1);
              && diag.Ok? && again.result.Ok?
              && Executes(m, Policy.Request(groups, Prod, McpTools.MaxRisk(diag.value.proposed), true))
              && exists a :: a in E.Invoked(rd, again.result.value.2, again.world)
                             && !Executes(m, Policy.Request(groups, Prod, a.risk, true))
  {
    hide AgentCore.DiagnoseSpec, AgentCore.Derive, E.Invoked, E.Invokes, ScaleAction, Executes, CrashLoopActions, Highest,
         AgentCore.ProposedAll, McpTools.MaxRisk;
    var w, key := Flaky(sig.namespace), Key(sig.namespace, OWNER);
    FlakyDiagnosis(rd, d, sig);
    FlakyLadder(d, sig);
    ScaleStarts(d[1], key, w.(calls := 6));
    ScaleIsInvoked(rd, d, key, w.(calls := 5));
    CrashLoopRisks(rd, d, None);
    MediumInProdNeedsProdAdmin(m, groups);
  }

  // ------------------------------------------------------------ approving "increase memory limit"

  /** A diagnosis by the OOMKilled playbook that was put on the trail. */
  ghost predicate RecordedOOM(registry: Registry, rd: E.Redactor<Snap>, d: seq<string>, configured: real,
                              e: McpTools.Entry, w: World)
    requires |d| == 2
  {
    && Find(registry, e.signal) == Some(OOMKilled(d, configured))
    && var diag := AgentCore.DiagnoseSpec(registry, rd, e.signal, w).1;
       diag.Ok? && e.playbookID == diag.value.playbookID && e.meta == diag.value.meta && e.proposed == diag.value.proposed
  }

  /** The deployment Diagnose finds to own the pod, if it can: its second call reads the pod again,
      its third the owner of the pod's ReplicaSet. */
  function FoundOwner(w: World): Option<string> {
    if FailsAt(w, 1) || FailsAt(w, 2) then None else w.fate(w.calls + 2).owner
  }

  /** Both core diagnoses fail exactly when their first read of the pod does; not finding the owner
      is no failure. They change nothing, and record the owner when there is one. */
  lemma CoreDiagnosesSay(sig: Signal, w: World)
    ensures var f, g := DiagnoseOOM(w, sig), DiagnoseCrashLoop(w, sig);
            && Untouched(w, f.world) && Untouched(w, g.world) && f.result == g.result
            && (f.result.Ok? <==> !FailsAt(w, 0))
            && (f.result.Err? ==> f.result.error == w.fate(w.calls).err.value)
            && (f.result.Ok? ==>
                  && f.result.value.signal == sig
                  && f.result.value.meta
                     == if FoundOwner(w).Some? then map["deployment" := FoundOwner(w).value] else map[])
  {
    if !FailsAt(w, 0) {
      var owner := OwningDeploymentName(Elapsed(w));
      assert owner.result.Ok? <==> FoundOwner(w).Some?;
      assert owner.result.Ok? ==> owner.result.value == FoundOwner(w).value;
      assert Untouched(w, owner.world);
    }
  }

  lemma MemoryIsProposed(rd: E.Redactor<Snap>, d: seq<string>, configured: real, owner: Option<Key>)
    requires |d| == 2
    ensures McpTools.FindProposed(AgentCore.ProposedAll(rd, OOMActions(d, configured, owner)), MORE_MEMORY).Some?
            <==> owner.Some?
  {
    var actions := OOMActions(d, configured, owner);
    var proposed := AgentCore.ProposedAll(rd, actions);
    McpTools.FoundProposedIsThere(proposed, MORE_MEMORY);
    hide McpTools.FindProposed;
    assert proposed[0].name == actions[0].name == RESTART != MORE_MEMORY;
    if owner.Some? {
      assert proposed[1].name == actions[1].name == MORE_MEMORY;
    }
  }

  /** "increase memory limit" is proposed exactly when an owner with a name was found, and
      then its scrubbed name is what the entry's meta says. */
  lemma ProposedMeansRecorded(registry: Registry, rd: E.Redactor<Snap>, d: seq<string>, configured: real,
                              e: McpTools.Entry, w: World)
    requires |d| == 2 && RecordedOOM(registry, rd, d, configured, e, w)
    ensures McpTools.FindProposed(e.proposed, MORE_MEMORY).Some? <==> FoundOwner(w).Some? && FoundOwner(w).value != ""
    ensures FoundOwner(w).Some? ==> "deployment" in e.meta && e.meta["deployment"] == rd.text(FoundOwner(w).value)
    ensures e.playbookID == OOM_ID
  {
    hide AgentCore.ProposedAll, McpTools.FindProposed, OOMActions, FoundOwner;
    CoreDiagnosesSay(e.signal, w);
    var meta := DiagnoseOOM(w, e.signal).result.value.meta;
    var pbk := OOMKilled(d, configured);
    assert pbk.diagnose(w, e.signal) == DiagnoseOOM(w, e.signal);
    assert e.proposed == AgentCore.ProposedAll(rd, OOMActions(d, configured, Owner(e.signal.namespace, meta)));
    MemoryIsProposed(rd, d, configured, Owner(e.signal.namespace, meta));
  }

  /** Reading the deployment twice more, for what it wants and what it has, fails. */
  predicate ReadsFail(w: World, key: Key) {
    key !in w.deployments || FailsAt(w, 0) || FailsAt(w, 1)
  }

  predicate ReadyEnough(w: World, key: Key)
    requires key in w.deployments
  {
    w.fate(w.calls + 1).ready >= Desired(w.deployments[key])
  }

  /** Without a recorded deployment, checking again asks the cluster nothing and is an error;
      otherwise it reads that deployment twice. */
  lemma RecheckOnRecordedOwner(d: seq<string>, configured: real, w: World, sig: Signal, meta: Meta)
    requires |d| == 2
    ensures "deployment" !in meta || meta["deployment"] == "" ==>
              RecheckOOM(d, configured, w, sig, meta) == Rechecked(w, Err("original incident has no deployment recorded"))
    ensures "deployment" in meta && meta["deployment"] != "" ==>
            var key := Key(sig.namespace, meta["deployment"]);
            var r := RecheckOOM(d, configured, w, sig, meta);
            && Untouched(w, r.world)
            && (ReadsFail(w, key) <==> r.result.Err?)
            && (r.result.Ok? ==>
                  r.result.value == if ReadyEnough(w, key) then None else Some(OOMActions(d, configured, Some(key))))
  {
  }

  lemma MemoryIsOnTheLadder(d: seq<string>, configured: real, key: Key)
    requires |d| == 2
    ensures AgentCore.Named(OOMActions(d, configured, Some(key)), MORE_MEMORY)
         == Some(MemoryAction(d[1], key, Factor(configured)))
  {
    var actions := OOMActions(d, configured, Some(key));
    assert actions[0].name == RESTART != MORE_MEMORY;
    assert actions[1..][0] == MemoryAction(d[1], key, Factor(configured));
  }

  /** An authorised approval of "increase memory limit" for an incident OOMKilled recorded, in
      whatever state the cluster has come to since: a cluster read fails, or enough replicas
      are ready again, or that action runs on the deployment the incident names - and
      nothing else can come of it. */
  lemma OOMApprovalIsComplete(registry: Registry, rd: E.Redactor<Snap>, d: seq<string>, configured: real,
                              cfg: McpTools.Config, groups: seq<string>, entries: seq<McpTools.Entry>, readable: bool,
                              id: string, inScope: bool, was: World, w: World)
    requires |d| == 2
    requires McpTools.Authorize(cfg, groups, entries, readable, id, MORE_MEMORY, inScope).Ok?
    requires var a := McpTools.Authorize(cfg, groups, entries, readable, id, MORE_MEMORY, inScope).value;
             a.incident < |entries| && RecordedOOM(registry, rd, d, configured, entries[a.incident], was)
    requires FoundOwner(was).Some? ==> rd.text(FoundOwner(was).value) == FoundOwner(was).value
    ensures FoundOwner(was).Some?
    ensures var a := McpTools.Authorize(cfg, groups, entries, readable, id, MORE_MEMORY, inScope).value;
            var key := Key(a.signal.namespace, FoundOwner(was).value);
            var (v, chosen) := AgentCore.ToRun(registry, a.playbookID, a.signal, a.action, a.meta, w);
            && Untouched(w, v)
            && (ReadsFail(w, key) <==> chosen.Err? && chosen.error.RecheckFailed?)
            && (!ReadsFail(w, key) ==>
                  chosen == if ReadyEnough(w, key) then Err(AgentCore.NoLongerNeeded)
                            else Ok(MemoryAction(d[1], key, if configured > 0.0 then configured else 1.5)))
  {
    var a := McpTools.Authorize(cfg, groups, entries, readable, id, MORE_MEMORY, inScope).value;
    var e := entries[a.incident];
    assert a == McpTools.Approval(e.cluster, e.playbookID, e.signal, MORE_MEMORY, e.meta, a.incident, groups);
    assert McpTools.FindProposed(e.proposed, MORE_MEMORY).Some?;
    hide McpTools.Authorize, McpTools.FindProposed, AgentCore.DiagnoseSpec, FoundOwner;
    ProposedMeansRecorded(registry, rd, d, configured, e, was);
    RecheckOnRecordedOwner(d, configured, w, e.signal, e.meta);
    MemoryIsOnTheLadder(d, configured, Key(e.signal.namespace, FoundOwner(was).value));
    hide RecheckOOM, OOMActions, MemoryAction, AgentCore.Named, ReadsFail, ReadyEnough;
  }

  lemma RaisingEither(w: World, key: Key, factor: real)
    requires key in w.deployments
    ensures var r := RaiseMemory(w, key, factor);
            var was, now := w.deployments[key], r.world.deployments[key];
            var grown := (was.memory as real * factor).Floor;
            && KeepsReplicas(w, r.world, key)
            && (r.err.None? <==> !FailsAt(w, 0) && !FailsAt(w, 1) && !FailsAt(w, 2) && !FailsAt(w, 3))
            && now == (if FailsAt(w, 0) || FailsAt(w, 1) then was
                       else if FailsAt(w, 2) || FailsAt(w, 3) then was.(memory := grown)
                       else was.(memory := grown, rollouts := was.rollouts + 1))
  {
    var raised := IncreaseMemoryLimit(w, key, factor);
    if raised.result.Ok? {
      assert raised.world.calls == w.calls + 2;
      var was := w.deployments[key];
      assert raised.world.deployments[key] == was.(memory := (was.memory as real * factor).Floor);
    }
  }

  /** What that one run does: the limit grows by the factor and the deployment is rolled out,
      or the attempt is not validated and no rollout happened - though when the rollout is what
      failed, the limit has already grown. Nothing is ever rolled back, and no other deployment is touched. */
  lemma MemoryRunIsOneChange(rd: E.Redactor<Snap>, description: string, key: Key, factor: real, w: World)
    requires key in w.deployments
    ensures var (v, t) := E.RunOneSpec(rd, MemoryAction(description, key, factor), w);
            var was, now := w.deployments[key], v.deployments[key];
            var grown := (was.memory as real * factor).Floor;
            && KeepsReplicas(w, v, key)
            && !t.rolledBack
            && now == (if FailsAt(w, 0) || FailsAt(w, 1) then was
                       else if FailsAt(w, 2) || FailsAt(w, 3) then was.(memory := grown)
                       else was.(memory := grown, rollouts := was.rollouts + 1))
            && (t.validated <==> !FailsAt(w, 0) && !FailsAt(w, 1) && !FailsAt(w, 2) && !FailsAt(w, 3))
  {
    hide RaiseMemory;
    RaisingEither(w, key, factor);
  }

  /** A cluster whose API never fails, with `ready` replicas of the one deployment. */
  function Calm(namespace: string, ready: nat): World {
    World(map[Key(namespace, OWNER) := Deployment(Some(2), 0, 100)], 0, 0,
          (i: nat) => Fate(None, 0, ready, true, Some(OWNER), false))
  }

  lemma CalmDiagnosis(rd: E.Redactor<Snap>, d: seq<string>, configured: real, sig: Signal)
    requires |d| == 2 && sig.kind == "PodOOMKilled"
    ensures AgentCore.DiagnoseSpec([OOMKilled(d, configured)], rd, sig, Calm(sig.namespace, 0)).1.Ok?
    ensures FoundOwner(Calm(sig.namespace, 0)) == Some(OWNER)
  {
    var w := Calm(sig.namespace, 0);
    assert ReadPod(w).result.Ok?;
    assert DiagnoseOOM(w, sig).result.Ok?;
  }

  lemma MemoryProposedHigh(rd: E.Redactor<Snap>, d: seq<string>, configured: real, key: Key)
    requires |d| == 2
    ensures var p := McpTools.FindProposed(AgentCore.ProposedAll(rd, OOMActions(d, configured, Some(key))), MORE_MEMORY);
            p.Some? && p.value.risk == High
  {
    var actions := OOMActions(d, configured, Some(key));
    var proposed := AgentCore.ProposedAll(rd, actions);
    assert proposed[0].name == actions[0].name == RESTART != MORE_MEMORY;
    assert proposed[1].name == actions[1].name == MORE_MEMORY && proposed[1].risk == actions[1].risk == High;
    assert proposed[1..][0] == proposed[1];
  }

  lemma OneEntryAuthorizes(cfg: McpTools.Config, groups: seq<string>, e: McpTools.Entry, name: string)
    requires cfg.executionFlag && Highest(cfg.mapping, groups) == Some(ProdAdmin)
    requires McpTools.FindProposed(e.proposed, name).Some? && McpTools.FindProposed(e.proposed, name).value.risk == High
    ensures var a := McpTools.Authorize(cfg, groups, [e], true, e.id, name, true); a.Ok? && a.value.incident == 0
  {
    hide McpTools.FindProposed, Highest;
    assert McpTools.FindEntry([e], e.id) == Some(0);
  }

  /** Such approvals exist: any prod-admin of a hub that executes can be authorised on an
      incident this playbook recorded. */
  lemma OOMApprovalHappens(rd: E.Redactor<Snap>, d: seq<string>, configured: real, sig: Signal,
                           cfg: McpTools.Config, groups: seq<string>, id: string, decision: Decision)
    requires |d| == 2 && sig.kind == "PodOOMKilled"
    requires cfg.executionFlag && Highest(cfg.mapping, groups) == Some(ProdAdmin)
    ensures var w := Calm(sig.namespace, 0);
            var diag := AgentCore.DiagnoseSpec([OOMKilled(d, configured)], rd, sig, w).1;
            && diag.Ok?
            && var e := McpTools.DiagnosisEntry(id, groups, "c", sig, diag.value, decision, None);
               && RecordedOOM([OOMKilled(d, configured)], rd, d, configured, e, w)
               && McpTools.Authorize(cfg, groups, [e], true, id, MORE_MEMORY, true).Ok?
               && McpTools.Authorize(cfg, groups, [e], true, id, MORE_MEMORY, true).value.incident == 0
  {
    var w := Calm(sig.namespace, 0);
    CalmDiagnosis(rd, d, configured, sig);
    MemoryProposedHigh(rd, d, configured, Key(sig.namespace, OWNER));
    CoreDiagnosesSay(sig, w);
    hide McpTools.FindProposed, McpTools.Authorize, AgentCore.ProposedAll, FoundOwner, Highest, OOMActions, DiagnoseOOM;
    var f := DiagnoseOOM(w, sig);
    assert Owner(sig.namespace, f.result.value.meta) == Some(Key(sig.namespace, OWNER));
    var diag := AgentCore.DiagnoseSpec([OOMKilled(d, configured)], rd, sig, w).1;
    var e := McpTools.DiagnosisEntry(id, groups, "c", sig, diag.value, decision, None);
    OneEntryAuthorizes(cfg, groups, e, MORE_MEMORY);
  }

  type Step = McpTools.Step<World, Snap>

  lemma CalmRecheck(namespace: string)
    ensures var w, key := Calm(namespace, 0), Key(namespace, OWNER);
            !ReadsFail(w, key) && !ReadyEnough(w, key)
  {
  }

  lemma CalmApproves(rd: E.Redactor<Snap>, d: seq<string>, configured: real, sig: Signal,
                     cfg: McpTools.Config, groups: seq<string>, e: McpTools.Entry)
    requires |d| == 2 && sig.kind == "PodOOMKilled" && rd.text(OWNER) == OWNER && e.signal == sig
    requires RecordedOOM([OOMKilled(d, configured)], rd, d, configured, e, Calm(sig.namespace, 0))
    requires McpTools.Authorize(cfg, groups, [e], true, e.id, MORE_MEMORY, true).Ok?
    requires McpTools.Authorize(cfg, groups, [e], true, e.id, MORE_MEMORY, true).value.incident == 0
    ensures var a := McpTools.Authorize(cfg, groups, [e], true, e.id, MORE_MEMORY, true).value;
            var ran := McpTools.Approves(a, [OOMKilled(d, configured)], Calm(sig.namespace, 0));
            ran.Some? && ran.value.name == MORE_MEMORY && ran.value.risk == High && a.signal == sig
  {
    var w, registry := Calm(sig.namespace, 0), [OOMKilled(d, configured)];
    CalmDiagnosis(rd, d, configured, sig);
    CalmRecheck(sig.namespace);
    hide McpTools.Authorize, AgentCore.ToRun, RecordedOOM, FoundOwner, Calm, ReadsFail, ReadyEnough, OOMKilled;
    OOMApprovalIsComplete(registry, rd, d, configured, cfg, groups, [e], true, e.id, true, w, w);
    var a := McpTools.Authorize(cfg, groups, [e], true, e.id, MORE_MEMORY, true).value;
    ApprovalKeepsSignal(cfg, groups, [e], e.id, MORE_MEMORY);
    var chosen := AgentCore.ToRun(registry, a.playbookID, a.signal, a.action, a.meta, w).1;
    assert chosen.Ok? && chosen.value.snapshot.None?;
  }

  lemma ApprovalKeepsSignal(cfg: McpTools.Config, groups: seq<string>, entries: seq<McpTools.Entry>, id: string,
                            name: string)
    ensures var r := McpTools.Authorize(cfg, groups, entries, true, id, name, true);
            r.Ok? ==> r.value.incident < |entries| && r.value.signal == entries[r.value.incident].signal
  {
  }

  /** The guard does let high-risk actions through: an OOMKilled incident on the trail, approved by
      a prod-admin in scope, is a run of two steps at whose end an agent has invoked "increase
      memory limit". */
  lemma HighRiskCanRun(rd: E.Redactor<Snap>, d: seq<string>, configured: real, sig: Signal,
                       cfg: McpTools.Config, groups: seq<string>, id: string, decision: Decision)
    returns (states: seq<McpTools.State>, steps: seq<Step>)
    requires |d| == 2 && sig.kind == "PodOOMKilled" && rd.text(OWNER) == OWNER
    requires cfg.executionFlag && Highest(cfg.mapping, groups) == Some(ProdAdmin)
    ensures McpTools.IsRun(cfg, states, steps) && |states| == 3
    ensures |states[2].events| == 1 && states[2].events[0].risk == High
    ensures states[2].events[0].action == "increase memory limit" && states[2].events[0].signal == sig
  {
    var w, registry := Calm(sig.namespace, 0), [OOMKilled(d, configured)];
    OOMApprovalHappens(rd, d, configured, sig, cfg, groups, id, decision);
    hide McpTools.Authorize, McpTools.Approves, McpTools.Next, McpTools.IsRun, RecordedOOM, AgentCore.DiagnoseSpec,
         Calm, OOMKilled, Highest;
    var diag := AgentCore.DiagnoseSpec(registry, rd, sig, w).1;
    var e := McpTools.DiagnosisEntry(id, groups, "c", sig, diag.value, decision, None);
    CalmApproves(rd, d, configured, sig, cfg, groups, e);
    states, steps := ApproveAndDeliver(cfg, groups, e, MORE_MEMORY, registry, w);
  }

  /** One approval, and its delivery. */
  lemma ApproveAndDeliver(cfg: McpTools.Config, groups: seq<string>, e: McpTools.Entry, name: string,
                          registry: Registry, w: World)
    returns (states: seq<McpTools.State>, steps: seq<Step>)
    requires e.kind == McpTools.Diagnosed
    requires McpTools.Authorize(cfg, groups, [e], true, e.id, name, true).Ok?
    requires var a := McpTools.Authorize(cfg, groups, [e], true, e.id, name, true).value;
             McpTools.Approves(a, registry, w).Some?
    ensures McpTools.IsRun(cfg, states, steps) && |states| == 3
    ensures var a := McpTools.Authorize(cfg, groups, [e], true, e.id, name, true).value;
            var ran := McpTools.Approves(a, registry, w).value;
            states[2].events == [McpTools.RunEvent(a.cluster, a.playbookID, a.signal, ran.name, ran.risk, Some(0))]
  {
    hide McpTools.Authorize, McpTools.Approves;
    var a := McpTools.Authorize(cfg, groups, [e], true, e.id, name, true).value;
    var s0 := McpTools.State([e], [], []);
    var approve: Step := McpTools.HubApproves(groups, true, e.id, name, true);
    var deliver: Step := McpTools.AgentApproves(0, registry, w);
    var s1 := McpTools.Next(cfg, s0, approve);
    assert s1 == McpTools.State([e], [a], []);
    var s2 := McpTools.Next(cfg, s1, deliver);
    states, steps := [s0, s1, s2], [approve, deliver];
  }
}
