/** The agent's handler: diagnosing, running a ladder, and running one approved action,
    each time deriving the ladder afresh from the cluster as it is. */
module AgentCore {
  import opened Wrappers
  import opened Policy
  import opened Wire
  import opened Playbooks
  import E = ExecEngine

  datatype AgentError =
    | NoPlaybook
    | DiagnoseFailed(err: string)
    | Mismatch(id: string)
    | RecheckFailed(err: string)
    | NoLongerNeeded
    | NotOnLadder
    | LadderRefused(why: E.LadderError)

  datatype Derived<!W, !S> = Derived(world: W, result: Result<(Playbook<W, S>, Finding, seq<E.Action<W, S>>), AgentError>)

  /** `diagnose`: building the ladder calls nothing. */
  function Derive<W, S>(registry: seq<Playbook<W, S>>, sig: Signal, w: W): Derived<W, S> {
    match Find(registry, sig)
    case None => Derived(w, Err(NoPlaybook))
    case Some(pbk) =>
      var f := pbk.diagnose(w, sig);
      match f.result
      case Err(e) => Derived(f.world, Err(DiagnoseFailed(e)))
      case Ok(finding) => Derived(f.world, Ok((pbk, finding, pbk.ladder(finding))))
  }

  function Proposed<W, S>(rd: E.Redactor<S>, a: E.Action<W, S>): ProposedAction {
    ProposedAction(a.name, rd.text(a.description), a.risk)
  }

  function ProposedAll<W, S>(rd: E.Redactor<S>, actions: seq<E.Action<W, S>>): seq<ProposedAction> {
    seq(|actions|, i requires 0 <= i < |actions| => Proposed(rd, actions[i]))
  }

  function RedactMeta<S>(rd: E.Redactor<S>, meta: Meta): Meta {
    map k | k in meta :: rd.text(meta[k])
  }

  datatype Diagnosis = Diagnosis(
    playbookID: string, summary: string, proposed: seq<ProposedAction>, meta: Meta, noPlaybook: bool)

  /** What Diagnose returns; no playbook is a normal outcome, not an error. */
  function DiagnoseSpec<W, S>(registry: seq<Playbook<W, S>>, rd: E.Redactor<S>, sig: Signal, w: W)
    : (W, Result<Diagnosis, AgentError>)
  {
    if Find(registry, sig).None? then (w, Ok(Diagnosis("", "", [], map[], true)))
    else
      var d := Derive(registry, sig, w);
      match d.result
      case Err(e) => (d.world, Err(e))
      case Ok((pbk, finding, actions)) =>
        (d.world,
         Ok(Diagnosis(pbk.id, rd.text(finding.summary), ProposedAll(rd, actions), RedactMeta(rd, finding.meta), false)))
  }

  method Diagnose<W, S>(live: E.Live<W>, registry: seq<Playbook<W, S>>, rd: E.Redactor<S>, sig: Signal)
    returns (r: Result<Diagnosis, AgentError>)
    modifies live
    ensures (live.world, r) == DiagnoseSpec(registry, rd, sig, old(live.world))
  {
    if Find(registry, sig).None? {
      return Ok(Diagnosis("", "", [], map[], true));
    }
    var d := Derive(registry, sig, live.world);
    live.world := d.world;
    if d.result.Err? {
      return Err(d.result.error);
    }
    var (pbk, finding, ladder) := d.result.value;
    var actions: seq<ProposedAction> := [];
    for i := 0 to |ladder|
      invariant actions == ProposedAll(rd, ladder)[..i]
    {
      actions := actions + [Proposed(rd, ladder[i])];
    }
    assert actions == ProposedAll(rd, ladder);
    return Ok(Diagnosis(pbk.id, rd.text(finding.summary), actions, RedactMeta(rd, finding.meta), false));
  }

  /** Nothing a playbook wrote leaves the agent unscrubbed, every rung is proposed with its own
      name and risk, and having no playbook is told apart from failing to diagnose. Each text is
      the scrubbed form of the very text it came from. */
  lemma DiagnosisIsScrubbed<W(!new), S>(registry: seq<Playbook<W, S>>, rd: E.Redactor<S>, sig: Signal, w: W)
    ensures var (v, r) := DiagnoseSpec(registry, rd, sig, w);
            && (Find(registry, sig).None? <==> r.Ok? && r.value.noPlaybook)
            && (Find(registry, sig).None? ==> v == w && r.value.proposed == [])
            && (Find(registry, sig).Some? ==>
                  var pbk := Find(registry, sig).value;
                  var f := pbk.diagnose(w, sig);
                  && v == f.world
                  && (f.result.Err? ==> r == Err(DiagnoseFailed(f.result.error)))
                  && (f.result.Ok? ==>
                        && r.Ok? && r.value.playbookID == pbk.id
                        && r.value.summary == rd.text(f.result.value.summary)
                        && r.value.meta.Keys == f.result.value.meta.Keys
                        && (forall k | k in r.value.meta :: r.value.meta[k] == rd.text(f.result.value.meta[k]))
                        && |r.value.proposed| == |pbk.ladder(f.result.value)|
                        && (forall i | 0 <= i < |r.value.proposed| ::
                              && r.value.proposed[i].name == pbk.ladder(f.result.value)[i].name
                              && r.value.proposed[i].risk == pbk.ladder(f.result.value)[i].risk
                              && r.value.proposed[i].description == rd.text(pbk.ladder(f.result.value)[i].description))))
  {
  }

  function OutAttempt<S>(t: E.Attempt<S>): Attempt {
    Attempt(t.action, t.description, t.risk, t.output, t.err, t.validated, t.rolledBack, t.skipped)
  }

  /** The attempt as it leaves the agent: everything but its snapshot. */
  predicate IsOut<S>(out: Attempt, t: E.Attempt<S>) {
    && out.action == t.action && out.description == t.description && out.risk == t.risk
    && out.output == t.output && out.error == t.err
    && out.validated == t.validated && out.rolledBack == t.rolledBack && out.skipped == t.skipped
  }

  /** Execute re-derives everything and refuses if another playbook now matches. */
  method Execute<W, S>(live: E.Live<W>, registry: seq<Playbook<W, S>>, rd: E.Redactor<S>, playbookID: string, sig: Signal)
    returns (r: Result<(bool, seq<Attempt>), AgentError>)
    modifies live
    ensures var found := Find(registry, sig);
            && (found.None? ==> r == Err(NoPlaybook) && live.world == old(live.world))
            && (found.Some? ==>
                  var pbk := found.value;
                  var f := pbk.diagnose(old(live.world), sig);
                  && (f.result.Err? ==> r == Err(DiagnoseFailed(f.result.error)) && live.world == f.world)
                  && (f.result.Ok? && pbk.id != playbookID ==> r == Err(Mismatch(pbk.id)) && live.world == f.world)
                  && (f.result.Ok? && pbk.id == playbookID ==>
                        var actions := pbk.ladder(f.result.value);
                        && (actions == [] ==> r == Err(LadderRefused(E.NoActions)) && live.world == f.world)
                        && (|actions| > 3 ==> r == Err(LadderRefused(E.TooManyActions)) && live.world == f.world)
                        && (0 < |actions| <= 3 ==>
                              var (w, resolved, attempts) := E.Climb(rd, actions, f.world);
                              && live.world == w && r.Ok? && r.value.0 == resolved && |r.value.1| == |attempts|
                              && forall i | 0 <= i < |attempts| :: IsOut(r.value.1[i], attempts[i]))))
  {
    var d := Derive(registry, sig, live.world);
    live.world := d.world;
    if d.result.Err? {
      return Err(d.result.error);
    }
    var (pbk, finding, actions) := d.result.value;
    if pbk.id != playbookID {
      return Err(Mismatch(pbk.id));
    }
    var result := E.Run(live, rd, E.Ladder(pbk.id, actions));
    hide E.Climb;
    if result.Err? {
      return Err(LadderRefused(result.error));
    }
    var attempts := result.value.attempts;
    var out: seq<Attempt> := [];
    for i := 0 to |attempts|
      invariant |out| == i
      invariant forall j | 0 <= j < i :: out[j] == OutAttempt(attempts[j])
    {
      out := out + [OutAttempt(attempts[i])];
    }
    return Ok((result.value.resolved, out));
  }

  // ------------------------------------------------------------ what the hub is told

  /** The constant words of each error's text, and the error it wraps. */
  function Message(e: AgentError): (text: string)
    ensures text != ""
  {
    match e
    case NoPlaybook => "nenhum playbook registrado sabe lidar com o sinal"
    case DiagnoseFailed(err) => "playbook: " + err
    case Mismatch(id) => "playbook mismatch: signal now matches " + id
    case RecheckFailed(err) => "playbook: rechecando antes de aprovar: " + err
    case NoLongerNeeded => "playbook: o problema já não está mais presente"
    case NotOnLadder => "action não está na ladder atual do playbook"
    case LadderRefused(_) => "execengine: ladder"
  }

  function DiagnoseResult(r: Result<Diagnosis, AgentError>): HandlerResult {
    match r
    case Ok(d) => HandlerResult(DiagnoseReturned(d.playbookID, d.summary, d.proposed, d.meta, d.noPlaybook), None)
    case Err(e) => HandlerResult(DiagnoseReturned("", "", [], map[], false), Some(Message(e)))
  }

  function ExecuteResult(r: Result<(bool, seq<Attempt>), AgentError>): HandlerResult {
    match r
    case Ok((resolved, attempts)) => HandlerResult(ExecuteReturned(resolved, attempts), None)
    case Err(e) => HandlerResult(ExecuteReturned(false, []), Some(Message(e)))
  }

  function ApproveResult(r: Result<Attempt, AgentError>): HandlerResult {
    match r
    case Ok(attempt) => HandlerResult(ApproveActionReturned(Some(attempt)), None)
    case Err(e) => HandlerResult(ApproveActionReturned(None), Some(Message(e)))
  }

  /** No error of the agent's is without text, so the hub reads back exactly what its handler
      returned, field by field, and sees an error exactly when there was one. */
  lemma HubSeesEveryFailure(d: Result<Diagnosis, AgentError>, e: Result<(bool, seq<Attempt>), AgentError>,
                            a: Result<Attempt, AgentError>)
    ensures FromResponse(ToResponse(DiagnoseResult(d))) == DiagnoseResult(d)
    ensures FromResponse(ToResponse(ExecuteResult(e))) == ExecuteResult(e)
    ensures FromResponse(ToResponse(ApproveResult(a))) == ApproveResult(a)
    ensures ToResponse(DiagnoseResult(d)).error != "" <==> d.Err?
    ensures ToResponse(ExecuteResult(e)).error != "" <==> e.Err?
    ensures ToResponse(ApproveResult(a)).error != "" <==> a.Err?
    ensures var r := ToResponse(DiagnoseResult(d));
            && r.DiagnoseResponse?
            && (d.Ok? ==> d.value == Diagnosis(r.playbookID, r.summary, r.proposed, r.meta, r.noPlaybook))
            && (d.Err? ==> r.playbookID == "" && r.proposed == [] && !r.noPlaybook)
    ensures var r := ToResponse(ExecuteResult(e));
            && r.ExecuteResponse?
            && (e.Ok? ==> e.value == (r.resolved, r.attempts))
            && (e.Err? ==> !r.resolved && r.attempts == [])
    ensures var r := ToResponse(ApproveResult(a));
            r.ApproveActionResponse? && r.attempt == if a.Ok? then Some(a.value) else None
  {
    hide Message;
    FieldsKeepTheirNames(DiagnoseResult(d));
    FieldsKeepTheirNames(ExecuteResult(e));
    FieldsKeepTheirNames(ApproveResult(a));
  }

  // ------------------------------------------------------------ one approved action

  /** The first rung of that name. */
  function Named<W, S>(actions: seq<E.Action<W, S>>, name: string): Option<E.Action<W, S>> {
    if actions == [] then None
    else if actions[0].name == name then Some(actions[0])
    else Named(actions[1..], name)
  }

  /** Rung number k is the first of that name. */
  ghost predicate FirstNamed<W, S>(actions: seq<E.Action<W, S>>, name: string, k: nat) {
    k < |actions| && actions[k].name == name && forall j | 0 <= j < k :: actions[j].name != name
  }

  lemma {:induction false} NamedIsFirst<W, S>(actions: seq<E.Action<W, S>>, name: string)
    ensures Named(actions, name).None? <==> forall i | 0 <= i < |actions| :: actions[i].name != name
    ensures Named(actions, name).Some? ==>
              exists k: nat :: FirstNamed(actions, name, k) && actions[k] == Named(actions, name).value
    ensures forall k: nat | FirstNamed(actions, name, k) :: Named(actions, name) == Some(actions[k])
  {
    if actions == [] {
    } else if actions[0].name == name {
      assert FirstNamed(actions, name, 0);
    } else {
      NamedIsFirst(actions[1..], name);
      if k: nat :| FirstNamed(actions[1..], name, k) {
        assert FirstNamed(actions, name, k + 1);
      }
      forall k: nat | FirstNamed(actions, name, k)
        ensures Named(actions, name) == Some(actions[k])
      {
        assert FirstNamed(actions[1..], name, k - 1);
      }
    }
  }

  /** The ladder an approval is checked against: through Recheck where there is one. */
  function CurrentLadder<W, S>(registry: seq<Playbook<W, S>>, pbk: Playbook<W, S>, sig: Signal, meta: Meta, w: W)
    : (W, Result<seq<E.Action<W, S>>, AgentError>)
  {
    match pbk.recheck
    case Some(recheck) =>
      var r := recheck(w, sig, meta);
      (r.world,
       match r.result
       case Err(e) => Err(RecheckFailed(e))
       case Ok(None) => Err(NoLongerNeeded)
       case Ok(Some(actions)) => Ok(actions))
    case None =>
      var d := Derive(registry, sig, w);
      (d.world, if d.result.Err? then Err(d.result.error) else Ok(d.result.value.2))
  }

  /** The action an approval ends up running, and the world it starts in. */
  function ToRun<W, S>(registry: seq<Playbook<W, S>>, playbookID: string, sig: Signal, name: string, meta: Meta, w: W)
    : (W, Result<E.Action<W, S>, AgentError>)
  {
    match Find(registry, sig)
    case None => (w, Err(NoPlaybook))
    case Some(pbk) =>
      if pbk.id != playbookID then (w, Err(Mismatch(pbk.id)))
      else
        var (w1, ladder) := CurrentLadder(registry, pbk, sig, meta, w);
        match ladder
        case Err(e) => (w1, Err(e))
        case Ok(actions) =>
          (w1, if Named(actions, name).None? then Err(NotOnLadder) else Ok(Named(actions, name).value))
  }

  /** From w to v: the first rung of that name is run, and only that one, or there is none. */
  ghost predicate RunsNamed<W, S>(rd: E.Redactor<S>, actions: seq<E.Action<W, S>>, name: string, w: W, v: W,
                                  r: Result<Attempt, AgentError>)
  {
    && ((forall i | 0 <= i < |actions| :: actions[i].name != name) ==> r == Err(NotOnLadder) && v == w)
    && (forall k: nat | k < |actions| && FirstNamed(actions, name, k) ::
          r.Ok? && v == E.RunOneSpec(rd, actions[k], w).0 && IsOut(r.value, E.RunOneSpec(rd, actions[k], w).1))
  }

  lemma NothingNamed<W, S>(rd: E.Redactor<S>, actions: seq<E.Action<W, S>>, name: string, w: W)
    requires forall i | 0 <= i < |actions| :: actions[i].name != name
    ensures RunsNamed(rd, actions, name, w, w, Err(NotOnLadder))
  {
    hide E.RunOneSpec;
  }

  lemma FirstNamedRuns<W, S>(rd: E.Redactor<S>, actions: seq<E.Action<W, S>>, name: string, w: W, k: nat)
    requires FirstNamed(actions, name, k)
    ensures var (v, t) := E.RunOneSpec(rd, actions[k], w); RunsNamed(rd, actions, name, w, v, Ok(OutAttempt(t)))
  {
    hide E.RunOneSpec;
  }

  method ApproveAction<W, S>(live: E.Live<W>, registry: seq<Playbook<W, S>>, rd: E.Redactor<S>,
                             playbookID: string, sig: Signal, name: string, meta: Meta)
    returns (r: Result<Attempt, AgentError>)
    modifies live
    ensures var found := Find(registry, sig);
            && (found.None? ==> r == Err(NoPlaybook) && live.world == old(live.world))
            && (found.Some? && found.value.id != playbookID ==>
                  r == Err(Mismatch(found.value.id)) && live.world == old(live.world))
            && (found.Some? && found.value.id == playbookID && found.value.recheck.Some? ==>
                  var again := found.value.recheck.value(old(live.world), sig, meta);
                  && (again.result.Err? ==> r == Err(RecheckFailed(again.result.error)) && live.world == again.world)
                  && (again.result == Ok(None) ==> r == Err(NoLongerNeeded) && live.world == again.world)
                  && (again.result.Ok? && again.result.value.Some? ==>
                        RunsNamed(rd, again.result.value.value, name, again.world, live.world, r)))
            && (found.Some? && found.value.id == playbookID && found.value.recheck.None? ==>
                  var f := found.value.diagnose(old(live.world), sig);
                  && (f.result.Err? ==> r == Err(DiagnoseFailed(f.result.error)) && live.world == f.world)
                  && (f.result.Ok? ==>
                        RunsNamed(rd, found.value.ladder(f.result.value), name, f.world, live.world, r)))
    ensures var (w, chosen) := ToRun(registry, playbookID, sig, name, meta, old(live.world));
            match chosen
            case Err(e) => r == Err(e) && live.world == w
            case Ok(a) => (live.world, r) == (E.RunOneSpec(rd, a, w).0, Ok(OutAttempt(E.RunOneSpec(rd, a, w).1)))
  {
    hide E.RunOneSpec, RunsNamed, OutAttempt, Find;
    var found := Find(registry, sig);
    if found.None? {
      return Err(NoPlaybook);
    }
    var pbk := found.value;
    if pbk.id != playbookID {
      return Err(Mismatch(pbk.id));
    }
    var (w, ladder) := CurrentLadder(registry, pbk, sig, meta, live.world);
    live.world := w;
    if ladder.Err? {
      return Err(ladder.error);
    }
    var actions := ladder.value;
    var i := 0;
    while i < |actions| && actions[i].name != name
      invariant i <= |actions|
      invariant forall j | 0 <= j < i :: actions[j].name != name
      invariant Named(actions, name) == Named(actions[i..], name)
    {
      i := i + 1;
    }
    if i == |actions| {
      NothingNamed(rd, actions, name, w);
      return Err(NotOnLadder);
    }
    FirstNamedRuns(rd, actions, name, w, i);
    var t := E.RunApproved(live, rd, actions[i]);
    return Ok(OutAttempt(t));
  }
}
