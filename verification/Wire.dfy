/** The request and response messages of agent.proto, and the one conversion from a
    handler's return values to a response (handlerresponses.go). */
module Wire {
  import opened Wrappers
  import opened Policy

  datatype Signal = Signal(kind: string, namespace: string, name: string, nodeName: string)

  type Meta = map<string, string>

  datatype ProposedAction = ProposedAction(name: string, description: string, risk: Risk)

  datatype Attempt = Attempt(action: string, description: string, risk: Risk, output: string, error: string,
                             validated: bool, rolledBack: bool, skipped: bool)

  datatype PodIssue = PodIssue(namespace: string, name: string, kind: string, detail: string)

  datatype NodeInfo = NodeInfo(name: string, zone: string, region: string, instanceType: string,
                               architecture: string, ready: bool)

  /** A hub request without its request ID and cluster ID. */
  datatype Request =
    | DiagnoseRequest(signal: Signal)
    | ExecuteRequest(playbookID: string, signal: Signal)
    | ScanRequest(namespace: string)
    | ApproveActionRequest(playbookID: string, signal: Signal, actionName: string, meta: Meta)
    | GetLogsRequest(namespace: string, name: string, deployment: string, tailLines: int)
    | ListNodesRequest

  /** What one Handler method returned, apart from its error. */
  datatype Returned =
    | DiagnoseReturned(playbookID: string, summary: string, proposed: seq<ProposedAction>, meta: Meta, noPlaybook: bool)
    | ExecuteReturned(resolved: bool, attempts: seq<Attempt>)
    | ScanReturned(issues: seq<PodIssue>)
    | ApproveActionReturned(attempt: Option<Attempt>)
    | GetLogsReturned(logs: string)
    | ListNodesReturned(nodes: seq<NodeInfo>)

  datatype HandlerResult = HandlerResult(returned: Returned, err: Option<string>)

  /** A response without its request ID. */
  datatype Response =
    | DiagnoseResponse(playbookID: string, summary: string, proposed: seq<ProposedAction>, error: string,
                       noPlaybook: bool, meta: Meta)
    | ExecuteResponse(resolved: bool, attempts: seq<Attempt>, error: string)
    | ScanResponse(issues: seq<PodIssue>, error: string)
    | ApproveActionResponse(attempt: Option<Attempt>, error: string)
    | GetLogsResponse(logs: string, error: string)
    | ListNodesResponse(nodes: seq<NodeInfo>, error: string)

  /** The six RPC kinds. */
  datatype Kind = Diagnose | Execute | Scan | ApproveAction | GetLogs | ListNodes

  function KindOfRequest(q: Request): Kind {
    match q
    case DiagnoseRequest(_) => Diagnose
    case ExecuteRequest(_, _) => Execute
    case ScanRequest(_) => Scan
    case ApproveActionRequest(_, _, _, _) => ApproveAction
    case GetLogsRequest(_, _, _, _) => GetLogs
    case ListNodesRequest => ListNodes
  }

  function KindOfReturned(r: Returned): Kind {
    match r
    case DiagnoseReturned(_, _, _, _, _) => Diagnose
    case ExecuteReturned(_, _) => Execute
    case ScanReturned(_) => Scan
    case ApproveActionReturned(_) => ApproveAction
    case GetLogsReturned(_) => GetLogs
    case ListNodesReturned(_) => ListNodes
  }

  function KindOfResponse(r: Response): Kind {
    match r
    case DiagnoseResponse(_, _, _, _, _, _) => Diagnose
    case ExecuteResponse(_, _, _) => Execute
    case ScanResponse(_, _) => Scan
    case ApproveActionResponse(_, _) => ApproveAction
    case GetLogsResponse(_, _) => GetLogs
    case ListNodesResponse(_, _) => ListNodes
  }

  /** A handler method only ever returns values of its own kind: Go's types say so. */
  predicate Answers(q: Request, h: HandlerResult) {
    KindOfReturned(h.returned) == KindOfRequest(q)
  }

  function ErrorText(err: Option<string>): string {
    if err.Some? then err.value else ""
  }

  /** What a caller reads back out of a response: no error text means no error. */
  function FromResponse(r: Response): HandlerResult {
    HandlerResult(
      match r
      case DiagnoseResponse(id, summary, proposed, _, none, meta) => DiagnoseReturned(id, summary, proposed, meta, none)
      case ExecuteResponse(resolved, attempts, _) => ExecuteReturned(resolved, attempts)
      case ScanResponse(issues, _) => ScanReturned(issues)
      case ApproveActionResponse(attempt, _) => ApproveActionReturned(attempt)
      case GetLogsResponse(logs, _) => GetLogsReturned(logs)
      case ListNodesResponse(nodes, _) => ListNodesReturned(nodes),
      if r.error == "" then None else Some(r.error))
  }

  /** diagnoseResponse ... listNodesResponse: the response a role-based cluster's caller
      gets in process, and what an agent sends back once it has set the request ID. */
  function ToResponse(h: HandlerResult): (r: Response)
    ensures KindOfResponse(r) == KindOfReturned(h.returned)
    ensures h.err != Some("") ==> FromResponse(r) == h
  {
    var error := ErrorText(h.err);
    match h.returned
    case DiagnoseReturned(id, summary, proposed, meta, none) => DiagnoseResponse(id, summary, proposed, error, none, meta)
    case ExecuteReturned(resolved, attempts) => ExecuteResponse(resolved, attempts, error)
    case ScanReturned(issues) => ScanResponse(issues, error)
    case ApproveActionReturned(attempt) => ApproveActionResponse(attempt, error)
    case GetLogsReturned(logs) => GetLogsResponse(logs, error)
    case ListNodesReturned(nodes) => ListNodesResponse(nodes, error)
  }

  /** A response loses nothing of what the handler returned, unless it failed with an error
      that has no text. */
  lemma ResponseLosesNothingIff(h: HandlerResult)
    ensures FromResponse(ToResponse(h)) == h <==> h.err != Some("")
  {
  }

  /** Every value travels under its own name. */
  lemma FieldsKeepTheirNames(h: HandlerResult)
    ensures var v, r := h.returned, ToResponse(h);
            && r.error == (if h.err.Some? then h.err.value else "")
            && (v.DiagnoseReturned? ==>
                  && r.DiagnoseResponse? && r.playbookID == v.playbookID && r.summary == v.summary
                  && r.proposed == v.proposed && r.meta == v.meta && r.noPlaybook == v.noPlaybook)
            && (v.ExecuteReturned? ==> r.ExecuteResponse? && r.resolved == v.resolved && r.attempts == v.attempts)
            && (v.ScanReturned? ==> r.ScanResponse? && r.issues == v.issues)
            && (v.ApproveActionReturned? ==> r.ApproveActionResponse? && r.attempt == v.attempt)
            && (v.GetLogsReturned? ==> r.GetLogsResponse? && r.logs == v.logs)
            && (v.ListNodesReturned? ==> r.ListNodesResponse? && r.nodes == v.nodes)
  {
  }

  type RequestID = string

  datatype HubMessage = HubMessage(id: RequestID, request: Request)

  /** Anything an agent sends: its Hello, or a response carrying the ID it echoes. */
  datatype AgentMessage =
    | Hello(clusterID: string, version: string)
    | Reply(id: RequestID, response: Response)
}
