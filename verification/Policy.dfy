/** The access policy: the rule set of policy.rego, the tier lookup of GroupMapping
    and the decision the engine builds from the two. */
module Policy {
  import opened Wrappers

  // Tiers and risks are strings in the source. The named values are the declared
  // constants; the last constructor of each type stands for any other string, which
  // an ops-owned group mapping or a playbook may well contain.
  datatype Tier = ReadOnly | NonProdAdmin | ProdAdmin | OtherTier(name: string)
  datatype Risk = Safe | Medium | High | OtherRisk(name: string)
  datatype Env = Prod | NonProd

  /** The document the Rego query is evaluated on. */
  datatype Input = Input(tier: Tier, env: Env, risk: Risk, flag: bool)

  /** One constructor per guarded rule of policy.rego, in file order. */
  datatype Rule =
    | HighNeedsApproval
    | ReadOnlyDiagnoses
    | SafeRuns
    | SafeFlagOff
    | MediumNonProdRuns
    | MediumNonProdFlagOff
    | MediumProdRuns
    | MediumProdFlagOff

  const ALL_RULES: seq<Rule> :=
    [HighNeedsApproval, ReadOnlyDiagnoses, SafeRuns, SafeFlagOff,
     MediumNonProdRuns, MediumNonProdFlagOff, MediumProdRuns, MediumProdFlagOff]

  // Every head carries its own text, so two rules never yield the same object.
  datatype Reason = NoRuleMatched | NoMappedGroup | ByRule(rule: Rule) | RunbookOnly | ApprovedExplicitly

  datatype Decision = Decision(allow: bool, dryRun: bool, reason: Reason)

  /** Whether the body of `rule` holds of `i`. */
  predicate Fires(rule: Rule, i: Input) {
    match rule
    case HighNeedsApproval => i.risk == High
    case ReadOnlyDiagnoses => i.risk != High && i.tier == ReadOnly
    case SafeRuns => i.risk == Safe && i.tier != ReadOnly && i.flag
    case SafeFlagOff => i.risk == Safe && i.tier != ReadOnly && !i.flag
    case MediumNonProdRuns => i.risk == Medium && i.env == NonProd && i.tier in {NonProdAdmin, ProdAdmin} && i.flag
    case MediumNonProdFlagOff => i.risk == Medium && i.env == NonProd && i.tier in {NonProdAdmin, ProdAdmin} && !i.flag
    case MediumProdRuns => i.risk == Medium && i.env == Prod && i.tier == ProdAdmin && i.flag
    case MediumProdFlagOff => i.risk == Medium && i.env == Prod && i.tier == ProdAdmin && !i.flag
  }

  function Head(rule: Rule): Decision {
    Decision(true, rule !in {SafeRuns, MediumNonProdRuns, MediumProdRuns}, ByRule(rule))
  }

  const DEFAULT_DENY := Decision(false, true, NoRuleMatched)

  function Firing(rules: seq<Rule>, i: Input): seq<Rule> {
    if rules == [] then []
    else (if Fires(rules[0], i) then [rules[0]] else []) + Firing(rules[1..], i)
  }

  /** The complete rule `result`: undefined bodies fall back to the default, and two
      bodies yielding different objects are an evaluation error. */
  function Eval(i: Input): Result<Decision, seq<Rule>> {
    var fired := Firing(ALL_RULES, i);
    if fired == [] then Ok(DEFAULT_DENY)
    else if forall k | 0 <= k < |fired| :: Head(fired[k]) == Head(fired[0]) then Ok(Head(fired[0]))
    else Err(fired)
  }

  lemma FiringOne(rules: seq<Rule>, i: Input, r: Rule)
    requires forall q: Rule :: Fires(q, i) ==> q == r
    ensures forall k | 0 <= k < |Firing(rules, i)| :: Firing(rules, i)[k] == r
    ensures Firing(rules, i) != [] <==> r in rules && Fires(r, i)
  {
    if rules != [] {
      FiringOne(rules[1..], i, r);
    }
  }

  /** What the documentation promises of the rule set as a whole: which requests run. */
  predicate MayRun(i: Input) {
    && i.flag
    && (|| (i.risk == Safe && i.tier != ReadOnly)
        || (i.risk == Medium && i.env == NonProd && (i.tier == NonProdAdmin || i.tier == ProdAdmin))
        || (i.risk == Medium && i.env == Prod && i.tier == ProdAdmin))
  }

  /** The rule whose body holds of an input, if any. */
  function TheRule(i: Input): Rule {
    if i.risk == High then HighNeedsApproval
    else if i.tier == ReadOnly then ReadOnlyDiagnoses
    else if i.risk == Safe then (if i.flag then SafeRuns else SafeFlagOff)
    else if i.env == NonProd then (if i.flag then MediumNonProdRuns else MediumNonProdFlagOff)
    else (if i.flag then MediumProdRuns else MediumProdFlagOff)
  }

  lemma OnlyOneFires(i: Input, q: Rule)
    ensures Fires(q, i) ==> q == TheRule(i)
  {
  }

  lemma AllListed(q: Rule)
    ensures q in ALL_RULES
  {
    var k := match q
      case HighNeedsApproval => 0
      case ReadOnlyDiagnoses => 1
      case SafeRuns => 2
      case SafeFlagOff => 3
      case MediumNonProdRuns => 4
      case MediumNonProdFlagOff => 5
      case MediumProdRuns => 6
      case MediumProdFlagOff => 7;
    assert ALL_RULES[k] == q;
  }

  lemma EvalIsTheRule(i: Input)
    ensures Eval(i) == Ok(if Fires(TheRule(i), i) then Head(TheRule(i)) else DEFAULT_DENY)
  {
    forall q: Rule
      ensures Fires(q, i) ==> q == TheRule(i)
    {
      OnlyOneFires(i, q);
    }
    FiringOne(ALL_RULES, i, TheRule(i));
    AllListed(TheRule(i));
  }

  /** The eight bodies never conflict, and a request runs for real exactly when
      MayRun says so; high and unlisted risks never do. */
  lemma RulesAgree(i: Input)
    ensures Eval(i).Ok?
    ensures var d := Eval(i).value; (d.allow && !d.dryRun) <==> MayRun(i)
    ensures Eval(i).value.allow <==> exists r :: r in ALL_RULES && Fires(r, i)
    ensures i.risk.High? || i.risk.OtherRisk? ==> Eval(i).value.dryRun
  {
    EvalIsTheRule(i);
    hide Eval;
    AllListed(TheRule(i));
    if r :| r in ALL_RULES && Fires(r, i) {
      OnlyOneFires(i, r);
    }
  }

  // ---- tiers

  type GroupMapping = map<string, Tier>

  /** tierRank: a tier missing from the table reads as rank 0, Go's zero value. */
  function TierRank(t: Tier): nat {
    match t
    case ReadOnly => 0
    case NonProdAdmin => 1
    case ProdAdmin => 2
    case OtherTier(_) => 0
  }

  /** The tier of the first group, among those of highest rank, that is mapped at all. */
  function Highest(m: GroupMapping, groups: seq<string>): Option<Tier> {
    if groups == [] then None
    else
      var rest := Highest(m, groups[..|groups| - 1]);
      var g := groups[|groups| - 1];
      if g !in m then rest
      else if rest.None? || TierRank(m[g]) > TierRank(rest.value) then Some(m[g])
      else rest
  }

  /** `HighestTier`: the loop keeps the best rank seen so far, starting at -1. */
  method HighestTier(m: GroupMapping, groups: seq<string>) returns (tier: Tier, ok: bool)
    ensures ok <==> exists g :: g in groups && g in m
    ensures ok ==> exists i ::
                     && 0 <= i < |groups| && groups[i] in m && m[groups[i]] == tier
                     && (forall j | 0 <= j < i :: groups[j] in m ==> TierRank(m[groups[j]]) < TierRank(tier))
                     && (forall j | i <= j < |groups| :: groups[j] in m ==> TierRank(m[groups[j]]) <= TierRank(tier))
    ensures Highest(m, groups) == if ok then Some(tier) else None
  {
    var best: int := -1;
    tier, ok := OtherTier(""), false;
    ghost var at := 0;
    for n := 0 to |groups|
      invariant best == if ok then TierRank(tier) else -1
      invariant !ok ==> forall j | 0 <= j < n :: groups[j] !in m
      invariant ok ==> 0 <= at < n && groups[at] in m && m[groups[at]] == tier
      invariant ok ==> forall j | 0 <= j < at :: groups[j] in m ==> TierRank(m[groups[j]]) < best
      invariant ok ==> forall j | at <= j < n :: groups[j] in m ==> TierRank(m[groups[j]]) <= best
      invariant Highest(m, groups[..n]) == if ok then Some(tier) else None
    {
      assert groups[..n + 1][..n] == groups[..n];
      if groups[n] in m {
        var t := m[groups[n]];
        if TierRank(t) > best {
          best := TierRank(t);
          tier := t;
          ok := true;
          at := n;
        }
      }
    }
    assert groups[..|groups|] == groups;
  }

  lemma {:induction false} HighestIsMaximal(m: GroupMapping, groups: seq<string>)
    ensures Highest(m, groups).None? <==> forall g | g in groups :: g !in m
    ensures Highest(m, groups).Some? ==> exists g :: g in groups && g in m && m[g] == Highest(m, groups).value
    ensures forall g | g in groups && g in m ::
              Highest(m, groups).Some? && TierRank(m[g]) <= TierRank(Highest(m, groups).value)
  {
    if groups != [] {
      var n := |groups| - 1;
      HighestIsMaximal(m, groups[..n]);
      assert groups == groups[..n] + [groups[n]];
      if Highest(m, groups) != Highest(m, groups[..n]) {
        assert groups[n] in groups && m[groups[n]] == Highest(m, groups).value;
      }
    }
  }

  // ---- the engine

  datatype Request = Request(groups: seq<string>, env: Env, risk: Risk, flag: bool)

  /** `Engine.Decide`: no mapped group is a denial, anything else goes to the rules. */
  function Decide(m: GroupMapping, r: Request): Result<Decision, seq<Rule>> {
    match Highest(m, r.groups)
    case None => Ok(Decision(false, true, NoMappedGroup))
    case Some(t) => Eval(Input(t, r.env, r.risk, r.flag))
  }

  /** The branch in which a handler goes on to execute. */
  predicate Executes(m: GroupMapping, r: Request) {
    Decide(m, r).Ok? && Decide(m, r).value.allow && !Decide(m, r).value.dryRun
  }

  lemma ExecutesExactly(m: GroupMapping, r: Request)
    ensures Decide(m, r).Ok?
    ensures Executes(m, r) <==>
            Highest(m, r.groups).Some? && MayRun(Input(Highest(m, r.groups).value, r.env, r.risk, r.flag))
  {
    if Highest(m, r.groups).Some? {
      RulesAgree(Input(Highest(m, r.groups).value, r.env, r.risk, r.flag));
    }
  }

  /** Every decision there is, by the caller's tier, the risk, the environment and the flag. What
      is refused is proposed to no one, and all that is not run for real is a dry run. */
  lemma DecisionTable(m: GroupMapping, r: Request)
    ensures (forall g | g in r.groups :: g !in m) ==> Decide(m, r) == Ok(Decision(false, true, NoMappedGroup))
    ensures Highest(m, r.groups).Some? ==>
              var t := Highest(m, r.groups).value;
              Decide(m, r) == Ok(
                if r.risk == High then Decision(true, true, ByRule(HighNeedsApproval))
                else if t == ReadOnly then Decision(true, true, ByRule(ReadOnlyDiagnoses))
                else if r.risk == Safe then Decision(true, !r.flag, ByRule(if r.flag then SafeRuns else SafeFlagOff))
                else if r.risk == Medium && r.env == NonProd && t in {NonProdAdmin, ProdAdmin} then
                  Decision(true, !r.flag, ByRule(if r.flag then MediumNonProdRuns else MediumNonProdFlagOff))
                else if r.risk == Medium && r.env == Prod && t == ProdAdmin then
                  Decision(true, !r.flag, ByRule(if r.flag then MediumProdRuns else MediumProdFlagOff))
                else Decision(false, true, NoRuleMatched))
  {
    hide Highest, Eval;
    HighestIsMaximal(m, r.groups);
    if Highest(m, r.groups).Some? {
      EvalIsTheRule(Input(Highest(m, r.groups).value, r.env, r.risk, r.flag));
    }
  }

  predicate KnownRisk(r: Risk) { !r.OtherRisk? }

  function RiskRank(r: Risk): nat
    requires KnownRisk(r)
  {
    match r
    case Safe => 0
    case Medium => 1
    case High => 2
  }

  /** Permission to run is antitone in the risk: what may run at a risk may run at any lower one. */
  lemma ExecutionAntitoneInRisk(m: GroupMapping, r: Request, lower: Risk)
    requires KnownRisk(r.risk) && KnownRisk(lower) && RiskRank(lower) <= RiskRank(r.risk)
    requires Executes(m, r)
    ensures Executes(m, r.(risk := lower))
  {
    hide Decide, Highest;
    ExecutesExactly(m, r);
    ExecutesExactly(m, r.(risk := lower));
  }

  lemma UnlistedRiskNeverExecutes(m: GroupMapping, r: Request)
    requires r.risk.High? || r.risk.OtherRisk?
    ensures !Executes(m, r)
  {
    hide Decide, Highest;
    ExecutesExactly(m, r);
  }

  /** Joining more groups never costs a caller a permission. */
  ghost predicate MoreGroupsNeverHurt(m: GroupMapping) {
    forall r: Request, wider: seq<string> ::
      Executes(m, r) && (forall g | g in r.groups :: g in wider) ==> Executes(m, r.(groups := wider))
  }

  /** A mapping holding both an undeclared tier and "readonly". */
  predicate MixesUndeclaredWithReadOnly(m: GroupMapping) {
    (exists g | g in m :: m[g].OtherTier?) && (exists g | g in m :: m[g].ReadOnly?)
  }

  lemma HigherTierMayRun(i: Input, higher: Tier)
    requires MayRun(i) && TierRank(i.tier) <= TierRank(higher) && !(i.tier.OtherTier? && higher.ReadOnly?)
    ensures MayRun(i.(tier := higher))
  {
  }

  lemma WiderGroupsKeepPermission(m: GroupMapping, r: Request, wider: seq<string>)
    requires !MixesUndeclaredWithReadOnly(m)
    requires Executes(m, r) && forall g | g in r.groups :: g in wider
    ensures Executes(m, r.(groups := wider))
  {
    ExecutesExactly(m, r);
    ExecutesExactly(m, r.(groups := wider));
    hide Executes, Decide, Highest, MayRun;
    HighestIsMaximal(m, r.groups);
    HighestIsMaximal(m, wider);
    var g :| g in r.groups && g in m && m[g] == Highest(m, r.groups).value;
    assert g in wider;
    var h :| h in wider && h in m && m[h] == Highest(m, wider).value;
    HigherTierMayRun(Input(m[g], r.env, r.risk, r.flag), m[h]);
  }

  lemma OrderDecidesTies(m: GroupMapping, u: string, o: string)
    requires u in m && m[u].OtherTier? && o in m && m[o].ReadOnly?
    ensures Highest(m, [u]) == Some(m[u]) && Highest(m, [o, u]) == Some(m[o])
  {
    assert [u][..0] == [] && [o, u][..1] == [o] && [o][..0] == [];
    assert Highest(m, [o]) == Some(m[o]);
  }

  /** An undeclared tier ranks with "readonly" but, unlike it, may run safe actions: a
      mapping is monotone in the caller's groups exactly when it does not hold both. */
  lemma MonotoneInGroupsIff(m: GroupMapping)
    ensures MoreGroupsNeverHurt(m) <==> !MixesUndeclaredWithReadOnly(m)
  {
    hide Decide, Highest;
    if MixesUndeclaredWithReadOnly(m) {
      var u :| u in m && m[u].OtherTier?;
      var o :| o in m && m[o].ReadOnly?;
      var r, wider := Request([u], Prod, Safe, true), [o, u];
      OrderDecidesTies(m, u, o);
      ExecutesExactly(m, r);
      ExecutesExactly(m, r.(groups := wider));
      assert Executes(m, r) && !Executes(m, r.(groups := wider));
      assert forall g | g in r.groups :: g in wider;
    } else {
      forall r: Request, wider: seq<string> | Executes(m, r) && (forall g | g in r.groups :: g in wider)
        ensures Executes(m, r.(groups := wider))
      {
        WiderGroupsKeepPermission(m, r, wider);
      }
    }
  }
}
