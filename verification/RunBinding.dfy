/** What the first sampling of a run fixes for all later ones. */
module RunBinding {
  import opened Json
  import opened Wrappers
  import Agent = AgentReducer

  datatype ModelBinding = ModelBinding(identity: string, configuration: string)

  datatype RateCard = RateCard(currency: string, prices: string)

  datatype CostCap = CostCap(currency: string, limit: nat)

  datatype Resume = Resume(parent: string, protocol: string)

  datatype RemoteRoute = RemoteRoute(
    localRunId: string,
    threadId: string,
    botId: string,
    endpoint: string,
    protocolRunId: string,
    parent: Option<string>,
    resume: Option<Resume>)

  datatype Route = Remote(remote: RemoteRoute) | CustomModel(binding: ModelBinding) | Local

  datatype Request = Request(route: Route, maxOutput: Option<nat>, rateCard: Option<RateCard>, costCap: Option<CostCap>)

  datatype Lease = Lease(runId: string, threadId: string, botId: string, owns: ModelBinding -> bool)

  /** Each outer option is `None` until the first sampling. */
  datatype Bindings = Bindings(
    custom: Option<Option<ModelBinding>>,
    endpoint: Option<string>,
    ceiling: Option<Option<nat>>,
    rateCard: Option<Option<RateCard>>,
    costCap: Option<Option<CostCap>>,
    protocolRunId: string,
    resume: Option<Resume>)

  datatype Refusal = Refusal(failure: Agent.Failure)

  const SAMPLINGS: nat := Agent.TOOL_STEP_CAP + 1

  function Unbound(lease: Lease): Bindings {
    Bindings(None, None, None, None, None, lease.runId, None)
  }

  function Invalid(): Refusal {
    Refusal(Agent.ProviderInvalidResponse)
  }

  // ---------------------------------------------------------------------------------------------
  // One request
  // ---------------------------------------------------------------------------------------------

  function CustomOf(q: Request): Option<ModelBinding> {
    if q.route.CustomModel? then Some(q.route.binding) else None
  }

  function BindCustom(lease: Lease, b: Bindings, q: Request): Result<Bindings, Refusal> {
    var current := CustomOf(q);
    if current.Some? && (!lease.owns(current.value) || q.rateCard.Some?) then Err(Invalid())
    else if b.custom.Some? && b.custom.value != current then Err(Invalid())
    else Ok(b.(custom := Some(current)))
  }

  /** A pending resume turns the loaded route into the next link of the remote run's lineage. */
  function FreshResume(lease: Lease, b: Bindings, q: Request): Result<(Bindings, Request), Refusal> {
    if b.resume.None? then Ok((b, q))
    else if !q.route.Remote? || q.route.remote.localRunId != lease.runId then Err(Invalid())
    else
      var r, resume := q.route.remote, b.resume.value;
      if || r.protocolRunId != r.localRunId || r.parent.Some? || r.resume.Some?
         || b.protocolRunId == "" || HasNul(b.protocolRunId) || resume.parent != b.protocolRunId
      then Err(Invalid())
      else
        var linked := r.(parent := Some(b.protocolRunId), protocolRunId := resume.protocol, resume := Some(resume));
        Ok((b.(protocolRunId := resume.protocol, resume := None), q.(route := Remote(linked))))
  }

  function BindRoute(lease: Lease, b: Bindings, q: Request): Result<Bindings, Refusal> {
    if q.route.Remote? then
      var r := q.route.remote;
      if r.localRunId != lease.runId || r.threadId != lease.threadId || r.botId != lease.botId then Err(Invalid())
      else if b.endpoint.None? then Ok(b.(endpoint := Some(r.endpoint)))
      else if b.endpoint.value == r.endpoint then Ok(b)
      else Err(Invalid())
    else if b.endpoint.Some? then Err(Invalid())
    else Ok(b)
  }

  function CheckCost(q: Request): Result<(), Refusal> {
    if q.costCap.None? then Ok(())
    else if q.rateCard.None? then Err(Refusal(Agent.RunCostBudgetUnpriced))
    else if q.rateCard.value.currency != q.costCap.value.currency then Err(Refusal(Agent.RunCostBudgetCurrencyMismatch))
    else Ok(())
  }

  function Ceiling(q: Request): Option<nat> {
    if q.maxOutput.Some? then Some(q.maxOutput.value * SAMPLINGS) else None
  }

  function Freeze(b: Bindings, q: Request): Result<Bindings, Refusal> {
    if b.ceiling.Some? && b.ceiling.value != Ceiling(q) then Err(Invalid())
    else if b.rateCard.Some? && b.rateCard.value != q.rateCard then Err(Invalid())
    else if b.costCap.Some? && b.costCap.value != q.costCap then Err(Invalid())
    else Ok(b.(ceiling := Some(Ceiling(q)), rateCard := Some(q.rateCard), costCap := Some(q.costCap)))
  }

  /** The model, the lineage and the endpoint of a loaded request. */
  function BindWay(lease: Lease, b: Bindings, q: Request): Result<(Bindings, Request), Refusal> {
    var custom :- BindCustom(lease, b, q);
    var linked :- FreshResume(lease, custom, q);
    var routed :- BindRoute(lease, linked.0, linked.1);
    Ok((routed, linked.1))
  }

  /** A loaded request, and the bindings after it; or why the run fails here. */
  function Bind(lease: Lease, b: Bindings, q: Request): Result<(Bindings, Request), Refusal> {
    var way :- BindWay(lease, b, q);
    var _ :- CheckCost(way.1);
    var frozen :- Freeze(way.0, way.1);
    Ok((frozen, way.1))
  }

  // ---------------------------------------------------------------------------------------------
  // What the bindings promise about the requests that went through
  // ---------------------------------------------------------------------------------------------

  /** A sampling that started, and the resume it consumed, if any. */
  datatype Start = Start(request: Request, resumed: Option<Resume>)

  /** The remote run id after the resumes of these samplings. */
  function Lineage(runId: string, starts: seq<Start>): string {
    if starts == [] then runId
    else
      var last := starts[|starts| - 1];
      if last.resumed.Some? then last.resumed.value.protocol else Lineage(runId, starts[..|starts| - 1])
  }

  /** The second sampling contradicts the first in nothing that is bound. */
  ghost predicate Agrees(first: Request, second: Request) {
    && first.maxOutput == second.maxOutput && first.rateCard == second.rateCard && first.costCap == second.costCap
    && CustomOf(first) == CustomOf(second)
    && (first.route.Remote? ==> second.route.Remote? && second.route.remote.endpoint == first.route.remote.endpoint)
  }

  ghost predicate Priced(q: Request) {
    && (q.costCap.Some? ==> q.rateCard.Some? && q.rateCard.value.currency == q.costCap.value.currency)
    && (q.route.CustomModel? ==> q.rateCard.None?)
  }

  /** A resumed sampling names as its parent the remote run it continues. */
  ghost predicate Linked(runId: string, before: seq<Start>, s: Start) {
    s.resumed.Some? ==>
      && s.request.route.Remote?
      && var r := s.request.route.remote;
         && r.resume == s.resumed && r.protocolRunId == s.resumed.value.protocol
         && r.parent == Some(s.resumed.value.parent) == Some(Lineage(runId, before))
  }

  ghost predicate Coherent(runId: string, starts: seq<Start>) {
    && (forall i, j :: 0 <= i < j < |starts| ==> Agrees(starts[i].request, starts[j].request))
    && (forall i :: 0 <= i < |starts| ==> Priced(starts[i].request) && Linked(runId, starts[..i], starts[i]))
  }

  /** The bindings are what the samplings so far have fixed. */
  ghost predicate Reflects(lease: Lease, b: Bindings, starts: seq<Start>) {
    && b.protocolRunId == Lineage(lease.runId, starts)
    && (b.custom.Some? <==> starts != []) && (b.ceiling.Some? <==> starts != [])
    && (b.rateCard.Some? <==> starts != []) && (b.costCap.Some? <==> starts != [])
    && (b.endpoint.Some? ==> exists i :: 0 <= i < |starts| && starts[i].request.route.Remote?)
    && forall i :: 0 <= i < |starts| ==> Fixes(b, starts[i].request)
  }

  ghost predicate Fixes(b: Bindings, q: Request) {
    && b.custom == Some(CustomOf(q)) && b.ceiling == Some(Ceiling(q))
    && b.rateCard == Some(q.rateCard) && b.costCap == Some(q.costCap)
    && (q.route.Remote? ==> b.endpoint == Some(q.route.remote.endpoint))
  }

  lemma {:induction false} SameCeiling(a: Request, b: Request)
    requires Ceiling(a) == Ceiling(b)
    ensures a.maxOutput == b.maxOutput
  {
  }

  /** What one request fixes, and what was fixed stays so. */
  lemma {:induction false} BindFixes(lease: Lease, b: Bindings, q: Request, first: Request)
    requires Bind(lease, b, q).Ok?
    ensures var (after, out) := Bind(lease, b, q).value;
            && Fixes(after, out) && Priced(out) && after.resume.None?
            && (Fixes(b, first) ==> Fixes(after, first) && Agrees(first, out))
  {
    var (_, out) := Bind(lease, b, q).value;
    if Fixes(b, first) {
      SameCeiling(first, out);
    }
  }

  lemma {:induction false} BindLinks(lease: Lease, b: Bindings, q: Request)
    requires Bind(lease, b, q).Ok?
    ensures var (after, out) := Bind(lease, b, q).value;
            if b.resume.None? then out == q && after.protocolRunId == b.protocolRunId
            else
              && out.route.Remote? && after.protocolRunId == b.resume.value.protocol
              && var r := out.route.remote;
                 && r.resume == b.resume && r.protocolRunId == b.resume.value.protocol
                 && r.parent == Some(b.resume.value.parent) == Some(b.protocolRunId)
  {
  }

  /**
   * A request that goes through contradicts none before it: the same output cap, rate card, cost cap
   * and custom model (or its absence), the same remote endpoint once there is one, and the next link
   * of the lineage if it resumes.
   */
  lemma {:induction false} BindCoherent(lease: Lease, b: Bindings, starts: seq<Start>, q: Request)
    requires Reflects(lease, b, starts) && Coherent(lease.runId, starts) && Bind(lease, b, q).Ok?
    ensures var (after, out) := Bind(lease, b, q).value;
            var all := starts + [Start(out, b.resume)];
            Coherent(lease.runId, all) && Reflects(lease, after, all)
  {
    var (after, out) := Bind(lease, b, q).value;
    var all := starts + [Start(out, b.resume)];
    assert all[..|starts|] == starts;
    BindLinks(lease, b, q);
    BindFixes(lease, b, q, out);
    forall i | 0 <= i < |starts| ensures Fixes(after, starts[i].request) && Agrees(starts[i].request, out) {
      BindFixes(lease, b, q, starts[i].request);
    }
    if after.endpoint.Some? {
      BindEndpoints(lease, b, q);
      if b.endpoint.Some? {
        var i :| 0 <= i < |starts| && starts[i].request.route.Remote?;
        assert all[i] == starts[i];
      } else {
        assert all[|starts|].request.route.Remote?;
      }
    }
    forall i | 0 <= i < |all| ensures Priced(all[i].request) && Linked(lease.runId, all[..i], all[i]) {
      if i < |starts| {
        assert all[..i] == starts[..i];
      }
    }
  }

  lemma {:induction false} BindEndpoints(lease: Lease, b: Bindings, q: Request)
    requires Bind(lease, b, q).Ok?
    ensures var (after, out) := Bind(lease, b, q).value;
            after.endpoint.Some? ==> b.endpoint.Some? || out.route.Remote?
  {
  }

  /** The request belongs to this run: its model is the owner's and is not priced, its remote route is this run's. */
  ghost predicate Belongs(lease: Lease, q: Request) {
    && (q.route.CustomModel? ==> lease.owns(q.route.binding) && q.rateCard.None?)
    && (q.route.Remote? ==>
          var r := q.route.remote;
          r.localRunId == lease.runId && r.threadId == lease.threadId && r.botId == lease.botId)
  }

  /** A pending resume continues the remote run the run is at, on a route that says nothing of its own about the lineage. */
  ghost predicate Continues(q: Request, current: string, pending: Option<Resume>) {
    pending.Some? ==>
      && q.route.Remote? && pending.value.parent == current && current != "" && !HasNul(current)
      && var r := q.route.remote;
         r.protocolRunId == r.localRunId && r.parent.None? && r.resume.None?
  }

  /** It goes the same way as an earlier sampling: to the same custom model or to none, and to the same remote endpoint. */
  ghost predicate SameWay(first: Request, q: Request) {
    && CustomOf(first) == CustomOf(q)
    && (first.route.Remote? ==> q.route.Remote? && q.route.remote.endpoint == first.route.remote.endpoint)
  }

  ghost predicate SameBudget(first: Request, q: Request) {
    first.maxOutput == q.maxOutput && first.rateCard == q.rateCard && first.costCap == q.costCap
  }

  ghost predicate SameWayAsAll(starts: seq<Start>, q: Request) {
    forall i :: 0 <= i < |starts| ==> SameWay(starts[i].request, q)
  }

  ghost predicate SameBudgetAsAll(starts: seq<Start>, q: Request) {
    forall i :: 0 <= i < |starts| ==> SameBudget(starts[i].request, q)
  }

  /** Why a loaded request fails: in this order, its way, its price, its budget. */
  ghost predicate Refuses(lease: Lease, b: Bindings, starts: seq<Start>, q: Request, e: Refusal) {
    if !(Belongs(lease, q) && Continues(q, b.protocolRunId, b.resume) && SameWayAsAll(starts, q)) then e == Invalid()
    else if q.costCap.Some? && q.rateCard.None? then e == Refusal(Agent.RunCostBudgetUnpriced)
    else if q.costCap.Some? && q.rateCard.value.currency != q.costCap.value.currency
    then e == Refusal(Agent.RunCostBudgetCurrencyMismatch)
    else !SameBudgetAsAll(starts, q) && e == Invalid()
  }

  /** The steps that fix the way of a request let it through exactly if it goes the way of all samplings before it. */
  lemma {:induction false} WayExactly(lease: Lease, b: Bindings, starts: seq<Start>, q: Request)
    requires Reflects(lease, b, starts)
    ensures BindWay(lease, b, q).Ok?
       <==> Belongs(lease, q) && Continues(q, b.protocolRunId, b.resume) && SameWayAsAll(starts, q)
    ensures BindWay(lease, b, q).Err? ==> BindWay(lease, b, q).error == Invalid()
    ensures BindWay(lease, b, q).Ok? ==> BindWay(lease, b, q).value.1.(route := q.route) == q
  {
    if b.custom.Some? {
      assert Fixes(b, starts[0].request);
    }
    if b.endpoint.Some? {
      var i :| 0 <= i < |starts| && starts[i].request.route.Remote?;
      assert Fixes(b, starts[i].request);
    }
    forall i | 0 <= i < |starts| ensures Fixes(b, starts[i].request) {
    }
  }

  lemma {:induction false} BudgetExactly(lease: Lease, b: Bindings, starts: seq<Start>, q: Request)
    requires Reflects(lease, b, starts)
    ensures Freeze(b, q).Ok? <==> SameBudgetAsAll(starts, q)
  {
    forall i | 0 <= i < |starts|
      ensures SameBudget(starts[i].request, q) <==> Freeze(b, q).Ok?
    {
      assert Fixes(b, starts[i].request);
      if Ceiling(starts[i].request) == Ceiling(q) {
        SameCeiling(starts[i].request, q);
      }
    }
  }

  /**
   * A request goes through exactly if it belongs to this run, continues what it resumes, is priced where
   * cost is capped, and contradicts none of the samplings before it; otherwise the refusal says why.
   */
  lemma {:induction false} BindExactly(lease: Lease, b: Bindings, starts: seq<Start>, q: Request)
    requires Reflects(lease, b, starts)
    ensures Bind(lease, b, q).Ok?
       <==> && Belongs(lease, q) && Continues(q, b.protocolRunId, b.resume) && Priced(q)
            && SameWayAsAll(starts, q) && SameBudgetAsAll(starts, q)
    ensures Bind(lease, b, q).Err? ==> Refuses(lease, b, starts, q, Bind(lease, b, q).error)
  {
    WayExactly(lease, b, starts, q);
    BudgetExactly(lease, b, starts, q);
  }

  lemma {:induction false} UnboundReflects(lease: Lease)
    ensures Reflects(lease, Unbound(lease), []) && Coherent(lease.runId, [])
  {
  }

  // ---------------------------------------------------------------------------------------------
  // The variables of the run loop
  // ---------------------------------------------------------------------------------------------

  class RunBindings {
    const lease: Lease
    var boundCustomModel: Option<Option<ModelBinding>>
    var boundRemoteEndpoint: Option<string>
    var runOutputCeiling: Option<Option<nat>>
    var runRateCard: Option<Option<RateCard>>
    var runCostCap: Option<Option<CostCap>>
    var currentProtocolRunId: string
    var pendingRemoteResume: Option<Resume>

    ghost function B(): Bindings
      reads this
    {
      Bindings(boundCustomModel, boundRemoteEndpoint, runOutputCeiling, runRateCard, runCostCap,
               currentProtocolRunId, pendingRemoteResume)
    }

    constructor (lease: Lease)
      ensures this.lease == lease && B() == Unbound(lease)
    {
      this.lease := lease;
      boundCustomModel, boundRemoteEndpoint, runOutputCeiling, runRateCard, runCostCap := None, None, None, None, None;
      currentProtocolRunId, pendingRemoteResume := lease.runId, None;
    }

    method BindCustomModel(q: Request) returns (bound: bool)
      modifies this
      ensures BindCustom(lease, old(B()), q) == if bound then Ok(B()) else Err(Invalid())
      ensures !bound ==> B() == old(B())
    {
      var current := CustomOf(q);
      if current.Some? && !lease.owns(current.value) {
        return false;
      }
      if current.Some? && q.rateCard.Some? {
        return false;
      }
      if boundCustomModel.Some? && boundCustomModel.value != current {
        return false;
      }
      if boundCustomModel.None? {
        boundCustomModel := Some(current);
      }
      return true;
    }

    method ApplyResume(q: Request) returns (r: Result<Request, Refusal>)
      modifies this
      ensures match FreshResume(lease, old(B()), q)
              case Ok((b, out)) => r == Ok(out) && B() == b
              case Err(e) => r == Err(e)
    {
      if pendingRemoteResume.None? {
        return Ok(q);
      }
      var resume := pendingRemoteResume.value;
      pendingRemoteResume := None;
      if !q.route.Remote? || q.route.remote.localRunId != lease.runId {
        return Err(Invalid());
      }
      var route := q.route.remote;
      if route.protocolRunId != route.localRunId || route.parent.Some? || route.resume.Some? {
        return Err(Invalid());
      }
      if currentProtocolRunId == "" || HasNul(currentProtocolRunId) || resume.parent != currentProtocolRunId {
        return Err(Invalid());
      }
      route := route.(parent := Some(currentProtocolRunId), protocolRunId := resume.protocol, resume := Some(resume));
      currentProtocolRunId := resume.protocol;
      return Ok(q.(route := Remote(route)));
    }

    method BindEndpoint(q: Request) returns (r: Result<(), Refusal>)
      modifies this
      ensures BindRoute(lease, old(B()), q) == if r.Ok? then Ok(B()) else Err(r.error)
    {
      if q.route.Remote? {
        var route := q.route.remote;
        if route.localRunId != lease.runId || route.threadId != lease.threadId || route.botId != lease.botId {
          return Err(Invalid());
        }
        if boundRemoteEndpoint.None? {
          boundRemoteEndpoint := Some(route.endpoint);
        } else if boundRemoteEndpoint.value != route.endpoint {
          return Err(Invalid());
        }
      } else if boundRemoteEndpoint.Some? {
        return Err(Invalid());
      }
      return Ok(());
    }

    method FreezeBudget(q: Request) returns (r: Result<(), Refusal>)
      modifies this
      ensures Freeze(old(B()), q) == if r.Ok? then Ok(B()) else Err(r.error)
    {
      var ceiling := if q.maxOutput.Some? then Some(q.maxOutput.value * (Agent.TOOL_STEP_CAP + 1)) else None;
      if runOutputCeiling.None? {
        runOutputCeiling := Some(ceiling);
      } else if runOutputCeiling.value != ceiling {
        return Err(Invalid());
      }
      if runRateCard.None? {
        runRateCard := Some(q.rateCard);
      } else if runRateCard.value != q.rateCard {
        return Err(Invalid());
      }
      if runCostCap.None? {
        runCostCap := Some(q.costCap);
      } else if runCostCap.value != q.costCap {
        return Err(Invalid());
      }
      return Ok(());
    }

    /** Everything that happens to a loaded request before the provider sees it. */
    method Admit(q: Request) returns (r: Result<Request, Refusal>)
      modifies this
      ensures match Bind(lease, old(B()), q)
              case Ok((b, out)) => r == Ok(out) && B() == b
              case Err(e) => r == Err(e)
    {
      var bound := BindCustomModel(q);
      if !bound {
        return Err(Invalid());
      }
      var request :- ApplyResume(q);
      var _ :- BindEndpoint(request);
      var _ :- CheckCost(request);
      var _ :- FreezeBudget(request);
      return Ok(request);
    }
  }
}
