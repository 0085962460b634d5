/** Policy coherence and evidence freshness. */
module Policy {
  import opened Basics
  import opened Text

  datatype Dimension =
    | Head | Base | Master | PrState | ReviewsThreads | PolicyDim | Pin | Environment
    | AuthorityDim | RepositoryDim

  datatype Gate =
    | Qualification | Ci | Effects | Reviews | Ancestry | SourceIntegrity | Authorization | RepositoryIdentity
    | MasterIntegrity | PrStateGate | OtherGate(name: string)

  datatype Contract = Contract(schema: string, repository: string, sourceCommit: string, reference: string,
        routing: string)
  datatype Capability = Capability(production: bool, deploy: bool, migrate: bool)
  datatype Identity = Identity(
    owner: string, repository: string, pr: int, branch: string, workstream: string, workstreamClass: string,
    bindingBasis: string, checkpointBasis: string, checkpointId: string, authority: Capability, consent: string)
  datatype Checkpoint = Checkpoint(id: Identity, state: string, effectPolicy: string, observedEffects: string)
  datatype Row = Row(commit: string, parents: seq<string>, checkpoint: Digest)
  datatype Change = Change(path: string, effect: string)
  datatype Delta = Delta(base: string, head: string, complete: bool, changes: seq<Change>)
  datatype Evidence = Evidence(
    id: string, gate: Gate, dependencies: seq<Dimension>, coordinates: map<Dimension, Coordinate>, result: string)

  /** A dependency coordinate: a name, or a digest. */
  datatype Coordinate = Named(name: string) | Hashed(digest: Digest)

  datatype AncestryProof = AncestryProof(basisToHead: bool, checkpointBasisToHead: bool, baseToHead: bool,
        baseToMaster: bool)

  datatype Observations = Observations(
    checkpoint: Checkpoint, original: Checkpoint, repository: string, branch: string, head: string, base: string,
    master: string, expectedBase: string, expectedMaster: string, pr: int, prState: string, viewer: string, clean: bool,
    binding: Identity, history: seq<Row>, historyComplete: bool, ancestry: AncestryProof, delta: Delta,
    events: seq<string>, eventsComplete: bool, observedAt: Option<int>, dimensions: map<Dimension, Coordinate>,
    evidence: seq<Evidence>)

  datatype PlanBody = PlanBody(
    schema: string, diagnostic: string, operation: string, reason: string, original: Checkpoint, corrected: Checkpoint,
    parentHead: string, base: string, master: string, contractDigest: Digest, observationsDigest: Digest,
    contract: Contract, deltaDigest: Digest, historyDigest: Digest, eventsDigest: Digest, evidenceDigest: Digest,
    dimensions: map<Dimension, Coordinate>, newCapabilities: seq<string>, commitRequired: bool, qualified: bool)

  datatype Subject = Marker(digest: Digest) | Line(text: string)

  datatype Plan = Plan(body: PlanBody, digest: Digest, subject: Subject)

  datatype Compensation = Compensation(
    head: string, parents: seq<string>, subject: Subject, before: Checkpoint, after: Checkpoint,
    changedFields: seq<string>, otherChanges: seq<string>, historyDigest: Digest, eventsDigest: Digest,
    fullEffects: string, observedAt: Option<int>)

  /** An ideal digest: it determines what was digested. */
  datatype Digest =
    | OfContract(contract: Contract) | OfCheckpoint(checkpoint: Checkpoint) | OfObservations(observations: Observations)
    | OfDelta(delta: Delta) | OfHistory(history: seq<Row>) | OfEvents(events: seq<string>)
    | OfEvidence(evidence: seq<Evidence>) | OfAuthority(authority: Capability, consent: string)
    | OfBody(body: PlanBody) | OfPlan(plan: Plan) | OfCompensation(compensation: Compensation) | Foreign(text: string)

  // ------------------------------------------------ routing

  /** The class and the policies an adopted route admits; `single` when it derives exactly one policy. */
  datatype Route = Route(workstreamClass: string, policies: seq<string>, single: bool)

  function RouteOf(routing: string): Option<Route> {
    if routing == "PRODUCT/v2" then Some(Route("PRODUCT", ["REPOSITORY_POLICY"], true))
    else if routing == "PRODUCT/v1" then Some(Route("PRODUCT", ["NO_PRODUCTION", "REPOSITORY_POLICY"], false))
    else if routing == "PROTOCOL/v1" then Some(Route("PROTOCOL", ["NO_PRODUCTION"], true))
    else None
  }

  predicate ContractOk(c: Contract, trusted: Digest) {
    && trusted == OfContract(c) && c.schema == "agent-policy-contract/v1" && RouteOf(c.routing).Some?
    && c.repository != "" && c.reference != "" && IsSha(c.sourceCommit)
  }

  datatype Incompatibility = RoutingMismatch | UnknownEffects | ProductionEffectsBlocked

  datatype Decision = Decision(route: Route, incompatibilities: set<Incompatibility>)

  function ResolvePolicy(c: Contract, trusted: Digest, workstream: string, workstreamClass: string,
                         selected: string, effects: string): Option<Decision>
  {
    if !ContractOk(c, trusted) || workstream == "" || selected !in {"NO_PRODUCTION", "REPOSITORY_POLICY"}
       || effects !in {"NO_PRODUCTION", "PRODUCTION", "UNKNOWN"}
    then None
    else
      var route := RouteOf(c.routing).value;
      Some(Decision(route,
        (if workstreamClass != route.workstreamClass || selected !in route.policies then {RoutingMismatch} else {})
        + (if effects == "UNKNOWN" then {UnknownEffects} else {})
        + (if selected == "NO_PRODUCTION" && effects == "PRODUCTION" then {ProductionEffectsBlocked} else {})))
  }

  predicate Coherent(d: Option<Decision>) { d.Some? && d.value.incompatibilities == {} }

  // ------------------------------------------------ evidence

  const ALL_DIMENSIONS: set<Dimension> :=
    {Head, Base, Master, PrState, ReviewsThreads, PolicyDim, Pin, Environment, AuthorityDim, RepositoryDim}

  function Minimum(g: Gate): Option<set<Dimension>> {
    match g
    case Qualification => Some(ALL_DIMENSIONS)
    case Ci => Some({Head, Base, Environment, RepositoryDim})
    case Effects => Some({Head, Base, PolicyDim, RepositoryDim})
    case Reviews => Some({Head, PrState, ReviewsThreads, PolicyDim, RepositoryDim})
    case Ancestry => Some({Head, Base, Master, RepositoryDim})
    case SourceIntegrity => Some({Pin, RepositoryDim})
    case Authorization => Some({AuthorityDim, RepositoryDim})
    case RepositoryIdentity => Some({RepositoryDim})
    case MasterIntegrity => Some({Master, RepositoryDim})
    case PrStateGate => Some({PrState, RepositoryDim})
    case OtherGate(_) => None
  }

  predicate NotBlank(s: string) { exists c | c in s :: !IsSpace(c) }

  predicate Known(c: Coordinate) {
    c.Hashed? || (NotBlank(c.name) && c.name !in {"UNKNOWN", "UNBOUND", "UNASSIGNED", "UNAVAILABLE"})
  }

  predicate EvidenceOk(e: Evidence) {
    && Minimum(e.gate).Some?
    && (forall i, j | 0 <= i < j < |e.dependencies| :: e.dependencies[i] != e.dependencies[j])
    && Minimum(e.gate).value <= (set d | d in e.dependencies)
    && e.coordinates.Keys == set d | d in e.dependencies
  }

  predicate InventoryOk(rows: seq<Evidence>) {
    && (forall i | 0 <= i < |rows| :: EvidenceOk(rows[i]))
    && forall i, j | 0 <= i < j < |rows| :: rows[i].id != rows[j].id
  }

  datatype Verdict = Verdict(id: string, result: string, reusable: bool, invalidators: set<Dimension>)

  predicate Invalidates(e: Evidence, current: map<Dimension, Coordinate>, d: Dimension)
    requires d in e.coordinates && d in current
  {
    !Known(current[d]) || !Known(e.coordinates[d]) || e.coordinates[d] != current[d]
  }

  function VerdictOf(e: Evidence, current: map<Dimension, Coordinate>): Verdict
    requires EvidenceOk(e) && current.Keys == ALL_DIMENSIONS
  {
    EveryDimension();
    var changed := set d | d in e.dependencies && Invalidates(e, current, d);
    Verdict(e.id, e.result, changed == {}, changed)
  }

  lemma EveryDimension()
    ensures forall d: Dimension :: d in ALL_DIMENSIONS
  {
    forall d: Dimension ensures d in ALL_DIMENSIONS {
      match d
      case Head => case Base => case Master => case PrState => case ReviewsThreads =>
      case PolicyDim => case Pin => case Environment => case AuthorityDim => case RepositoryDim =>
    }
  }

  /** Every original result in order, each with its reuse verdict; None when the inventory is malformed. */
  function Freshness(rows: seq<Evidence>, current: map<Dimension, Coordinate>): (r: Option<seq<Verdict>>)
    ensures r.Some? <==> current.Keys == ALL_DIMENSIONS && InventoryOk(rows)
    ensures r.Some? ==> |r.value| == |rows| && forall i | 0 <= i < |rows| :: r.value[i] == VerdictOf(rows[i], current)
  {
    if current.Keys != ALL_DIMENSIONS || !InventoryOk(rows) then None
    else Some(seq(|rows|, i requires 0 <= i < |rows| => VerdictOf(rows[i], current)))
  }

  method EvidenceFreshness(rows: seq<Evidence>, current: map<Dimension, Coordinate>) returns (r: Option<seq<Verdict>>)
    ensures r == Freshness(rows, current)
  {
    hide EvidenceOk, VerdictOf;
    if current.Keys != ALL_DIMENSIONS { return None; }
    var results: seq<Verdict> := [];
    var seen: set<string> := {};
    for i := 0 to |rows|
      invariant seen == set k | 0 <= k < i :: rows[k].id
      invariant forall k, l | 0 <= k < l < i :: rows[k].id != rows[l].id
      invariant |results| == i
      invariant forall k | 0 <= k < i :: EvidenceOk(rows[k]) && results[k] == VerdictOf(rows[k], current)
    {
      var row := rows[i];
      if row.id in seen {
        var k :| 0 <= k < i && rows[k].id == row.id;
        return None;
      }
      seen := seen + {row.id};
      if !EvidenceOk(row) { return None; }
      results := results + [VerdictOf(row, current)];
    }
    assert results == Freshness(rows, current).value;
    return Some(results);
  }
}
