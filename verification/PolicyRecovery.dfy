/** Planning the recovery of a bound policy, and accepting only the planned compensation. */
module PolicyRecovery {
  import opened Basics
  import opened Text
  import opened CommitDag
  import opened Policy

  datatype Request = Request(operation: string, owner: string, expectedHead: string)

  /** An observation no older than fifteen minutes, with thirty seconds of tolerance for clocks. */
  predicate IsFresh(observedAt: Option<int>, now: int) { observedAt.Some? && -30 <= now - observedAt.value <= 900 }

  predicate KnownText(s: string) { NotBlank(s) && s !in {"UNKNOWN", "UNBOUND", "UNASSIGNED"} }

  // ------------------------------------------------ the checkpoint history

  function GraphOf(history: seq<Row>): Graph {
    if history == [] then map[]
    else
      var last := history[|history| - 1];
      GraphOf(history[..|history| - 1])[last.commit := last.parents]
  }

  function Commits(history: seq<Row>): seq<string> {
    seq(|history|, i requires 0 <= i < |history| => history[i].commit)
  }

  predicate RowOk(r: Row, original: Checkpoint) {
    && IsSha(r.commit) && r.checkpoint == OfCheckpoint(original) && r.parents != []
    && (forall p | p in r.parents :: IsSha(p)) && Distinct(r.parents)
  }

  function Anchors(o: Observations): set<string> {
    {o.checkpoint.id.bindingBasis, o.checkpoint.id.checkpointBasis, o.base, o.master}
  }

  predicate RowsOk(o: Observations) {
    && 0 < |o.history| <= 100000 && (forall i | 0 <= i < |o.history| :: RowOk(o.history[i], o.original))
    && Distinct(Commits(o.history))
  }

  predicate NoGap(g: Graph, anchors: set<string>) {
    forall c | c in g :: forall p | p in g[c] :: p in g || p in anchors
  }

  /** The inventory is complete: no gap, no cycle, nothing that the head does not descend from. */
  ghost predicate HistoryOk(o: Observations) {
    && RowsOk(o)
    && var g := GraphOf(o.history);
    && o.checkpoint.id.checkpointId in g && o.head in g
    && o.checkpoint.id.bindingBasis in g[o.checkpoint.id.checkpointId]
    && NoGap(g, Anchors(o)) && Acyclic(g) && forall c | c in g :: Reachable(g, o.head, c)
  }

  lemma {:induction false} GraphKeys(history: seq<Row>)
    ensures GraphOf(history).Keys == Elements(Commits(history))
    ensures forall c | c in GraphOf(history) ::
              exists i | 0 <= i < |history| :: history[i].commit == c && history[i].parents == GraphOf(history)[c]
  {
    if history != [] {
      var rest, last := history[..|history| - 1], history[|history| - 1];
      GraphKeys(rest);
      assert Commits(history) == Commits(rest) + [last.commit];
      var g := GraphOf(history);
      forall c | c in g ensures exists i | 0 <= i < |history| :: history[i].commit == c && history[i].parents == g[c] {
        if c == last.commit {
          assert history[|history| - 1].commit == c;
        } else {
          var i :| 0 <= i < |rest| && rest[i].commit == c && rest[i].parents == GraphOf(rest)[c];
          assert history[i] == rest[i];
        }
      }
    }
  }

  lemma GraphShape(o: Observations)
    requires RowsOk(o)
    ensures var g := GraphOf(o.history); DistinctParents(g) && IsOrder(g, Commits(o.history)) && |g| == |o.history|
    ensures forall c | c in GraphOf(o.history) :: GraphOf(o.history)[c] != []
  {
    hide IsSha;
    GraphKeys(o.history);
    DistinctSize(Commits(o.history));
    var g := GraphOf(o.history);
    forall c | c in g ensures Distinct(g[c]) && g[c] != [] {
      var i :| 0 <= i < |o.history| && o.history[i].commit == c && o.history[i].parents == g[c];
      assert RowOk(o.history[i], o.original);
    }
  }

  lemma NextRow(history: seq<Row>, i: nat)
    requires i < |history|
    ensures history[i].commit in GraphOf(history[..i])
            <==> exists k | 0 <= k < i :: history[k].commit == history[i].commit
    ensures GraphOf(history[..i + 1]) == GraphOf(history[..i])[history[i].commit := history[i].parents]
  {
    var before := history[..i];
    GraphKeys(before);
    assert history[..i + 1][..i] == before;
    forall k | 0 <= k < i && history[k].commit == history[i].commit
      ensures history[i].commit in Elements(Commits(before))
    {
      assert Commits(before)[k] == history[i].commit;
    }
  }

  lemma DistinctCommits(history: seq<Row>)
    ensures Distinct(Commits(history))
            <==> forall k, l | 0 <= k < l < |history| :: history[k].commit != history[l].commit
  {
    var c := Commits(history);
    if Distinct(c) {
      forall k, l | 0 <= k < l < |history| ensures history[k].commit != history[l].commit {
        assert c[k] != c[l];
      }
    }
  }

  method ScanHistory(o: Observations) returns (ok: bool, nodes: Graph)
    ensures ok <==> RowsOk(o)
    ensures ok ==> nodes == GraphOf(o.history)
  {
    hide RowOk, GraphOf, Distinct;
    nodes := map[];
    DistinctCommits(o.history);
    if |o.history| == 0 || |o.history| > 100000 { return false, nodes; }
    assert nodes == GraphOf(o.history[..0]) by { EmptyGraph(o.history); }
    for i := 0 to |o.history|
      invariant nodes == GraphOf(o.history[..i])
      invariant forall k | 0 <= k < i :: RowOk(o.history[k], o.original)
      invariant forall k, l | 0 <= k < l < i :: o.history[k].commit != o.history[l].commit
    {
      var row := o.history[i];
      NextRow(o.history, i);
      if row.commit in nodes || !RowOk(row, o.original) { return false, nodes; }
      nodes := nodes[row.commit := row.parents];
    }
    assert o.history[..|o.history|] == o.history;
    ok := true;
  }

  lemma EmptyGraph(history: seq<Row>)
    ensures GraphOf(history[..0]) == map[]
  {
  }

  /** The history scan, the elimination and the search together decide completeness of the inventory. */
  method CheckHistory(o: Observations) returns (ok: bool)
    ensures ok <==> HistoryOk(o)
  {
    hide RowsOk, Acyclic, Reachable, DistinctParents, IsOrder;
    var rowsOk, nodes := ScanHistory(o);
    if !rowsOk { return false; }
    GraphShape(o);
    var id := o.checkpoint.id;
    if id.checkpointId !in nodes || o.head !in nodes { return false; }
    if id.bindingBasis !in nodes[id.checkpointId] { return false; }
    if !NoGap(nodes, Anchors(o) - nodes.Keys) {
      assert !NoGap(nodes, Anchors(o)) by { GapOutside(nodes, Anchors(o)); }
      return false;
    }
    GapOutside(nodes, Anchors(o));
    var processed := Eliminate(nodes, Commits(o.history), LAST_IN);
    if processed != |nodes| { return false; }
    var reachable := Search(nodes, o.head);
    return reachable == nodes.Keys;
  }

  lemma GapOutside(g: Graph, anchors: set<string>)
    ensures NoGap(g, anchors - g.Keys) <==> NoGap(g, anchors)
  {
  }

  // ------------------------------------------------ the plan

  predicate DeltaOk(o: Observations) {
    && o.delta.base == o.base && o.delta.head == o.head && o.delta.complete
    && (forall i | 0 <= i < |o.delta.changes| ::
          o.delta.changes[i].path != "" && o.delta.changes[i].effect in {"NO_PRODUCTION", "PRODUCTION"})
    && forall i, j | 0 <= i < j < |o.delta.changes| :: o.delta.changes[i].path != o.delta.changes[j].path
  }

  function ObservedEffect(changes: seq<Change>): string {
    if exists c | c in changes :: c.effect == "PRODUCTION" then "PRODUCTION" else "NO_PRODUCTION"
  }

  predicate IdentityOk(r: Request, o: Observations, c: Contract, now: int) {
    var id := o.checkpoint.id;
    && r.operation == "RECOVER_BOUND_POLICY" && IsFresh(o.observedAt, now)
    && KnownText(id.owner) && KnownText(id.repository) && KnownText(id.branch) && KnownText(id.workstream)
    && KnownText(id.workstreamClass) && id.pr > 0
    && o.original.state == o.checkpoint.state == "BOUND" && o.checkpoint == o.original
    && r.owner == o.viewer == id.owner
    && o.repository == id.repository && o.branch == id.branch && o.pr == id.pr && r.expectedHead == o.head
    && IsSha(o.head) && IsSha(o.base) && IsSha(o.master) && IsSha(o.expectedBase) && IsSha(o.expectedMaster)
    && IsSha(id.bindingBasis) && IsSha(id.checkpointBasis) && IsSha(id.checkpointId)
    && o.clean && o.prState == "OPEN" && o.base == o.expectedBase && o.master == o.expectedMaster
    && o.binding == id && c.repository == id.repository
    && o.ancestry == AncestryProof(true, true, true, true) && o.historyComplete && o.eventsComplete
  }

  function Decide(o: Observations, c: Contract, trusted: Digest): Option<Decision> {
    ResolvePolicy(c, trusted, o.checkpoint.id.workstream, o.checkpoint.id.workstreamClass, o.checkpoint.effectPolicy,
                  ObservedEffect(o.delta.changes))
  }

  /** Only a routing mismatch without production effects can be recovered, and only to the derived policy. */
  predicate Recoverable(o: Observations, d: Option<Decision>) {
    && d.Some? && d.value.route.workstreamClass == o.checkpoint.id.workstreamClass
    && RoutingMismatch in d.value.incompatibilities && d.value.route.single
    && ObservedEffect(o.delta.changes) == o.checkpoint.observedEffects == "NO_PRODUCTION"
  }

  predicate DimensionsOk(o: Observations, c: Contract) {
    var d := o.dimensions;
    && d.Keys == ALL_DIMENSIONS
    && Head in d && Base in d && Master in d && PolicyDim in d && RepositoryDim in d && PrState in d && Pin in d
    && AuthorityDim in d
    && d[Head] == Named(o.head) && d[Base] == Named(o.base) && d[Master] == Named(o.master)
    && d[PolicyDim] == Named(o.checkpoint.effectPolicy) && d[RepositoryDim] == Named(o.checkpoint.id.repository)
    && d[PrState] == Named("OPEN") && d[Pin] == Named(c.sourceCommit)
    && d[AuthorityDim] == Hashed(OfAuthority(o.checkpoint.id.authority, o.checkpoint.id.consent))
  }

  /** Everything the planner requires of its inputs. */
  ghost predicate MayPlan(r: Request, o: Observations, trustedObservations: Digest, c: Contract, trusted: Digest,
        now: int) {
    && trustedObservations == OfObservations(o) && IdentityOk(r, o, c, now) && HistoryOk(o) && DeltaOk(o)
    && Recoverable(o, Decide(o, c, trusted)) && DimensionsOk(o, c) && InventoryOk(o.evidence)
  }

  function Corrected(o: Observations, d: Decision): Checkpoint
    requires d.route.policies != []
  {
    o.checkpoint.(effectPolicy := d.route.policies[0])
  }

  function BodyOf(o: Observations, c: Contract, trusted: Digest, corrected: Checkpoint): PlanBody {
    PlanBody("agent-bound-policy-compensation/v1", "BOUND_RECOVERABLE", "RECOVER_BOUND_POLICY",
             "POLICY_ROUTING_MISMATCH", o.original, corrected, o.head, o.base, o.master, trusted, OfObservations(o), c,
             OfDelta(o.delta), OfHistory(o.history), OfEvents(o.events), OfEvidence(o.evidence), o.dimensions, [], true,
                 false)
  }

  function Signed(body: PlanBody): Plan { Plan(body, OfBody(body), Marker(OfBody(body))) }

  lemma RouteHasPolicy(c: Contract)
    requires RouteOf(c.routing).Some?
    ensures RouteOf(c.routing).value.policies != []
    ensures RouteOf(c.routing).value.single ==> |RouteOf(c.routing).value.policies| == 1
  {
  }

  method ScanDelta(o: Observations) returns (effect: Option<string>)
    ensures effect.Some? <==> DeltaOk(o)
    ensures effect.Some? ==> effect.value == ObservedEffect(o.delta.changes)
  {
    if o.delta.base != o.base || o.delta.head != o.head || !o.delta.complete { return None; }
    var changes := o.delta.changes;
    var paths: set<string> := {};
    var production := false;
    for i := 0 to |changes|
      invariant paths == set k | 0 <= k < i :: changes[k].path
      invariant production <==> exists k | 0 <= k < i :: changes[k].effect == "PRODUCTION"
      invariant forall k | 0 <= k < i :: changes[k].path != "" && changes[k].effect in {"NO_PRODUCTION", "PRODUCTION"}
      invariant forall k, l | 0 <= k < l < i :: changes[k].path != changes[l].path
    {
      var change := changes[i];
      if change.path == "" || change.path in paths { return None; }
      paths := paths + {change.path};
      if change.effect !in {"NO_PRODUCTION", "PRODUCTION"} { return None; }
      production := production || change.effect == "PRODUCTION";
    }
    if production {
      var k :| 0 <= k < |changes| && changes[k].effect == "PRODUCTION";
      assert changes[k] in changes;
    }
    return Some(if production then "PRODUCTION" else "NO_PRODUCTION");
  }

  /** A plan is made exactly when every requirement holds, and is then the signed body. */
  method PlanPolicyRecovery(r: Request, o: Observations, trustedObservations: Digest, c: Contract, trusted: Digest,
        now: int)
    returns (plan: Option<Plan>)
    ensures plan.Some? <==> MayPlan(r, o, trustedObservations, c, trusted, now)
    ensures plan.Some? ==> IsPlanOf(plan.value, o, c, trusted)
  {
    hide IdentityOk, HistoryOk, DeltaOk, InventoryOk, DimensionsOk, ObservedEffect, RouteOf, IsSha;
    if trustedObservations != OfObservations(o) || !IdentityOk(r, o, c, now) { return None; }
    var historyOk := CheckHistory(o);
    if !historyOk { return None; }
    var effect := ScanDelta(o);
    if effect.None? { return None; }
    var decision := Decide(o, c, trusted);
    if decision.None? || !Recoverable(o, decision) { return None; }
    RouteHasPolicy(c);
    var corrected := Corrected(o, decision.value);
    CorrectedIsCoherent(o, c, trusted);
    var id := corrected.id;
    if !Coherent(ResolvePolicy(c, trusted, id.workstream, id.workstreamClass, corrected.effectPolicy, effect.value)) {
      assert false;
      return None;
    }
    if !DimensionsOk(o, c) { return None; }
    var freshness := EvidenceFreshness(o.evidence, o.dimensions);
    assert o.dimensions.Keys == ALL_DIMENSIONS by { DimensionsComplete(o, c); }
    if freshness.None? { return None; }
    return Some(Signed(BodyOf(o, c, trusted, corrected)));
  }

  lemma DimensionsComplete(o: Observations, c: Contract)
    requires DimensionsOk(o, c)
    ensures o.dimensions.Keys == ALL_DIMENSIONS
  {
  }

  /** The derived policy is always coherent with the route: the second routing check cannot fail. */
  lemma CorrectedIsCoherent(o: Observations, c: Contract, trusted: Digest)
    requires Recoverable(o, Decide(o, c, trusted))
    ensures Decide(o, c, trusted).value.route.policies != []
    ensures var d := Decide(o, c, trusted).value; var after := Corrected(o, d);
      && after.effectPolicy != o.checkpoint.effectPolicy
      && Coherent(ResolvePolicy(c, trusted, after.id.workstream, after.id.workstreamClass, after.effectPolicy,
             "NO_PRODUCTION"))
  {
    hide IsSha, ObservedEffect;
  }

  ghost predicate IsPlanOf(p: Plan, o: Observations, c: Contract, trusted: Digest) {
    && Recoverable(o, Decide(o, c, trusted)) && Decide(o, c, trusted).value.route.policies != []
    && p == Signed(BodyOf(o, c, trusted, Corrected(o, Decide(o, c, trusted).value)))
  }

  // ------------------------------------------------ the compensation

  predicate PlanOk(p: Plan) {
    var b := p.body;
    && p.digest == OfBody(b) && p.subject == Marker(p.digest)
    && b.schema == "agent-bound-policy-compensation/v1" && b.operation == "RECOVER_BOUND_POLICY"
    && b.reason == "POLICY_ROUTING_MISMATCH" && b.diagnostic == "BOUND_RECOVERABLE"
    && b.newCapabilities == [] && b.commitRequired && !b.qualified
    && b.corrected == b.original.(effectPolicy := b.corrected.effectPolicy) && b.corrected != b.original
    && b.original.state == b.corrected.state == "BOUND"
    && b.original.observedEffects == b.corrected.observedEffects == "NO_PRODUCTION"
    && b.contract.repository == b.original.id.repository
    && var d := ResolvePolicy(b.contract, b.contractDigest, b.corrected.id.workstream, b.corrected.id.workstreamClass,
                              b.corrected.effectPolicy, b.corrected.observedEffects);
    && Coherent(d) && d.value.route.single
  }

  /** The compensation is the planned change applied as a new direct child commit. */
  predicate IsPlannedChild(p: Plan, k: Compensation, now: int) {
    var b := p.body;
    && IsFresh(k.observedAt, now) && IsSha(k.head) && k.head != b.parentHead && k.parents == [b.parentHead]
    && k.subject == p.subject && k.before == b.original && k.after == b.corrected
    && k.changedFields == ["effect_policy"] && k.otherChanges == []
    && k.historyDigest == b.historyDigest && k.eventsDigest == b.eventsDigest && k.fullEffects == "NO_PRODUCTION"
  }

  predicate CoordinatesMatch(p: Plan, k: Compensation, current: map<Dimension, Coordinate>) {
    var b := p.body;
    && current.Keys == ALL_DIMENSIONS && b.dimensions.Keys == ALL_DIMENSIONS
    && Head in current && Base in current && Master in current && PolicyDim in current
    && current[Head] == Named(k.head) && current[Base] == Named(b.base) && current[Master] == Named(b.master)
    && current[PolicyDim] == Named(b.corrected.effectPolicy)
    && forall d | d in {RepositoryDim, AuthorityDim, Pin, PrState} ::
         d in current && d in b.dimensions && current[d] == b.dimensions[d]
  }

  /** The verdicts on the old evidence when the compensation is accepted. */
  function VerifyCompensation(p: Plan, trustedPlan: Digest, k: Compensation, trustedCompensation: Digest,
                              previous: seq<Evidence>, current: map<Dimension, Coordinate>, now: int)
    : Option<seq<Verdict>>
  {
    if trustedPlan != OfPlan(p) || !PlanOk(p) || trustedCompensation != OfCompensation(k)
       || p.body.evidenceDigest != OfEvidence(previous) || !IsPlannedChild(p, k, now)
       || !CoordinatesMatch(p, k, current)
    then None
    else Freshness(previous, current)
  }

  // ------------------------------------------------ theorems

  /** Every plan the planner makes passes all of the verifier's checks on plans. */
  lemma PlanIsAccepted(r: Request, o: Observations, c: Contract, trusted: Digest, now: int, p: Plan)
    requires MayPlan(r, o, OfObservations(o), c, trusted, now) && IsPlanOf(p, o, c, trusted)
    ensures PlanOk(p)
  {
    assert o.checkpoint == o.original && o.original.state == "BOUND" && c.repository == o.checkpoint.id.repository by {
      hide HistoryOk, Recoverable, DimensionsOk, InventoryOk, DeltaOk, IsSha, KnownText;
    }
    hide MayPlan, IsSha, ObservedEffect, RouteOf;
    RouteHasPolicy(c);
    CorrectedIsCoherent(o, c, trusted);
  }

  /** Round trip: the verifier accepts exactly the planned child of a made plan, at matching coordinates. */
  lemma PlanRoundTrip(r: Request, o: Observations, c: Contract, trusted: Digest, planned: int, p: Plan,
                      k: Compensation, current: map<Dimension, Coordinate>, now: int)
    requires MayPlan(r, o, OfObservations(o), c, trusted, planned) && IsPlanOf(p, o, c, trusted)
    ensures VerifyCompensation(p, OfPlan(p), k, OfCompensation(k), o.evidence, current, now).Some? <==>
      IsPlannedChild(p, k, now) && CoordinatesMatch(p, k, current)
  {
    PlanIsAccepted(r, o, c, trusted, planned, p);
    assert InventoryOk(o.evidence) by { hide HistoryOk, Recoverable, DimensionsOk, InventoryOk, DeltaOk, IdentityOk; }
    hide MayPlan, Recoverable, PlanOk, IsPlannedChild, InventoryOk, Decide, CoordinatesMatch, Corrected;
    if CoordinatesMatch(p, k, current) { CoordinatesComplete(p, k, current); }
  }

  lemma CoordinatesComplete(p: Plan, k: Compensation, current: map<Dimension, Coordinate>)
    requires CoordinatesMatch(p, k, current)
    ensures current.Keys == ALL_DIMENSIONS
  {
  }

  const SETTLED: set<Dimension> := {Base, Master, RepositoryDim, AuthorityDim, Pin, PrState}

  predicate Settled(planned: map<Dimension, Coordinate>, current: map<Dimension, Coordinate>) {
    && planned.Keys == current.Keys == ALL_DIMENSIONS
    && (forall d | d in SETTLED :: d in current && d in planned && current[d] == planned[d])
    && forall d | d in {Head, PolicyDim} :: d in current && d in planned && current[d] != planned[d]
  }

  /** Against the planned coordinates, the compensated ones differ at HEAD and POLICY and agree where settled. */
  lemma CoordinatesMove(o: Observations, c: Contract, p: Plan, k: Compensation, current: map<Dimension, Coordinate>)
    requires DimensionsOk(o, c) && p.body.dimensions == o.dimensions && p.body.base == o.base
    requires p.body.master == o.master
    requires p.body.corrected.effectPolicy != o.checkpoint.effectPolicy && k.head != o.head
    requires CoordinatesMatch(p, k, current)
    ensures Settled(o.dimensions, current)
  {
  }

  lemma PlanCoordinates(r: Request, o: Observations, c: Contract, trusted: Digest, planned: int, p: Plan,
                        k: Compensation, current: map<Dimension, Coordinate>, now: int)
    requires MayPlan(r, o, OfObservations(o), c, trusted, planned) && IsPlanOf(p, o, c, trusted)
    requires IsPlannedChild(p, k, now) && CoordinatesMatch(p, k, current)
    ensures Settled(o.dimensions, current)
  {
    assert DimensionsOk(o, c) by { hide HistoryOk, Recoverable, DimensionsOk, InventoryOk, DeltaOk, IdentityOk; }
    CorrectedIsCoherent(o, c, trusted);
    hide MayPlan, Recoverable, Decide, Coherent, ResolvePolicy, IsSha, IsFresh, CoordinatesMatch, DimensionsOk, Settled;
    CoordinatesMove(o, c, p, k, current);
  }

  /**
   * After compensation every original result is retained in order. Of the rows that were reusable at plan time, those
   * on HEAD or POLICY are stale and those on settled coordinates alone are still reusable.
   */
  lemma ReuseAfterCompensation(r: Request, o: Observations, c: Contract, trusted: Digest, planned: int, p: Plan,
                               k: Compensation, current: map<Dimension, Coordinate>, now: int)
    requires MayPlan(r, o, OfObservations(o), c, trusted, planned) && IsPlanOf(p, o, c, trusted)
    requires IsPlannedChild(p, k, now) && CoordinatesMatch(p, k, current)
    ensures VerifyCompensation(p, OfPlan(p), k, OfCompensation(k), o.evidence, current, now).Some?
    ensures Freshness(o.evidence, o.dimensions).Some?
    ensures var verdicts := VerifyCompensation(p, OfPlan(p), k, OfCompensation(k), o.evidence, current, now).value;
      && |verdicts| == |o.evidence|
      && forall i | 0 <= i < |verdicts| ::
           verdicts[i].id == o.evidence[i].id && verdicts[i].result == o.evidence[i].result
    ensures var verdicts := VerifyCompensation(p, OfPlan(p), k, OfCompensation(k), o.evidence, current, now).value;
      forall i | 0 <= i < |verdicts| && Freshness(o.evidence, o.dimensions).value[i].reusable ::
        && (OnHeadOrPolicy(o.evidence[i]) ==> !verdicts[i].reusable)
        && (OnSettled(o.evidence[i]) ==> verdicts[i].reusable)
  {
    hide MayPlan, IsPlanOf, IsPlannedChild, CoordinatesMatch, PlanOk, VerifyCompensation, RowCarries, OnHeadOrPolicy;
    hide OnSettled;
    VerdictsAre(r, o, c, trusted, planned, p, k, current, now);
    PlannedDimensions(r, o, c, trusted, planned);
    hide VerdictOf, EvidenceOk, Settled, Freshness;
    forall i | 0 <= i < |o.evidence| ensures RowCarries(o.evidence[i], o.dimensions, current) {
      RowIsCarried(o.evidence[i], o.dimensions, current);
    }
    CarriedRows(o.evidence, o.dimensions, current);
  }

  /** On acceptance the verdicts are the freshness of the original inventory at the compensated coordinates. */
  lemma VerdictsAre(r: Request, o: Observations, c: Contract, trusted: Digest, planned: int, p: Plan,
                    k: Compensation, current: map<Dimension, Coordinate>, now: int)
    requires MayPlan(r, o, OfObservations(o), c, trusted, planned) && IsPlanOf(p, o, c, trusted)
    requires IsPlannedChild(p, k, now) && CoordinatesMatch(p, k, current)
    ensures VerifyCompensation(p, OfPlan(p), k, OfCompensation(k), o.evidence, current, now)
            == Freshness(o.evidence, current)
    ensures Freshness(o.evidence, current).Some? && Settled(o.dimensions, current)
  {
    PlanRoundTrip(r, o, c, trusted, planned, p, k, current, now);
    PlanCoordinates(r, o, c, trusted, planned, p, k, current, now);
    hide MayPlan, IsPlanOf, IsPlannedChild, CoordinatesMatch, PlanOk, Freshness, Settled;
  }

  lemma CarriedRows(rows: seq<Evidence>, planned: map<Dimension, Coordinate>, current: map<Dimension, Coordinate>)
    requires Freshness(rows, planned).Some? && Freshness(rows, current).Some?
    requires forall i | 0 <= i < |rows| :: RowCarries(rows[i], planned, current)
    ensures var verdicts := Freshness(rows, current).value;
      && |verdicts| == |rows|
      && (forall i | 0 <= i < |verdicts| :: verdicts[i].id == rows[i].id && verdicts[i].result == rows[i].result)
      && forall i | 0 <= i < |verdicts| && Freshness(rows, planned).value[i].reusable ::
           (OnHeadOrPolicy(rows[i]) ==> !verdicts[i].reusable) && (OnSettled(rows[i]) ==> verdicts[i].reusable)
  {
    hide VerdictOf, OnHeadOrPolicy, OnSettled, EvidenceOk;
    forall i | 0 <= i < |rows|
      ensures Freshness(rows, current).value[i] == VerdictOf(rows[i], current)
      ensures Freshness(rows, planned).value[i] == VerdictOf(rows[i], planned)
      ensures RowCarries(rows[i], planned, current)
    {
    }
  }

  /** How the verdict on one row moves from the planned coordinates to the compensated ones. */
  predicate RowCarries(e: Evidence, planned: map<Dimension, Coordinate>, current: map<Dimension, Coordinate>)
    requires EvidenceOk(e) && planned.Keys == ALL_DIMENSIONS && current.Keys == ALL_DIMENSIONS
  {
    var was, now := VerdictOf(e, planned), VerdictOf(e, current);
    && now.id == e.id && now.result == e.result
    && (was.reusable ==> (OnHeadOrPolicy(e) ==> !now.reusable) && (OnSettled(e) ==> now.reusable))
  }

  lemma RowIsCarried(e: Evidence, planned: map<Dimension, Coordinate>, current: map<Dimension, Coordinate>)
    requires EvidenceOk(e) && planned.Keys == ALL_DIMENSIONS && current.Keys == ALL_DIMENSIONS
    requires Settled(planned, current)
    ensures RowCarries(e, planned, current)
  {
    hide EvidenceOk, OnHeadOrPolicy, OnSettled, Settled;
    if VerdictOf(e, planned).reusable { SettledStays(e, planned, current); }
  }

  predicate OnHeadOrPolicy(e: Evidence) { Head in e.dependencies || PolicyDim in e.dependencies }

  predicate OnSettled(e: Evidence) { forall d | d in e.dependencies :: d in SETTLED }

  lemma PlannedDimensions(r: Request, o: Observations, c: Contract, trusted: Digest, planned: int)
    requires MayPlan(r, o, OfObservations(o), c, trusted, planned)
    ensures o.dimensions.Keys == ALL_DIMENSIONS
  {
    hide HistoryOk, DeltaOk, Recoverable, IsSha, IsFresh;
    DimensionsComplete(o, c);
  }

  lemma SettledStays(e: Evidence, planned: map<Dimension, Coordinate>, current: map<Dimension, Coordinate>)
    requires EvidenceOk(e) && Settled(planned, current) && VerdictOf(e, planned).reusable
    ensures OnHeadOrPolicy(e) ==> !VerdictOf(e, current).reusable
    ensures OnSettled(e) ==> VerdictOf(e, current).reusable
  {
    hide Known;
    assert forall d | d in e.dependencies :: d in e.coordinates && d in planned && !Invalidates(e, planned, d) by {
      EveryDimension();
      forall d | d in e.dependencies ensures d in e.coordinates && d in planned && !Invalidates(e, planned, d) {
        assert d in e.coordinates.Keys;
        assert d !in VerdictOf(e, planned).invalidators;
      }
    }
    if Head in e.dependencies { assert Head in VerdictOf(e, current).invalidators; }
    if PolicyDim in e.dependencies { assert PolicyDim in VerdictOf(e, current).invalidators; }
    if forall d | d in e.dependencies :: d in SETTLED {
      forall d | d in e.dependencies ensures !Invalidates(e, current, d) {
        assert current[d] == planned[d];
      }
      assert VerdictOf(e, current).invalidators == {};
    }
  }

  /** In an accepted history every parent trail from the head ends at an exact anchor within the inventory's size. */
  lemma AcceptedHistoryIsAnchored(o: Observations, w: seq<string>)
    requires HistoryOk(o) && IsTrail(GraphOf(o.history), w, o.head)
    ensures |w| <= |o.history| + 1
    ensures (forall x :: !IsTrail(GraphOf(o.history), w + [x], o.head)) ==> w[|w| - 1] in Anchors(o)
  {
    GraphShape(o);
    TrailsEndAtAnchors(GraphOf(o.history), Anchors(o), o.head, w);
  }
}
