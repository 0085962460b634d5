/** GitHub events: their grammar, what they bind, and what one of them may change. */
module Events {
  import opened Basics
  import opened Text
  import opened StructuralDiff
  import opened CampaignState
  import opened CampaignRules

  datatype EventKind = Issue | PullRequest | Commit | WorkflowRun | Release | Deployment
  datatype EventAction =
    | ActOpened | ActUpdated | ActClosed | ActSynchronized | ActMerged | ActCreated | ActCompleted | ActPublished
    | ActStatusSucceeded
  datatype Conclusion =
    | ConNotApplicable | ConSuccess | ConFailure | ConCancelled | ConTimedOut | ConActionRequired | ConNeutral
    | ConSkipped | ConStale | ConStartupFailure | ConUnknown

  /** An event; receipts of an older form carry no conclusion. */
  datatype Event = Event(
    kind: EventKind, action: EventAction, repository: string, reference: string, sha: string,
    conclusion: Option<Conclusion>)

  /** What makes two events the same real event. */
  datatype EventId = EventId(kind: EventKind, action: EventAction, repository: string, reference: string, sha: string)

  function Identity(e: Event): EventId { EventId(e.kind, e.action, e.repository, e.reference, e.sha) }

  /** The event with the conclusion an older form implies. */
  function Normal(e: Event): Event {
    if e.conclusion.Some? then e
    else if e.kind.WorkflowRun? || e.action.ActStatusSucceeded? then e.(conclusion := Some(ConUnknown))
    else e.(conclusion := Some(ConNotApplicable))
  }

  predicate ActionFitsKind(kind: EventKind, action: EventAction) {
    match kind
    case Issue => action.ActOpened? || action.ActUpdated? || action.ActClosed?
    case PullRequest => action.ActOpened? || action.ActSynchronized? || action.ActClosed? || action.ActMerged?
    case Commit => action.ActCreated?
    case WorkflowRun => action.ActCompleted?
    case Release => action.ActPublished?
    case Deployment => action.ActCreated? || action.ActStatusSucceeded?
  }

  predicate ReferenceFitsKind(e: Event) {
    match e.kind
    case Issue => IsIssue(e.reference) && e.sha == NONE
    case PullRequest => IsIssue(e.reference) && e.sha != NONE
    case Commit => IsSha(e.reference) && e.sha == e.reference
    case WorkflowRun => IsRun(e.reference) && e.sha != NONE
    case Deployment => IsDeployment(e.reference) && e.sha != NONE
    case Release => IsReleaseRef(e.reference) && e.sha != NONE
  }

  predicate ConclusionFits(e: Event, conclusion: Conclusion, allowUnknown: bool) {
    match e.kind
    case WorkflowRun => if conclusion.ConUnknown? then allowUnknown else !conclusion.ConNotApplicable?
    case Deployment =>
      if e.action.ActCreated? then conclusion.ConNotApplicable?
      else conclusion.ConSuccess? || (conclusion.ConUnknown? && allowUnknown)
    case _ => conclusion.ConNotApplicable?
  }

  predicate ValidEvent(e: Event, allowLegacy: bool, allowUnknown: bool) {
    && (e.conclusion.Some? || allowLegacy)
    && ActionFitsKind(e.kind, e.action)
    && IsRepository(e.repository) && IsLine(e.reference, 120) && IsShaOrNone(e.sha)
    && ReferenceFitsKind(e) && ConclusionFits(e, Normal(e).conclusion.value, allowUnknown)
  }

  /** An event in the present form is also valid where older forms are admitted, and is its own normal form. */
  lemma WeakerEvent(e: Event, allowUnknown: bool)
    requires ValidEvent(e, false, allowUnknown)
    ensures ValidEvent(e, true, allowUnknown) && Normal(e) == e
  {
  }

  // ------------------------------------------------ the event a state binds

  function AllEntries(slices: seq<Slice>): seq<PrEntry> {
    if slices == [] then [] else slices[0].ledger + AllEntries(slices[1..])
  }

  function Where(entries: seq<PrEntry>, p: PrEntry -> bool): (r: seq<PrEntry>)
    ensures forall e :: e in r <==> e in entries && p(e)
  {
    if entries == [] then []
    else (if p(entries[0]) then [entries[0]] else []) + Where(entries[1..], p)
  }

  /** The one ledger entry with the property, when exactly one entry has it. */
  function TheEntry(slices: seq<Slice>, p: PrEntry -> bool): (r: Option<PrEntry>)
    ensures r.Some? ==> r.value in AllEntries(slices) && p(r.value)
  {
    var found := Where(AllEntries(slices), p);
    if |found| == 1 then assert found[0] in found; Some(found[0]) else None
  }

  function PrTarget(s: State, action: EventAction, entry: Option<PrEntry>): Option<EventId> {
    if entry.None? then None
    else Some(EventId(PullRequest, action, s.repository, entry.value.pr,
                      if action.ActMerged? then entry.value.merge else entry.value.head))
  }

  /** The exact event the observed event of a state stands for. */
  function Target(s: State, e: Event): Option<EventId> {
    var ref, repo, train := s.observedRef, s.repository, s.train;
    match s.observed
    case SliceIssueOpened => Some(EventId(Issue, ActOpened, repo, ref, NONE))
    case InitialAuthorization => Some(EventId(Issue, ActOpened, repo, s.ownerIssue, NONE))
    case PrOpened => PrTarget(s, ActOpened, TheEntry(s.slices, (x: PrEntry) => x.state.PrIsOpen? && x.pr == ref))
    case PrSynchronized =>
      PrTarget(s, ActSynchronized, TheEntry(s.slices, (x: PrEntry) => x.state.PrIsOpen? && x.pr == ref))
    case PrClosed => PrTarget(s, ActClosed, TheEntry(s.slices, (x: PrEntry) => x.state.PrIsClosed? && x.pr == ref))
    case PrMerged => PrTarget(s, ActMerged, TheEntry(s.slices, (x: PrEntry) => x.merge == ref))
    case SliceCancelled => Some(EventId(Issue, ActClosed, repo, ref, NONE))
    case GatesPassed | GatesFailed => Some(EventId(WorkflowRun, ActCompleted, repo, e.reference, ref))
    case ReleaseCandidateMerged =>
      if ref != train.candidateBuild then None
      else Some(EventId(Commit, ActCreated, repo, train.candidateBuild, train.candidateBuild))
    case ReleasePublished => Some(EventId(Release, ActPublished, repo, ref, train.publishedBuild))
    case ReleaseVerified => Some(EventId(WorkflowRun, ActCompleted, repo, e.reference, train.publishedBuild))
    case UpstreamVerified =>
      if ref != ReleaseRefOf(train.upstream.publishedVersion) then None
      else Some(EventId(Release, ActPublished, train.upstream.repository, ref, train.upstream.publishedBuild))
    case ProductionDeployed | ProductionVerified =>
      if ref != train.deployedBuild then None
      else if e.kind.WorkflowRun? then Some(EventId(WorkflowRun, ActCompleted, repo, e.reference, ref))
      else if e.kind.Deployment? then Some(EventId(Deployment, ActStatusSucceeded, repo, e.reference, ref))
      else None
  }

  predicate OutcomeFits(s: State, conclusion: Conclusion) {
    match s.observed
    case GatesPassed | ReleaseVerified | ProductionDeployed | ProductionVerified => conclusion.ConSuccess?
    case GatesFailed => !conclusion.ConSuccess? && !conclusion.ConNotApplicable? && !conclusion.ConUnknown?
    case _ => true
  }

  predicate IsIdeaEvent(s: State, e: Event) {
    e.kind.Issue? && e.action.ActOpened? && e.reference in s.inbox.items
  }

  /** A receipt's event is the real event its resulting state observed, or a recorded idea. */
  predicate Bound(s: State, e: Event, transition: bool) {
    && ValidEvent(e, true, false)
    && if !s.observed.SliceIssueOpened? && transition && IsIdeaEvent(s, e) then
         Identity(e) == EventId(Issue, ActOpened, s.repository, e.reference, NONE)
       else
         Target(s, e) == Some(Identity(e)) && OutcomeFits(s, Normal(e).conclusion.value)
  }

  // ------------------------------------------------ what one event may change

  predicate Touches(slice: Slice, e: Event) {
    match e.kind
    case PullRequest => exists x | x in slice.ledger :: x.pr == e.reference
    case Issue => slice.issue == e.reference
    case _ => exists x | x in slice.ledger :: x.state.PrIsOpen? && x.head == e.sha
  }

  function TouchedSlices(s: State, e: Event): set<nat> {
    set i: nat | i < |s.slices| && Touches(s.slices[i], e)
  }

  /** The one slice the event identifies in either state. */
  function EventSlice(before: State, after: State, e: Event): Option<nat> {
    var touched := TouchedSlices(before, e) + TouchedSlices(after, e);
    if exists i: nat | i in touched :: touched == {i} then
      var i: nat :| i in touched && touched == {i};
      Some(i)
    else None
  }

  predicate OpensEntry(before: Ledger, after: Ledger, e: Event) {
    && |after| == |before| + 1 && after[..|before|] == before
    && var entry := after[|before|];
    && entry.state.PrIsOpen? && entry.pr == e.reference && entry.head == e.sha
  }

  predicate MovesHead(before: Ledger, after: Ledger, e: Event) {
    && before != [] && |after| == |before| && after[..|before| - 1] == before[..|before| - 1]
    && var was, now := before[|before| - 1], after[|before| - 1];
    && was.state.PrIsOpen? && now == was.(head := e.sha) && now != was
  }

  predicate OpensSliceIssue(before: Slice, after: Slice, e: Event) {
    && e.kind.Issue? && e.action.ActOpened?
    && before.state.Planned? && before.issue == NONE && before.ledger == []
    && after.state.Active? && after.issue == e.reference && after.ledger == before.ledger
  }

  predicate ExtendsInbox(before: State, after: State, e: Event) {
    e.kind.Issue? && e.action.ActOpened? && after.inbox.items == before.inbox.items + [e.reference]
  }

  function ProgressItems(): set<Position> {
    {["campaign_state"], ["observed_event"], ["observed_event_ref"],
     ["pending_action"], ["stop_reason"], ["next_action"]}
  }

  function SliceItem(i: nat, field: string): Position { ["slices", Decimal(i), field] }

  /** The positions the event may change, or None when the transition is refused outright. */
  function AllowedItems(before: State, after: State, e: Event): Option<set<Position>> {
    if ExtendsInbox(before, after, e) then Some({["idea_inbox", "items"]})
    else
      match after.observed
      case PrOpened | PrSynchronized | PrClosed | PrMerged | SliceIssueOpened | SliceCancelled | GatesPassed
         | GatesFailed =>
        (match EventSlice(before, after, e)
         case None => None
         case Some(i) =>
           if i >= |before.slices| || i >= |after.slices| || !DeltaOk(before, after, e, i) then None
           else Some(ProgressItems() + SliceItems(after.observed, i)))
      case ReleaseCandidateMerged =>
        Some(ProgressItems() + {["train", "publication_state"], ["train", "candidate_build_sha"]})
      case ReleasePublished =>
        Some(ProgressItems()
             + {["train", "publication_state"], ["train", "published_version"], ["train", "published_build_sha"]})
      case ReleaseVerified | ProductionVerified => Some(ProgressItems() + {["checkpoint"]})
      case UpstreamVerified => Some(ProgressItems() + {["train", "upstream"]})
      case ProductionDeployed => Some(ProgressItems() + {["train", "deployed_build_sha"]})
      case InitialAuthorization => Some(ProgressItems())
  }

  function SliceItems(observed: Observed, i: nat): set<Position> {
    match observed
    case PrOpened | PrSynchronized | PrClosed | PrMerged => {SliceItem(i, "state"), SliceItem(i, "pull_requests")}
    case SliceIssueOpened => {SliceItem(i, "issue"), SliceItem(i, "state")}
    case _ => {SliceItem(i, "state")}
  }

  /** Opening, synchronising and starting must be exactly that change of the slice, or no change at all. */
  predicate DeltaOk(before: State, after: State, e: Event, i: nat)
    requires i < |before.slices| && i < |after.slices|
  {
    before == after ||
    match after.observed
    case PrOpened => OpensEntry(before.slices[i].ledger, after.slices[i].ledger, e)
    case PrSynchronized => MovesHead(before.slices[i].ledger, after.slices[i].ledger, e)
    case SliceIssueOpened => OpensSliceIssue(before.slices[i], after.slices[i], e)
    case _ => true
  }

  predicate EventTransition(before: State, after: State, e: Event) {
    && ValidEvent(e, true, false)
    && var items := AllowedItems(before, after, e);
    && items.Some? && Framed(before, after, items.value)
  }

  // ------------------------------------------------ one adjacent pair of states

  predicate SameIdentity(s: State, t: State) {
    && s.repository == t.repository && s.campaignId == t.campaignId && s.ownerIssue == t.ownerIssue
    && s.mode == t.mode && s.workstream == t.workstream && s.authority == t.authority && s.risk == t.risk
    && s.profile == t.profile && s.continuation == t.continuation
    && s.inbox.mode == t.inbox.mode && s.inbox.scope == t.inbox.scope
    && s.train.trainId == t.train.trainId && s.train.targetVersion == t.train.targetVersion
    && s.train.upstream.repository == t.train.upstream.repository
  }

  predicate SameScope(s: State, t: State) {
    |s.slices| == |t.slices| && forall i | 0 <= i < |s.slices| :: s.slices[i].id == t.slices[i].id
  }

  predicate SliceContinues(a: Slice, b: Slice) {
    && (a.issue != NONE ==> b.issue == a.issue)
    && (Terminal(a.state) ==> b.state == a.state)
    && ValidHistory(a.ledger, b.ledger)
  }

  predicate ValidTransition(before: State, after: State, e: Event) {
    && ValidState(before) && ValidState(after)
    && SameIdentity(before, after) && SameScope(before, after)
    && (forall i | 0 <= i < |before.slices| :: SliceContinues(before.slices[i], after.slices[i]))
    && EventTransition(before, after, e)
  }
}
