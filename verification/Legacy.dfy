/** Campaigns of schema 1: their validator and their projection onto schema 2. */
module Legacy {
  import opened Basics
  import opened Text
  import opened CampaignState
  import opened CampaignRules
  import opened Events

  datatype OldTrain = OldTrain(
    trainId: string, targetVersion: string, publication: Publication, publishedVersion: string, build: string)
  datatype OldSlice = OldSlice(id: string, state: SliceState, issue: string, pr: string, head: string, merge: string)
  datatype OldState = OldState(
    schemaVersion: int, protocolVersion: string, repository: string, campaignId: string, ownerIssue: string,
    mode: Mode, phase: Phase, workstream: Workstream, authority: Authority, risk: Risk,
    continuation: Continuation, checkpoint: Checkpoint, inbox: IdeaInbox, train: OldTrain, slices: seq<OldSlice>,
    observed: Observed, observedRef: string, pending: PendingAction, stop: StopReason, next: NextAction)

  // The old grammars wrote `\d`, which also matches digits outside `[0-9]`: `extra` is that set of characters.

  predicate OldIssueOrNone(s: string, extra: set<char>) { s == NONE || IsIssueWith(s, extra) }

  predicate OldEventRef(s: string, extra: set<char>) {
    || IsIssueWith(s, extra) || IsSha(s)
    || (StartsWith(s, "run:") && IsPositiveNumeral(s[4..], extra))
    || (StartsWith(s, "release:") && IsName(s[8..]))
  }

  predicate OldObserved(o: Observed) {
    || o.InitialAuthorization? || o.PrMerged? || o.SliceCancelled? || o.GatesPassed? || o.ReleaseCandidateMerged?
    || o.ReleasePublished? || o.ReleaseVerified? || o.ProductionVerified?
  }

  predicate OldKind(k: ActionKind) { !k.VerifyUpstreamRelease? && !k.DeployProductionB? && !k.DeployProductionC? }

  function OldActionLevel(k: ActionKind): Option<nat> {
    match k
    case StartNextSlice | ContinueActiveSlice => Some(0)
    case MergeActiveSlice | PrepareRelease => Some(1)
    case PublishRelease | VerifyRelease | RecordCheckpoint => Some(2)
    case VerifyProduction => Some(3)
    case _ => None
  }

  predicate OldValidTrain(t: OldTrain, extra: set<char>) {
    && IsLine(t.trainId, 100) && IsSemverWith(t.targetVersion, extra) && IsShaOrNone(t.build)
    && (t.publishedVersion == NONE || IsSemverWith(t.publishedVersion, extra))
    && t.trainId !in [t.targetVersion, t.publishedVersion, t.build]
    && match t.publication
       case Unpublished => t.publishedVersion == t.build == NONE
       case Candidate => t.publishedVersion == NONE && t.build != NONE
       case Published => t.publishedVersion == t.targetVersion && t.build != NONE
  }

  predicate OldValidCheckpoint(c: Checkpoint, extra: set<char>) {
    && c.policy == "RELEASE_BOUNDARY" && OldIssueOrNone(c.reference, extra)
    && (c.state.Recorded? <==> c.reference != NONE)
  }

  predicate OldValidInbox(inbox: IdeaInbox, extra: set<char>) {
    && inbox.mode == "GITHUB_ISSUES_ONLY" && inbox.scope == "FROZEN_UNTIL_RELEASE_BOUNDARY"
    && (forall item | item in inbox.items :: IsIssueWith(item, extra)) && Distinct(inbox.items)
  }

  predicate OldValidSlice(s: OldSlice, extra: set<char>) {
    && IsLine(s.id, 100) && IsSliceId(s.id) && OldIssueOrNone(s.issue, extra) && OldIssueOrNone(s.pr, extra)
    && IsShaOrNone(s.head) && IsShaOrNone(s.merge)
    && match s.state
       case Planned => s.pr == s.head == s.merge == NONE
       case Active | Blocked => s.issue != NONE && s.merge == NONE && (s.pr == NONE <==> s.head == NONE)
       case Merged => s.issue != NONE && s.pr != NONE && s.head != NONE && s.merge != NONE
       case Cancelled => s.issue != NONE && s.pr == s.head == s.merge == NONE
  }

  predicate OldInOrder(a: OldSlice, b: OldSlice) {
    && a.id != b.id
    && (Terminal(b.state) ==> Terminal(a.state))
    && (ActiveLike(b.state) ==> !a.state.Planned? && !ActiveLike(a.state))
  }

  predicate OldValidSlices(slices: seq<OldSlice>, mode: Mode, extra: set<char>) {
    && slices != [] && (mode.SingleSlice? ==> |slices| == 1)
    && (forall i | 0 <= i < |slices| :: OldValidSlice(slices[i], extra))
    && forall i, j | 0 <= i < j < |slices| :: OldInOrder(slices[i], slices[j])
  }

  function OldFirst(slices: seq<OldSlice>, st: SliceState): (i: nat)
    ensures i <= |slices|
    ensures i < |slices| ==> slices[i].state == st
    ensures forall k | 0 <= k < i :: slices[k].state != st
  {
    if slices == [] || slices[0].state == st then 0 else 1 + OldFirst(slices[1..], st)
  }

  predicate OldHas(slices: seq<OldSlice>, st: SliceState) { OldFirst(slices, st) < |slices| }

  predicate OldUnfinished(slices: seq<OldSlice>) {
    OldHas(slices, Active) || OldHas(slices, Blocked) || OldHas(slices, Planned)
  }

  predicate OldStartIsDue(s: OldState) {
    var i := OldFirst(s.slices, Planned);
    && !OldHas(s.slices, Active) && !OldHas(s.slices, Blocked) && i < |s.slices|
    && s.pending.sliceId == s.slices[i].id
    && if i == 0 then s.observed.InitialAuthorization?
       else
         var previous := s.slices[i - 1];
         if previous.state.Merged? then s.observed.PrMerged? && s.observedRef == previous.merge
         else s.observed.SliceCancelled? && s.observedRef == previous.issue
  }

  predicate OldSliceActionOk(s: OldState) {
    var kind, sliceId, i := s.pending.kind, s.pending.sliceId, OldFirst(s.slices, Active);
    && (if IsSliceAction(kind) then sliceId != NONE && Contains(s.next.summary, sliceId) else sliceId == NONE)
    && (kind.StartNextSlice? ==> OldStartIsDue(s))
    && (kind.ContinueActiveSlice? || kind.MergeActiveSlice? ==> i < |s.slices| && sliceId == s.slices[i].id)
    && (kind.MergeActiveSlice? ==> s.observed.GatesPassed? && i < |s.slices| && s.observedRef == s.slices[i].head)
  }

  predicate OldReleaseActionOk(s: OldState) {
    var kind, train, publication := s.pending.kind, s.train, s.train.publication;
    && (IsReleaseAction(kind) ==> !OldUnfinished(s.slices) && s.workstream.Product? && s.risk.PublicArtifact?)
    && (kind.PrepareRelease? ==> publication.Unpublished?)
    && (kind.PublishRelease? ==>
          publication.Candidate? && s.observed.ReleaseCandidateMerged? && s.observedRef == train.build)
    && (kind.VerifyRelease? ==>
          publication.Published? && s.observed.ReleasePublished?
            && s.observedRef == ReleaseRefOf(train.publishedVersion))
    && (kind.VerifyProduction? ==> s.risk.ReversibleProduction?)
    && (kind.RecordCheckpoint? ==>
          && publication.Published? && s.checkpoint.state.Due?
          && s.observed.ReleaseVerified? && s.observedRef == ReleaseRefOf(train.publishedVersion))
  }

  predicate OldHumanStopOk(s: OldState) {
    var kind, level, authority := s.pending.kind, OldActionLevel(s.pending.kind), AuthorityLevel(s.authority);
    && (s.stop.AuthorityExhausted? ==> level.Some? && level.value > authority)
    && (s.stop.PublicationNotAuthorized? ==> kind.PublishRelease? && authority < AuthorityLevel(ThroughRelease))
    && (s.stop.LevelCAuthorization? ==> kind.VerifyProduction? && authority < AuthorityLevel(ThroughProductionB))
  }

  predicate OldPhaseOk(s: OldState) {
    var kind := s.pending.kind;
    match s.phase
    case PhaseBlocked => IsBlockedReason(s.stop) && OldHas(s.slices, Blocked)
    case HumanGate => IsHumanGateReason(s.stop) && OldHumanStopOk(s)
    case WaitingEvent => s.stop.NoStop? && kind.WaitForEvent?
    case Complete =>
      && s.stop.NoStop? && kind.NoAction? && !OldUnfinished(s.slices)
      && if s.mode.ReleaseTrain? then s.train.publication.Published? && s.checkpoint.state.Recorded?
         else s.train.publication.Unpublished? && s.checkpoint.state.NotDue?
    case PhasePlanned | PhaseActive => s.stop.NoStop? && !kind.WaitForEvent? && !kind.NoAction?
  }

  function OldExpectedNext(s: OldState): Option<NextType> {
    match s.phase
    case HumanGate | PhaseBlocked => Some(UserActionRequired)
    case WaitingEvent => Some(WaitEvent)
    case Complete => Some(CampaignComplete)
    case PhasePlanned | PhaseActive =>
      match OldActionLevel(s.pending.kind)
      case None => None
      case Some(level) =>
        if !s.continuation.Sequential? || level > AuthorityLevel(s.authority) then None else Some(AutoContinue)
  }

  predicate OldValidTexts(s: OldState) {
    && IsLine(s.campaignId, 100) && (s.pending.sliceId == NONE || IsLine(s.pending.sliceId, 100))
    && IsLine(s.next.summary, 300) && IsLine(s.next.prompt, 2000)
  }

  predicate OldProfileOk(s: OldState) {
    && s.repository == "gabned/provelume"
    && (s.risk.NoProduction? || s.risk.PublicArtifact?) && !s.authority.ThroughProductionB?
    && (s.workstream.Protocol? ==> s.risk.NoProduction? && AuthorityLevel(s.authority) <= AuthorityLevel(ThroughMerge))
  }

  predicate OldValid(s: OldState, extra: set<char>) {
    && s.schemaVersion == 1 && s.protocolVersion == "1.4.0" && OldProfileOk(s)
    && IsIssueWith(s.ownerIssue, extra) && OldEventRef(s.observedRef, extra) && OldValidTexts(s)
    && OldObserved(s.observed) && OldKind(s.pending.kind)
    && OldValidCheckpoint(s.checkpoint, extra) && OldValidInbox(s.inbox, extra)
    && OldValidTrain(s.train, extra) && OldValidSlices(s.slices, s.mode, extra)
    && (s.observed.InitialAuthorization? ==> s.observedRef == s.ownerIssue)
    && OldSliceActionOk(s) && OldReleaseActionOk(s) && OldPhaseOk(s)
    && (s.checkpoint.state.Recorded? ==> s.checkpoint.reference == s.ownerIssue)
    && OldExpectedNext(s) == Some(s.next.nextType)
    && (s.next.nextType.UserActionRequired? <==> s.next.prompt != NONE)
  }

  // ------------------------------------------------ migration

  function MergedWith(slices: seq<OldSlice>, merge: string): seq<OldSlice> {
    if slices == [] then []
    else (if slices[0].merge == merge then [slices[0]] else []) + MergedWith(slices[1..], merge)
  }

  /** The head of the last slice that has one, else the train's build. */
  function LastHead(slices: seq<OldSlice>, build: string): string {
    if slices == [] then build
    else if slices[|slices| - 1].head != NONE then slices[|slices| - 1].head
    else LastHead(slices[..|slices| - 1], build)
  }

  /** The real event an old campaign's observed reference must have been. */
  function InferEvent(s: OldState): Option<Event> {
    var ref, repo := s.observedRef, s.repository;
    if IsIssue(ref) then
      var action := if s.observed.SliceCancelled? then ActClosed else ActOpened;
      Some(Event(Issue, action, repo, ref, NONE, Some(ConNotApplicable)))
    else if IsSha(ref) then
      var merged := MergedWith(s.slices, ref);
      if s.observed.PrMerged? && |merged| == 1 then
        Some(Event(PullRequest, ActMerged, repo, merged[0].pr, ref, Some(ConNotApplicable)))
      else Some(Event(Commit, ActCreated, repo, ref, ref, Some(ConNotApplicable)))
    else if IsRun(ref) then
      var build := LastHead(s.slices, s.train.build);
      if build == NONE then None
      else Some(Event(WorkflowRun, ActCompleted, repo, ref, build, Some(ConUnknown)))
    else if StartsWith(ref, "release:v") then
      if s.train.build == NONE then None
      else Some(Event(Release, ActPublished, repo, ref, s.train.build, Some(ConNotApplicable)))
    else None
  }

  function ProjectSlice(s: OldSlice): Slice {
    Slice(s.id, s.state, s.issue,
          if s.pr == NONE then []
          else [PrEntry(1, Owner, s.pr, if s.merge != NONE then PrIsMerged else PrIsOpen, s.head, s.merge)])
  }

  function ProjectTrain(t: OldTrain): Train {
    Train(t.trainId, t.targetVersion, t.publication, t.publishedVersion,
          if t.publication.Unpublished? then NONE else t.build, NONE,
          if t.publication.Published? then t.build else NONE,
          Upstream(NONE, NONE, NONE, NotApplicable))
  }

  /** Old actions that rested on a success the old evidence cannot show. */
  predicate NeedsFreshEvidence(s: OldState) {
    || (s.observed.GatesPassed? && s.pending.kind.MergeActiveSlice?)
    || ((s.observed.ReleaseVerified? || s.observed.ProductionVerified?) && s.pending.kind.RecordCheckpoint?)
  }

  const WAIT_FOR := "Wait for a new exact-head successful "
  const BEFORE_CONTINUING := "workflow event before continuing."
  const WAIT_SUMMARY := WAIT_FOR + BEFORE_CONTINUING

  function ProjectState(s: OldState): State {
    var waits := NeedsFreshEvidence(s);
    State(2, "1.4.1", s.repository, s.campaignId, s.ownerIssue, s.mode,
          if waits then WaitingEvent else s.phase, s.workstream, s.authority, s.risk, GithubArtifact,
          s.continuation, s.checkpoint, s.inbox, ProjectTrain(s.train),
          seq(|s.slices|, i requires 0 <= i < |s.slices| => ProjectSlice(s.slices[i])),
          s.observed, s.observedRef,
          if waits then PendingAction(WaitForEvent, NONE) else s.pending,
          if waits then NoStop else s.stop,
          if waits then NextAction(WaitEvent, WAIT_SUMMARY, NONE) else s.next)
  }

  /** The result and event of a migration, when the source is accepted and projects onto an accepted state. */
  function Project(s: OldState, extra: set<char>): Option<(State, Event)> {
    var event := InferEvent(s);
    if !OldValid(s, extra) || !ValidState(ProjectState(s)) || event.None? || !ValidEvent(event.value, false, true)
    then None
    else Some((ProjectState(s), event.value))
  }
}
