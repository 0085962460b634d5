/** The rules one campaign state must satisfy, and the loops that check them. */
module CampaignRules {
  import opened Basics
  import opened Text
  import opened CampaignState

  datatype RepositoryProfile = RepositoryProfile(
    releaseProfile: ReleaseProfile, ceiling: Authority, upstream: string, risks: set<Risk>)

  function ProfileOf(repository: string): Option<RepositoryProfile> {
    if repository == "gabned/provelume" then
      Some(RepositoryProfile(GithubArtifact, ThroughRelease, NONE, {NoProduction, PublicArtifact}))
    else if repository == "brickms/brickms" then
      Some(RepositoryProfile(CodeOnlyProductionB, ThroughProductionB, NONE, {NoProduction, ReversibleProduction}))
    else if repository == "maxithlon/maxithlon" then
      Some(RepositoryProfile(DeploymentLevelC, ThroughProductionB, NONE,
                             {NoProduction, ReversibleProduction, CriticalProduction}))
    else if repository == "gabned/provelume.com" then
      Some(RepositoryProfile(UpstreamReleaseVerified, ThroughProductionB, "gabned/provelume",
                             {NoProduction, ReversibleProduction}))
    else None
  }

  function AuthorityLevel(a: Authority): nat {
    match a
    case SourceOnly => 0
    case ThroughMerge => 1
    case ThroughRelease => 2
    case ThroughProductionB => 3
  }

  function ActionLevel(kind: ActionKind): Option<nat> {
    match kind
    case StartNextSlice | ContinueActiveSlice | VerifyUpstreamRelease | VerifyProduction | RecordCheckpoint => Some(0)
    case MergeActiveSlice | PrepareRelease => Some(1)
    case PublishRelease | VerifyRelease => Some(2)
    case DeployProductionB => Some(3)
    case DeployProductionC => Some(4)
    case WaitForEvent | NoAction => None
  }

  predicate ValidCheckpoint(c: Checkpoint) {
    && c.policy == "RELEASE_BOUNDARY" && IsIssueOrNone(c.reference)
    && (c.state.Recorded? <==> c.reference != NONE)
  }

  predicate ValidInbox(inbox: IdeaInbox) {
    && inbox.mode == "GITHUB_ISSUES_ONLY" && inbox.scope == "FROZEN_UNTIL_RELEASE_BOUNDARY"
    && (forall item | item in inbox.items :: IsIssue(item)) && Distinct(inbox.items)
  }

  predicate ValidUpstream(u: Upstream) {
    match u.verification
    case NotApplicable => u.repository == u.publishedVersion == u.publishedBuild == NONE
    case Pending => IsRepository(u.repository) && u.publishedVersion == u.publishedBuild == NONE
    case Verified => IsRepository(u.repository) && IsSemver(u.publishedVersion) && IsSha(u.publishedBuild)
  }

  /** What the publication state says about the version and the builds. */
  predicate PublicationOk(t: Train) {
    match t.publication
    case Unpublished => t.publishedVersion == t.candidateBuild == t.publishedBuild == NONE
    case Candidate => t.candidateBuild != NONE && t.publishedVersion == t.publishedBuild == NONE
    case Published =>
      t.candidateBuild != NONE && t.publishedVersion == t.targetVersion && t.publishedBuild == t.candidateBuild
  }

  predicate TrainFitsProfile(t: Train, profile: ReleaseProfile) {
    match profile
    case GithubArtifact => t.deployedBuild == NONE && t.upstream.verification.NotApplicable?
    case CodeOnlyProductionB | DeploymentLevelC => !t.publication.Published? && t.upstream.verification.NotApplicable?
    case UpstreamReleaseVerified => !t.publication.Published? && !t.upstream.verification.NotApplicable?
  }

  predicate ValidTrain(t: Train, profile: ReleaseProfile) {
    && IsLine(t.trainId, 100) && IsSemver(t.targetVersion)
    && IsShaOrNone(t.candidateBuild) && IsShaOrNone(t.deployedBuild) && IsShaOrNone(t.publishedBuild)
    && (t.publishedVersion == NONE || IsSemver(t.publishedVersion))
    && t.trainId !in [t.targetVersion, t.publishedVersion, t.candidateBuild, t.deployedBuild, t.publishedBuild]
    && PublicationOk(t) && ValidUpstream(t.upstream) && TrainFitsProfile(t, profile)
    && (t.deployedBuild == NONE || t.deployedBuild == t.candidateBuild)
  }

  // ------------------------------------------------ pull-request ledgers

  predicate ValidEntry(e: PrEntry) {
    && IsIssue(e.pr) && IsSha(e.head) && IsShaOrNone(e.merge)
    && (e.state.PrIsMerged? <==> e.merge != NONE)
  }

  predicate ValidLedger(ledger: Ledger) {
    forall i | 0 <= i < |ledger| ::
      && ledger[i].sequence == i + 1 && (ledger[i].role.Owner? <==> i == 0)
      && ValidEntry(ledger[i])
      && (ledger[i].state.PrIsOpen? ==> i == |ledger| - 1)
      && forall j | 0 <= j < i :: ledger[j].pr != ledger[i].pr
  }

  method CheckLedger(ledger: Ledger) returns (ok: bool)
    ensures ok <==> ValidLedger(ledger)
  {
    var seen: set<string> := {};
    var openSeen := false;
    for i := 0 to |ledger|
      invariant seen == set k | 0 <= k < i :: ledger[k].pr
      invariant openSeen ==> i == |ledger|
      invariant ValidLedger(ledger[..i]) || (openSeen && i == |ledger|)
      invariant forall k | 0 <= k < i ::
        && ledger[k].sequence == k + 1 && (ledger[k].role.Owner? <==> k == 0) && ValidEntry(ledger[k])
        && (ledger[k].state.PrIsOpen? ==> k == |ledger| - 1)
        && forall j | 0 <= j < k :: ledger[j].pr != ledger[k].pr
    {
      var entry := ledger[i];
      if entry.sequence != i + 1 { return false; }
      if (i == 0 && !entry.role.Owner?) || (i > 0 && !entry.role.Correction?) { return false; }
      if !IsIssue(entry.pr) || entry.pr in seen { return false; }
      seen := seen + {entry.pr};
      if !IsSha(entry.head) || !IsShaOrNone(entry.merge) { return false; }
      if entry.state.PrIsMerged? && entry.merge == NONE { return false; }
      if !entry.state.PrIsMerged? && entry.merge != NONE { return false; }
      if entry.state.PrIsOpen? {
        if openSeen || i + 1 != |ledger| { return false; }
        openSeen := true;
      }
    }
    return true;
  }

  predicate HasOpen(ledger: Ledger) { |ledger| > 0 && ledger[|ledger| - 1].state.PrIsOpen? }

  /** How one ledger may continue another across one receipt. */
  predicate ValidHistory(before: Ledger, after: Ledger) {
    && ValidLedger(before) && ValidLedger(after)
    && |before| <= |after| <= |before| + 1
    && (before == [] ==> after != [] ==> after[0].state.PrIsOpen?)
    && (HasOpen(before) ==>
          && |after| == |before| && after[..|before| - 1] == before[..|before| - 1]
          && var was, now := before[|before| - 1], after[|before| - 1];
          && now.sequence == was.sequence && now.role == was.role && now.pr == was.pr
          && (now.state.PrIsOpen? || now.head == was.head))
    && (before != [] && !HasOpen(before) ==>
          && after[..|before|] == before
          && (|after| == |before| + 1 ==> HasOpen(after)))
  }

  // ------------------------------------------------ slices

  predicate Terminal(s: SliceState) { s.Merged? || s.Cancelled? }

  predicate ActiveLike(s: SliceState) { s.Active? || s.Blocked? }

  predicate ValidSlice(s: Slice) {
    && IsLine(s.id, 100) && IsSliceId(s.id) && IsIssueOrNone(s.issue) && ValidLedger(s.ledger)
    && (s.state.Planned? ==> s.ledger == [])
    && (!s.state.Planned? ==> s.issue != NONE)
    && (s.state.Merged? ==> s.ledger != [] && s.ledger[|s.ledger| - 1].state.PrIsMerged?)
    && (s.state.Cancelled? ==> forall e | e in s.ledger :: e.state.PrIsClosed?)
  }

  /** Two slices in order: at most one active, at most one open pull request, terminal ones first. */
  predicate InOrder(a: Slice, b: Slice) {
    && a.id != b.id
    && (Terminal(b.state) ==> Terminal(a.state))
    && (ActiveLike(b.state) ==> !a.state.Planned? && !ActiveLike(a.state))
    && !(HasOpen(a.ledger) && HasOpen(b.ledger))
  }

  predicate ValidSlices(slices: seq<Slice>, mode: Mode) {
    && slices != [] && (mode.SingleSlice? ==> |slices| == 1)
    && (forall i | 0 <= i < |slices| :: ValidSlice(slices[i]))
    && forall i, j | 0 <= i < j < |slices| :: InOrder(slices[i], slices[j])
  }

  function OpenCount(ledger: Ledger): nat {
    if ledger == [] then 0 else OpenCount(ledger[..|ledger| - 1]) + if HasOpen(ledger) then 1 else 0
  }

  lemma {:induction false} OpenCountOfValid(ledger: Ledger)
    requires forall i | 0 <= i < |ledger| - 1 :: !ledger[i].state.PrIsOpen?
    ensures OpenCount(ledger) == if HasOpen(ledger) then 1 else 0
  {
    if ledger != [] { OpenCountOfValid(ledger[..|ledger| - 1]); }
  }

  method CheckSlice(item: Slice) returns (ok: bool, opens: nat)
    ensures ok <==> ValidSlice(item)
    ensures ok ==> opens == if HasOpen(item.ledger) then 1 else 0
  {
    opens := OpenCount(item.ledger);
    if !IsLine(item.id, 100) || !IsSliceId(item.id) || !IsIssueOrNone(item.issue) { return false, opens; }
    var ledgerOk := CheckLedger(item.ledger);
    if !ledgerOk { return false, opens; }
    OpenCountOfValid(item.ledger);
    if item.state.Planned? && item.ledger != [] { return false, opens; }
    if ActiveLike(item.state) && item.issue == NONE { return false, opens; }
    if item.state.Merged?
       && (item.issue == NONE || item.ledger == [] || !item.ledger[|item.ledger| - 1].state.PrIsMerged?) {
      return false, opens;
    }
    if item.state.Cancelled? && (item.issue == NONE || exists e | e in item.ledger :: !e.state.PrIsClosed?) {
      return false, opens;
    }
    return true, opens;
  }

  /** The order rules other than the two counts. */
  predicate Follows(a: Slice, b: Slice) {
    && a.id != b.id && (Terminal(b.state) ==> Terminal(a.state))
    && (ActiveLike(b.state) ==> !a.state.Planned?)
  }

  ghost predicate FollowsAll(slices: seq<Slice>, i: nat)
    requires i < |slices|
  {
    forall k | 0 <= k < i :: Follows(slices[k], slices[i])
  }

  ghost predicate GoodUpTo(slices: seq<Slice>, n: nat)
    requires n <= |slices|
  {
    n == 0 || (GoodUpTo(slices, n - 1) && ValidSlice(slices[n - 1]) && FollowsAll(slices, n - 1))
  }

  lemma {:induction false} GoodUpToAll(slices: seq<Slice>, n: nat)
    requires n <= |slices|
    ensures GoodUpTo(slices, n) <==>
      && (forall i | 0 <= i < n :: ValidSlice(slices[i]))
      && forall i, j | 0 <= i < j < n :: Follows(slices[i], slices[j])
  {
    if n > 0 { GoodUpToAll(slices, n - 1); }
  }

  lemma NotGood(slices: seq<Slice>, mode: Mode, n: nat)
    requires n <= |slices| && !GoodUpTo(slices, n)
    ensures !ValidSlices(slices, mode)
  {
    GoodUpToAll(slices, n);
    if ValidSlices(slices, mode) {
      forall i, j | 0 <= i < j < n ensures Follows(slices[i], slices[j]) {
        assert InOrder(slices[i], slices[j]);
      }
      assert false;
    }
  }

  /** How many of the first `n` slices satisfy `p`. */
  ghost function Count(p: Slice -> bool, slices: seq<Slice>, n: nat): nat
    requires n <= |slices|
  {
    if n == 0 then 0 else Count(p, slices, n - 1) + if p(slices[n - 1]) then 1 else 0
  }

  lemma {:induction false} CountAtMostOne(p: Slice -> bool, slices: seq<Slice>, n: nat)
    requires n <= |slices|
    ensures Count(p, slices, n) == 0 <==> forall k | 0 <= k < n :: !p(slices[k])
    ensures Count(p, slices, n) <= 1 <==> forall k, l | 0 <= k < l < n :: !(p(slices[k]) && p(slices[l]))
  {
    if n > 0 { CountAtMostOne(p, slices, n - 1); }
  }

  /** The flags and the two counts together say what the pairwise rules say. */
  lemma CountsDecide(slices: seq<Slice>, mode: Mode, active: Slice -> bool, open: Slice -> bool)
    requires slices != [] && (mode.SingleSlice? ==> |slices| == 1) && GoodUpTo(slices, |slices|)
    requires forall s :: active(s) == ActiveLike(s.state) && open(s) == HasOpen(s.ledger)
    ensures ValidSlices(slices, mode) <==> Count(active, slices, |slices|) <= 1 && Count(open, slices, |slices|) <= 1
  {
    GoodUpToAll(slices, |slices|);
    CountAtMostOne(active, slices, |slices|);
    CountAtMostOne(open, slices, |slices|);
    if Count(active, slices, |slices|) <= 1 && Count(open, slices, |slices|) <= 1 {
      forall i, j | 0 <= i < j < |slices| ensures InOrder(slices[i], slices[j]) {
        assert Follows(slices[i], slices[j]);
      }
    }
    if ValidSlices(slices, mode) {
      forall i, j | 0 <= i < j < |slices|
        ensures !(active(slices[i]) && active(slices[j])) && !(open(slices[i]) && open(slices[j]))
      {
        assert InOrder(slices[i], slices[j]);
      }
    }
  }

  /** What the pass remembers of the first `n` slices. */
  ghost predicate Remembers(slices: seq<Slice>, n: nat, identifiers: set<string>, nonterminalSeen: bool,
        plannedSeen: bool)
    requires n <= |slices|
  {
    && identifiers == (set k | 0 <= k < n :: slices[k].id)
    && (nonterminalSeen <==> exists k | 0 <= k < n :: !Terminal(slices[k].state))
    && (plannedSeen <==> exists k | 0 <= k < n :: slices[k].state.Planned?)
  }

  lemma RemembersNext(slices: seq<Slice>, n: nat, identifiers: set<string>, nonterminalSeen: bool, plannedSeen: bool)
    requires n < |slices| && Remembers(slices, n, identifiers, nonterminalSeen, plannedSeen)
    ensures var item := slices[n];
      && Remembers(slices, n + 1, identifiers + {item.id},
                   nonterminalSeen || !Terminal(item.state), plannedSeen || item.state.Planned?)
      && (FollowsAll(slices, n) <==>
            item.id !in identifiers && !(Terminal(item.state) && nonterminalSeen)
            && !(ActiveLike(item.state) && plannedSeen))
  {
  }

  /** The checks of one slice against what the loop remembers of the slices before it. */
  method CheckNext(item: Slice, identifiers: set<string>, nonterminalSeen: bool, plannedSeen: bool)
    returns (ok: bool, opens: nat)
    ensures ok <==>
      && ValidSlice(item) && item.id !in identifiers
      && !(Terminal(item.state) && nonterminalSeen) && !(ActiveLike(item.state) && plannedSeen)
    ensures ok ==> opens == if HasOpen(item.ledger) then 1 else 0
  {
    hide ValidSlice, HasOpen;
    ok, opens := CheckSlice(item);
    if !ok || item.id in identifiers { return false, 0; }
    if Terminal(item.state) && nonterminalSeen { return false, 0; }
    if ActiveLike(item.state) && plannedSeen { return false, 0; }
  }

  /** One pass with flags and counters decides the pairwise rules. */
  method CheckSlices(slices: seq<Slice>, mode: Mode) returns (ok: bool)
    ensures ok <==> ValidSlices(slices, mode)
  {
    if slices == [] || (mode.SingleSlice? && |slices| != 1) { return false; }
    hide ValidSlices, ValidSlice, HasOpen, Remembers;
    var identifiers: set<string> := {};
    var nonterminalSeen, plannedSeen := false, false;
    var activeLike, openPrs: nat := 0, 0;
    ghost var active, open := (s: Slice) => ActiveLike(s.state), (s: Slice) => HasOpen(s.ledger);
    RemembersNothing(slices);
    for i := 0 to |slices|
      invariant Remembers(slices, i, identifiers, nonterminalSeen, plannedSeen)
      invariant GoodUpTo(slices, i)
      invariant activeLike == Count(active, slices, i) && openPrs == Count(open, slices, i)
    {
      var item := slices[i];
      var itemOk, opens := CheckNext(item, identifiers, nonterminalSeen, plannedSeen);
      RemembersNext(slices, i, identifiers, nonterminalSeen, plannedSeen);
      if !itemOk {
        NotGood(slices, mode, i + 1);
        return false;
      }
      identifiers := identifiers + {item.id};
      openPrs := openPrs + opens;
      if ActiveLike(item.state) { activeLike := activeLike + 1; }
      nonterminalSeen := nonterminalSeen || !Terminal(item.state);
      plannedSeen := plannedSeen || item.state.Planned?;
    }
    CountsDecide(slices, mode, active, open);
    return activeLike <= 1 && openPrs <= 1;
  }

  lemma RemembersNothing(slices: seq<Slice>)
    ensures Remembers(slices, 0, {}, false, false)
  {
  }

  // ------------------------------------------------ the whole state

  /** The first slice in state `st`, or the length when there is none. */
  function First(slices: seq<Slice>, st: SliceState): (i: nat)
    ensures i <= |slices|
    ensures i < |slices| ==> slices[i].state == st
    ensures forall k | 0 <= k < i :: slices[k].state != st
  {
    if slices == [] || slices[0].state == st then 0 else 1 + First(slices[1..], st)
  }

  predicate Has(slices: seq<Slice>, st: SliceState) { First(slices, st) < |slices| }

  predicate Unfinished(slices: seq<Slice>) {
    Has(slices, Active) || Has(slices, Blocked) || Has(slices, Planned)
  }

  predicate IsSliceAction(kind: ActionKind) {
    kind.StartNextSlice? || kind.ContinueActiveSlice? || kind.MergeActiveSlice?
  }

  predicate IsReleaseAction(kind: ActionKind) { !IsSliceAction(kind) && !kind.WaitForEvent? && !kind.NoAction? }

  predicate ValidProfileBinding(s: State) {
    match ProfileOf(s.repository)
    case None => false
    case Some(p) =>
      && s.profile == p.releaseProfile && s.risk in p.risks
      && AuthorityLevel(s.authority) <= AuthorityLevel(p.ceiling)
      && (s.workstream.Protocol? ==>
          s.risk.NoProduction? && AuthorityLevel(s.authority) <= AuthorityLevel(ThroughMerge))
      && s.train.upstream.repository == p.upstream
  }

  /** The event that lets the first planned slice start. */
  predicate StartIsDue(s: State) {
    var i := First(s.slices, Planned);
    && !Has(s.slices, Active) && !Has(s.slices, Blocked) && i < |s.slices|
    && s.pending.sliceId == s.slices[i].id
    && if i == 0 then s.observed.InitialAuthorization?
       else
         var previous := s.slices[i - 1];
         if previous.state.Merged? then
           s.observed.PrMerged? && previous.ledger != []
             && s.observedRef == previous.ledger[|previous.ledger| - 1].merge
         else s.observed.SliceCancelled? && s.observedRef == previous.issue
  }

  predicate BindsActiveSlice(s: State) {
    var i := First(s.slices, Active);
    i < |s.slices| && s.pending.sliceId == s.slices[i].id
  }

  predicate MergeIsDue(s: State) {
    var i := First(s.slices, Active);
    && i < |s.slices| && HasOpen(s.slices[i].ledger) && s.observed.GatesPassed?
    && s.observedRef == s.slices[i].ledger[|s.slices[i].ledger| - 1].head
  }

  predicate SliceActionOk(s: State) {
    var kind, sliceId := s.pending.kind, s.pending.sliceId;
    && (if IsSliceAction(kind) then sliceId != NONE && Contains(s.next.summary, sliceId) else sliceId == NONE)
    && (kind.StartNextSlice? ==> StartIsDue(s))
    && (kind.ContinueActiveSlice? || kind.MergeActiveSlice? ==> BindsActiveSlice(s))
    && (kind.MergeActiveSlice? ==> MergeIsDue(s))
  }

  function ReleaseRefOf(version: string): string { "release:v" + version }

  predicate ReleaseActionOk(s: State) {
    var kind, train, publication := s.pending.kind, s.train, s.train.publication;
    && (IsReleaseAction(kind) ==> !Unfinished(s.slices))
    && (kind.PrepareRelease? || kind.PublishRelease? || kind.VerifyRelease? ==>
          s.profile.GithubArtifact? && s.workstream.Product? && s.risk.PublicArtifact?)
    && (kind.PrepareRelease? ==> publication.Unpublished?)
    && (kind.PublishRelease? ==>
          publication.Candidate? && s.observed.ReleaseCandidateMerged? && s.observedRef == train.candidateBuild)
    && (kind.VerifyRelease? ==>
          publication.Published? && s.observed.ReleasePublished?
            && s.observedRef == ReleaseRefOf(train.publishedVersion))
    && (kind.VerifyUpstreamRelease? ==> s.profile.UpstreamReleaseVerified? && train.upstream.verification.Pending?)
    && (kind.RecordCheckpoint? ==>
          s.checkpoint.state.Due? &&
          if s.profile.GithubArtifact? then
            publication.Published? && s.observed.ReleaseVerified?
              && s.observedRef == ReleaseRefOf(train.publishedVersion)
          else
            train.deployedBuild != NONE && s.observed.ProductionVerified? && s.observedRef == train.deployedBuild)
  }

  predicate DeployActionOk(s: State) {
    var kind, train := s.pending.kind, s.train;
    && (kind.DeployProductionB? ==>
          && (s.profile.CodeOnlyProductionB? || s.profile.UpstreamReleaseVerified?)
          && s.risk.ReversibleProduction? && train.publication.Candidate?
          && (s.profile.UpstreamReleaseVerified? ==> train.upstream.verification.Verified?))
    && (kind.DeployProductionC? ==>
          && s.profile.DeploymentLevelC? && s.risk.CriticalProduction? && train.publication.Candidate?
          && s.phase.HumanGate? && s.stop.LevelCAuthorization?)
    && (kind.VerifyProduction? ==>
          && !s.profile.GithubArtifact? && train.deployedBuild != NONE
          && s.observed.ProductionDeployed? && s.observedRef == train.deployedBuild)
  }

  predicate IsHumanGateReason(r: StopReason) {
    || r.AuthorityExhausted? || r.HumanDecisionRequired? || r.LevelCAuthorization? || r.MaterialRiskChanged?
    || r.ScopeChangeRequired? || r.PublicationNotAuthorized?
  }

  predicate IsBlockedReason(r: StopReason) {
    r.MaterialRiskChanged? || r.CriticalUnknown? || r.UnresolvedFinding? || r.ScopeChangeRequired? || r.GateFailure?
  }

  predicate HumanStopOk(s: State) {
    var kind, level, authority := s.pending.kind, ActionLevel(s.pending.kind), AuthorityLevel(s.authority);
    && (s.stop.AuthorityExhausted? ==> level.Some? && level.value > authority)
    && (s.stop.PublicationNotAuthorized? ==> kind.PublishRelease? && authority < AuthorityLevel(ThroughRelease))
    && (s.stop.LevelCAuthorization? ==> kind.DeployProductionC? && s.profile.DeploymentLevelC?)
  }

  predicate TrainComplete(s: State) {
    && (if s.profile.GithubArtifact? then s.train.publication.Published? else s.train.deployedBuild != NONE)
    && s.checkpoint.state.Recorded?
    && (s.profile.UpstreamReleaseVerified? ==> s.train.upstream.verification.Verified?)
  }

  predicate Unreleased(s: State) {
    && s.train.publication.Unpublished? && s.checkpoint.state.NotDue?
    && s.train.candidateBuild == s.train.deployedBuild == s.train.publishedBuild == NONE
  }

  predicate PhaseOk(s: State) {
    var kind := s.pending.kind;
    match s.phase
    case PhaseBlocked => IsBlockedReason(s.stop) && (Has(s.slices, Blocked) || IsReleaseAction(kind))
    case HumanGate => IsHumanGateReason(s.stop) && HumanStopOk(s)
    case WaitingEvent => s.stop.NoStop? && kind.WaitForEvent?
    case Complete =>
      && s.stop.NoStop? && kind.NoAction? && !Unfinished(s.slices)
      && if s.mode.ReleaseTrain? then TrainComplete(s) else Unreleased(s)
    case PhasePlanned | PhaseActive => s.stop.NoStop? && !kind.WaitForEvent? && !kind.NoAction?
  }

  /** The only next-action type the state admits, if it admits any. */
  function ExpectedNext(s: State): Option<NextType> {
    match s.phase
    case HumanGate | PhaseBlocked => Some(UserActionRequired)
    case WaitingEvent => Some(WaitEvent)
    case Complete => Some(CampaignComplete)
    case PhasePlanned | PhaseActive =>
      match ActionLevel(s.pending.kind)
      case None => None
      case Some(level) =>
        if s.pending.kind.DeployProductionC? || !s.continuation.Sequential? || level > AuthorityLevel(s.authority)
        then None else Some(AutoContinue)
  }

  predicate ValidTexts(s: State) {
    && IsLine(s.campaignId, 100) && (s.pending.sliceId == NONE || IsLine(s.pending.sliceId, 100))
    && IsLine(s.next.summary, 300) && IsLine(s.next.prompt, 2000)
  }

  predicate ValidState(s: State) {
    && s.schemaVersion == 2 && s.protocolVersion == "1.4.1"
    && IsIssue(s.ownerIssue) && IsEventRef(s.observedRef) && ValidTexts(s) && ValidProfileBinding(s)
    && ValidCheckpoint(s.checkpoint) && ValidInbox(s.inbox) && ValidTrain(s.train, s.profile)
    && ValidSlices(s.slices, s.mode)
    && (s.observed.InitialAuthorization? ==> s.observedRef == s.ownerIssue)
    && SliceActionOk(s) && ReleaseActionOk(s) && DeployActionOk(s) && PhaseOk(s)
    && (s.checkpoint.state.Recorded? ==> s.checkpoint.reference == s.ownerIssue)
    && ExpectedNext(s) == Some(s.next.nextType)
    && (s.next.nextType.UserActionRequired? <==> s.next.prompt != NONE)
  }

  /** A native schema-2 campaign starts without any effect. */
  predicate InitialStateOk(s: State) {
    && (s.phase.PhasePlanned? || s.phase.PhaseActive?)
    && s.observed.InitialAuthorization? && s.observedRef == s.ownerIssue && s.stop.NoStop?
    && s.pending.kind.StartNextSlice? && s.next.nextType.AutoContinue? && s.next.prompt == NONE
    && s.inbox.items == [] && s.checkpoint == Checkpoint("RELEASE_BOUNDARY", NotDue, NONE)
    && s.train.publication.Unpublished? && s.train.publishedVersion == NONE
    && s.train.candidateBuild == s.train.deployedBuild == s.train.publishedBuild == NONE
    && s.train.upstream.publishedVersion == s.train.upstream.publishedBuild == NONE
    && forall i | 0 <= i < |s.slices| :: s.slices[i].state.Planned? && s.slices[i].ledger == []
  }
}
