/** Losing a publication: exactly which published campaigns accept a receipt that takes it back. */
module Retraction {
  import opened Basics
  import opened Text
  import opened CampaignState
  import opened CampaignRules
  import opened Events
  import opened Receipts
  import opened Steps
  import opened ChainTheorems
  import opened Append
  import opened Frames
  import opened Initialization
  import opened Ideas

  /** The published state, taken back to a candidate that waits. */
  function Retracted(s: State): State {
    s.(observed := ReleasePublished, observedRef := s.ownerIssue, phase := WaitingEvent,
       pending := PendingAction(WaitForEvent, NONE), stop := NoStop, next := NextAction(WaitEvent, "Wait.", NONE),
       train := s.train.(publication := Candidate, publishedVersion := NONE, publishedBuild := NONE))
  }

  lemma RetractedTrain(t: Train, profile: ReleaseProfile)
    requires ValidTrain(t, profile) && t.publication.Published?
    ensures ValidTrain(t.(publication := Candidate, publishedVersion := NONE, publishedBuild := NONE), profile)
  {
    hide IsSemver, IsLine, IsSha, IsRepository;
  }

  lemma RetractedActions(s: State)
    ensures var t := Retracted(s);
      && SliceActionOk(t) && ReleaseActionOk(t) && DeployActionOk(t) && PhaseOk(t)
      && ExpectedNext(t) == Some(t.next.nextType)
  {
    hide First, Has, Unfinished, Contains;
  }

  lemma RetractedTexts(s: State)
    requires IsIssue(s.ownerIssue) && IsLine(s.campaignId, 100)
    ensures IsEventRef(Retracted(s).observedRef) && ValidTexts(Retracted(s))
  {
    hide IsIssue, IsSha, IsRun, IsDeployment, IsReleaseRef;
  }

  lemma PublishedParts(s: State)
    requires ValidState(s)
    ensures ValidTrain(s.train, s.profile) && IsIssue(s.ownerIssue) && IsLine(s.campaignId, 100)
  {
    hide SliceActionOk, ReleaseActionOk, DeployActionOk, PhaseOk, ExpectedNext, ValidInbox, ValidTrain, ValidSlices;
    hide ValidCheckpoint, IsIssue, IsEventRef, IsLine, ProfileOf;
  }

  lemma RetractedIsValid(s: State)
    requires ValidState(s) && s.train.publication.Published?
    ensures ValidState(Retracted(s))
  {
    PublishedParts(s);
    RetractedTrain(s.train, s.profile);
    RetractedActions(s);
    RetractedTexts(s);
    hide SliceActionOk, ReleaseActionOk, DeployActionOk, PhaseOk, ExpectedNext, ValidInbox, ValidTrain, ValidSlices;
    hide ValidCheckpoint, IsIssue, IsEventRef, ValidTexts, ProfileOf;
  }

  lemma RetractionFits(s: State)
    ensures TrainFits(s.train, Retracted(s).train, ReleasePublished)
  {
    hide UpstreamJson;
    var t := Retracted(s);
    forall f | f in TrainJson(s.train).fields && ["train", f] !in TrainItems(ReleasePublished)
      ensures f in TrainJson(t.train).fields && TrainJson(s.train).fields[f] == TrainJson(t.train).fields[f]
    {
      PublishedFieldsMove(f);
    }
  }

  lemma PublishedFieldsMove(f: string)
    requires ["train", f] !in TrainItems(ReleasePublished)
    ensures f !in {"publication_state", "published_version", "published_build_sha"}
  {
  }

  lemma IdeaRetracts(s: State, reference: string)
    requires ValidState(s) && s.train.publication.Published? && reference in s.inbox.items
    requires ValidEvent(IdeaEvent(s, reference), true, false)
    ensures ValidTransition(s, Retracted(s), IdeaEvent(s, reference))
    ensures Bound(Retracted(s), IdeaEvent(s, reference), true)
  {
    hide ValidState, ValidEvent, ValidTransition, TrainFits;
    RetractedIsValid(s);
    RetractionFits(s);
    TrainEventTransits(s, Retracted(s), IdeaEvent(s, reference));
  }

  /** The idea is in the inbox, fits an event, and no receipt carries it. */
  ghost predicate Unspent(p: Campaign, idea: string) {
    idea in p.state.inbox.items && |idea| <= 120 && !UsedBefore(p, IdeaEvent(p.state, idea))
  }

  ghost predicate Retracts(p: Campaign, s: Campaign, e: Event) {
    AppendResult(p, s, e).Some? && !s.state.train.publication.Published?
  }

  lemma RetractionNeedsIdea(p: Campaign, s: Campaign, e: Event)
    requires ValidCampaign(p) && p.state.train.publication.Published? && Retracts(p, s, e)
    ensures Unspent(p, e.reference)
  {
    hide ValidState, ValidChain, ValidEvent, ValidTransition, Bound, Extended, Observes;
    NotEmpty(p);
    WeakerEvent(e, false);
    assert Step(p.state, s.state, e);
    if ExtendsInbox(p.state, s.state, e) || Observes(s.state, e) {
      PublishedStays(p.state, s.state, e);
      assert false;
    }
    ObservesOrIdea(p.state, s.state, e);
    EventLine(e);
    TransitionKeeps(p.state, s.state, e);
    assert Identity(IdeaEvent(p.state, e.reference)) == Identity(e);
  }

  lemma EventLine(e: Event)
    requires ValidEvent(e, true, false)
    ensures |e.reference| <= 120
  {
    hide IsRepository, ReferenceFitsKind, ConclusionFits;
  }

  lemma UnspentRetracts(p: Campaign, idea: string)
    requires ValidCampaign(p) && p.state.train.publication.Published? && Unspent(p, idea)
    ensures Retracts(p, Campaign(Retracted(p.state), p.receipts), IdeaEvent(p.state, idea))
  {
    hide ValidState, ValidChain, ValidEvent, ValidTransition, Bound, Extended, IsRepository, IsIssue, Retracted;
    var s, e := p.state, IdeaEvent(p.state, idea);
    OwnerAndProfile(s);
    ProfileIsRepository(s.repository);
    InboxIssue(s, idea);
    IdeaEventIsValid(s, idea, false);
    IdeaEventIsValid(s, idea, true);
    IdeaRetracts(s, idea);
    NotEmpty(p);
    RetractedIsCandidate(s);
  }

  lemma RetractedIsCandidate(s: State)
    ensures Retracted(s).train.publication.Candidate?
  {
  }

  lemma InboxIssue(s: State, idea: string)
    requires ValidState(s) && idea in s.inbox.items
    ensures IsIssue(idea)
  {
    InboxOf(s);
    hide ValidState, IsIssue;
  }

  /**
   * A published campaign can lose its publication exactly when its inbox holds an idea whose event no receipt carries.
   */
  lemma RetractsExactly(p: Campaign)
    requires ValidCampaign(p) && p.state.train.publication.Published?
    ensures (exists s, e :: Retracts(p, s, e)) <==> exists idea | idea in p.state.inbox.items :: Unspent(p, idea)
  {
    hide ValidCampaign, Retracts, UsedBefore;
    if s, e :| Retracts(p, s, e) { RetractionNeedsIdea(p, s, e); }
    if idea :| idea in p.state.inbox.items && Unspent(p, idea) { UnspentRetracts(p, idea); }
  }
}
