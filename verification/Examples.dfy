/** Concrete campaigns: one that runs from its start to publication, and the cases in which an append is refused. */
module Examples {
  import opened Basics
  import opened Text
  import opened StructuralDiff
  import opened CampaignState
  import opened CampaignRules
  import opened Events
  import opened Receipts
  import opened Steps
  import opened ChainTheorems
  import opened Append
  import opened Frames
  import opened Migration
  import opened Initialization
  import opened Ideas
  import opened Legacy
  import opened Retraction

  const REPOSITORY := "gabned/provelume"
  const VERSION := "1.0.0"
  const HEAD := Forty('a')
  const MERGE := Forty('b')
  const BUILD := Forty('c')

  function Forty(c: char): (s: string)
    ensures |s| == 40 && forall i | 0 <= i < 40 :: s[i] == c
  {
    seq(40, i => c)
  }

  // ------------------------------------------------ the pieces of a state

  function Upstreamless(): Upstream { Upstream(NONE, NONE, NONE, NotApplicable) }

  function EarlyTrain(): Train { Train("T1", VERSION, Unpublished, NONE, NONE, NONE, NONE, Upstreamless()) }

  function CandidateTrain(): Train { Train("T1", VERSION, Candidate, NONE, BUILD, NONE, NONE, Upstreamless()) }

  function PublishedTrain(): Train { Train("T1", VERSION, Published, VERSION, BUILD, NONE, BUILD, Upstreamless()) }

  function OpenEntry(): PrEntry { PrEntry(1, Owner, "#3", PrIsOpen, HEAD, NONE) }

  function MergedEntry(): PrEntry { PrEntry(1, Owner, "#3", PrIsMerged, HEAD, MERGE) }

  function PlannedSlice(): Slice { Slice("C/S01", Planned, NONE, []) }

  function StartedSlice(): Slice { Slice("C/S01", Active, "#2", []) }

  function OpenSlice(): Slice { Slice("C/S01", Active, "#2", [OpenEntry()]) }

  function MergedSlice(): Slice { Slice("C/S01", Merged, "#2", [MergedEntry()]) }

  /** A state of the one-slice campaign that goes on by itself. */
  function Stage(phase: Phase, o: Observed, ref: string, kind: ActionKind, slice: Slice, train: Train): State {
    State(2, "1.4.1", REPOSITORY, "C", "#1", ReleaseTrain, phase, Product, ThroughRelease, PublicArtifact,
          GithubArtifact, Sequential, Checkpoint("RELEASE_BOUNDARY", NotDue, NONE),
          IdeaInbox("GITHUB_ISSUES_ONLY", "FROZEN_UNTIL_RELEASE_BOUNDARY", []), train, [slice],
          o, ref, PendingAction(kind, if IsSliceAction(kind) then "C/S01" else NONE), NoStop,
          NextAction(AutoContinue, "C/S01", NONE))
  }

  function Start(): State {
    Stage(PhasePlanned, InitialAuthorization, "#1", StartNextSlice, PlannedSlice(), EarlyTrain())
  }

  function Started(): State {
    Stage(PhaseActive, SliceIssueOpened, "#2", ContinueActiveSlice, StartedSlice(), EarlyTrain())
  }

  function Opened(): State { Stage(PhaseActive, PrOpened, "#3", ContinueActiveSlice, OpenSlice(), EarlyTrain()) }

  function MergedUp(): State { Stage(PhaseActive, PrMerged, MERGE, PrepareRelease, MergedSlice(), EarlyTrain()) }

  function Proposed(): State {
    Stage(PhaseActive, ReleaseCandidateMerged, BUILD, PublishRelease, MergedSlice(), CandidateTrain())
  }

  function Released(): State {
    Stage(PhaseActive, ReleasePublished, ReleaseRefOf(VERSION), VerifyRelease, MergedSlice(), PublishedTrain())
  }

  // ------------------------------------------------ the pieces are valid

  lemma VersionIsSemver()
    ensures IsSemver(VERSION)
  {
    hide Find, Split;
    var v := VERSION;
    assert Find(v, '+') == 5 by { assert '+' !in v; }
    assert v[..5] == v;
    assert Find(v, '-') == 5 by { assert '-' !in v; }
    assert "1" + "." + "0.0" == v && "0" + "." + "0" == "0.0";
    SplitConcat("1", "0.0");
    SplitConcat("0", "0");
    SplitClean("1");
    SplitClean("0");
    assert Split(v) == ["1", "0", "0"];
  }

  lemma ShasAreShas()
    ensures IsSha(HEAD) && IsSha(MERGE) && IsSha(BUILD)
    ensures HEAD != NONE && MERGE != NONE && BUILD != NONE && HEAD[0] != 'T' && BUILD[0] != 'T'
  {
  }

  lemma ReleaseIsReference()
    ensures IsReleaseRef(ReleaseRefOf(VERSION)) && IsEventRef(ReleaseRefOf(VERSION))
  {
    VersionIsSemver();
    hide IsSemver;
    assert ReleaseRefOf(VERSION)[9..] == VERSION;
  }

  lemma IssuesAreIssues()
    ensures IsIssue("#1") && IsIssue("#2") && IsIssue("#3") && IsIssue("#9")
  {
  }

  lemma TrainsAreValid()
    ensures ValidTrain(EarlyTrain(), GithubArtifact) && ValidTrain(CandidateTrain(), GithubArtifact)
    ensures ValidTrain(PublishedTrain(), GithubArtifact)
  {
    VersionIsSemver();
    ShasAreShas();
    hide IsSemver, IsSha, IsRepository;
  }

  lemma SliceIdIsValid()
    ensures IsLine("C/S01", 100) && IsSliceId("C/S01")
  {
    var id := "C/S01";
    assert IsName(id[..1]) && id[1..] == "/S01" && IsSliceSuffix(id[1..]);
  }

  lemma EntriesAreValid()
    ensures ValidLedger([]) && ValidLedger([OpenEntry()]) && ValidLedger([MergedEntry()])
  {
    ShasAreShas();
    IssuesAreIssues();
    hide IsSha, IsIssue;
  }

  lemma SlicesAreValid()
    ensures ValidSlices([PlannedSlice()], ReleaseTrain) && ValidSlices([StartedSlice()], ReleaseTrain)
    ensures ValidSlices([OpenSlice()], ReleaseTrain) && ValidSlices([MergedSlice()], ReleaseTrain)
  {
    SliceIdIsValid();
    EntriesAreValid();
    IssuesAreIssues();
    hide IsLine, IsSliceId, ValidLedger, IsIssue;
  }

  // ------------------------------------------------ the states are valid

  predicate ActionsOk(s: State) { SliceActionOk(s) && ReleaseActionOk(s) && DeployActionOk(s) && PhaseOk(s) }

  lemma StageIsValid(phase: Phase, o: Observed, ref: string, kind: ActionKind, slice: Slice, train: Train)
    requires ValidSlices([slice], ReleaseTrain) && ValidTrain(train, GithubArtifact) && IsEventRef(ref)
    requires train.upstream == Upstreamless() && (o.InitialAuthorization? ==> ref == "#1")
    requires ActionsOk(Stage(phase, o, ref, kind, slice, train))
    requires ExpectedNext(Stage(phase, o, ref, kind, slice, train)) == Some(AutoContinue)
    ensures ValidState(Stage(phase, o, ref, kind, slice, train))
  {
    StageTexts(phase, o, ref, kind, slice, train);
    StageProfile(phase, o, ref, kind, slice, train);
    hide ValidSlices, ValidTrain, SliceActionOk, ReleaseActionOk, DeployActionOk, PhaseOk, ExpectedNext;
    hide IsEventRef, IsIssue, ValidTexts, ValidProfileBinding, ValidCheckpoint, ValidInbox;
  }

  lemma StageTexts(phase: Phase, o: Observed, ref: string, kind: ActionKind, slice: Slice, train: Train)
    ensures var s := Stage(phase, o, ref, kind, slice, train); ValidTexts(s) && IsIssue(s.ownerIssue)
  {
    IssuesAreIssues();
    hide IsIssue;
  }

  lemma StageProfile(phase: Phase, o: Observed, ref: string, kind: ActionKind, slice: Slice, train: Train)
    requires train.upstream == Upstreamless()
    ensures var s := Stage(phase, o, ref, kind, slice, train);
      ValidProfileBinding(s) && ValidCheckpoint(s.checkpoint) && ValidInbox(s.inbox)
  {
    hide IsIssue;
  }

  lemma FirstOf(slice: Slice)
    ensures forall st :: First([slice], st) == if slice.state == st then 0 else 1
  {
  }

  lemma SummaryNamesSlice()
    ensures Contains("C/S01", "C/S01")
  {
    var s := "C/S01";
    assert StartsWith(s[0..], s);
  }

  lemma EarlyActions()
    ensures ActionsOk(Start()) && ActionsOk(Started()) && ActionsOk(Opened())
  {
    FirstOf(PlannedSlice());
    FirstOf(StartedSlice());
    FirstOf(OpenSlice());
    SummaryNamesSlice();
    hide First, Contains;
  }

  lemma LateActions()
    ensures ActionsOk(MergedUp()) && ActionsOk(Proposed()) && ActionsOk(Released())
  {
    FirstOf(MergedSlice());
    hide First, Contains;
  }

  lemma ReferencesAreValid()
    ensures IsEventRef("#1") && IsEventRef("#2") && IsEventRef("#3") && IsEventRef(MERGE) && IsEventRef(BUILD)
  {
    IssuesAreIssues();
    ShasAreShas();
    hide IsIssue, IsSha, IsRun, IsDeployment, IsReleaseRef;
  }

  lemma EarlyStatesAreValid()
    ensures ValidState(Start()) && ValidState(Started()) && ValidState(Opened())
  {
    hide ValidState, ValidSlices, ValidTrain, ActionsOk, IsEventRef;
    TrainsAreValid();
    SlicesAreValid();
    EarlyActions();
    ReferencesAreValid();
    StageIsValid(PhasePlanned, InitialAuthorization, "#1", StartNextSlice, PlannedSlice(), EarlyTrain());
    StageIsValid(PhaseActive, SliceIssueOpened, "#2", ContinueActiveSlice, StartedSlice(), EarlyTrain());
    StageIsValid(PhaseActive, PrOpened, "#3", ContinueActiveSlice, OpenSlice(), EarlyTrain());
  }

  lemma MergedUpIsValid()
    ensures ValidState(MergedUp())
  {
    hide ValidState, ValidSlices, ValidTrain, ActionsOk, IsEventRef;
    TrainsAreValid();
    SlicesAreValid();
    LateActions();
    ReferencesAreValid();
    StageIsValid(PhaseActive, PrMerged, MERGE, PrepareRelease, MergedSlice(), EarlyTrain());
  }

  lemma ProposedIsValid()
    ensures ValidState(Proposed())
  {
    hide ValidState, ValidSlices, ValidTrain, ActionsOk, IsEventRef;
    TrainsAreValid();
    SlicesAreValid();
    LateActions();
    ReferencesAreValid();
    StageIsValid(PhaseActive, ReleaseCandidateMerged, BUILD, PublishRelease, MergedSlice(), CandidateTrain());
  }

  lemma ReleasedIsValid()
    ensures ValidState(Released())
  {
    hide ValidState, ValidSlices, ValidTrain, ActionsOk, IsEventRef, IsReleaseRef, ReleaseRefOf;
    TrainsAreValid();
    SlicesAreValid();
    LateActions();
    ReleaseIsReference();
    StageIsValid(PhaseActive, ReleasePublished, ReleaseRefOf(VERSION), VerifyRelease, MergedSlice(), PublishedTrain());
  }

  // ------------------------------------------------ the events

  function On(kind: EventKind, action: EventAction, reference: string, sha: string): Event {
    Event(kind, action, REPOSITORY, reference, sha, Some(ConNotApplicable))
  }

  function IssueOpened(): Event { On(Issue, ActOpened, "#2", NONE) }

  function RequestOpened(): Event { On(PullRequest, ActOpened, "#3", HEAD) }

  function RequestMerged(): Event { On(PullRequest, ActMerged, "#3", MERGE) }

  function CandidateMade(): Event { On(Commit, ActCreated, BUILD, BUILD) }

  function ReleaseMade(): Event { On(Release, ActPublished, ReleaseRefOf(VERSION), BUILD) }

  lemma ReferencesAreLines()
    ensures IsLine("#2", 120) && IsLine("#3", 120) && IsLine(BUILD, 120) && IsLine(ReleaseRefOf(VERSION), 120)
  {
    assert forall c | c in BUILD :: c == 'c';
  }

  /** An event with one exact reference and no outcome. */
  lemma PlainEventIsValid(e: Event, allowLegacy: bool)
    requires e.conclusion == Some(ConNotApplicable) && e.kind in {Issue, PullRequest, Commit, Release}
    requires IsRepository(e.repository) && IsLine(e.reference, 120) && IsShaOrNone(e.sha)
    requires ActionFitsKind(e.kind, e.action) && ReferenceFitsKind(e)
    ensures ValidEvent(e, allowLegacy, false)
  {
    hide IsRepository, IsLine, IsShaOrNone, ActionFitsKind, ReferenceFitsKind;
  }

  lemma SliceEventsAreValid(allowLegacy: bool)
    ensures ValidEvent(IssueOpened(), allowLegacy, false) && ValidEvent(RequestOpened(), allowLegacy, false)
    ensures ValidEvent(RequestMerged(), allowLegacy, false)
  {
    hide ValidEvent, IsRepository, IsLine, IsIssue, IsSha;
    CoreRepository();
    IssuesAreIssues();
    ShasAreShas();
    ReferencesAreLines();
    PlainEventIsValid(IssueOpened(), allowLegacy);
    PlainEventIsValid(RequestOpened(), allowLegacy);
    PlainEventIsValid(RequestMerged(), allowLegacy);
  }

  lemma TrainEventsAreValid(allowLegacy: bool)
    ensures ValidEvent(CandidateMade(), allowLegacy, false) && ValidEvent(ReleaseMade(), allowLegacy, false)
  {
    hide ValidEvent, IsRepository, IsLine, IsSha, IsReleaseRef, IsEventRef;
    CoreRepository();
    ShasAreShas();
    ReleaseIsReference();
    ReferencesAreLines();
    PlainEventIsValid(CandidateMade(), allowLegacy);
    PlainEventIsValid(ReleaseMade(), allowLegacy);
  }

  lemma OneSlice(s: State, t: State, e: Event)
    requires |s.slices| == |t.slices| == 1 && Touches(t.slices[0], e)
    ensures EventSlice(s, t, e) == Some(0)
  {
    hide Touches;
    assert 0 in TouchedSlices(t, e);
    assert TouchedSlices(s, e) + TouchedSlices(t, e) == {0};
  }

  lemma StartTransits()
    ensures ValidTransition(Start(), Started(), IssueOpened()) && Bound(Started(), IssueOpened(), true)
  {
    EarlyStatesAreValid();
    SliceEventsAreValid(true);
    hide ValidState, ValidEvent, ValidTransition, EventSlice;
    OneSlice(Start(), Started(), IssueOpened());
    SliceEventTransits(Start(), Started(), IssueOpened(), 0);
  }

  lemma OpenTransits()
    ensures ValidTransition(Started(), Opened(), RequestOpened())
  {
    EarlyStatesAreValid();
    SliceEventsAreValid(true);
    EntriesAreValid();
    hide ValidState, ValidEvent, ValidTransition, EventSlice, ValidLedger, Forty;
    assert Touches(OpenSlice(), RequestOpened()) by { assert OpenEntry() in OpenSlice().ledger; }
    OneSlice(Started(), Opened(), RequestOpened());
    assert ValidHistory([], [OpenEntry()]);
    hide ValidHistory, Touches;
    SliceEventTransits(Started(), Opened(), RequestOpened(), 0);
  }

  lemma OpenIsBound()
    ensures Bound(Opened(), RequestOpened(), true)
  {
    SliceEventsAreValid(true);
    OnlyEntry(OpenSlice());
    hide ValidEvent, AllEntries, Where, TheEntry, Forty;
  }

  lemma OnlyEntry(slice: Slice)
    requires |slice.ledger| == 1
    ensures AllEntries([slice]) == slice.ledger
    ensures forall p: PrEntry -> bool | p(slice.ledger[0]) :: TheEntry([slice], p) == Some(slice.ledger[0])
  {
    assert [slice][1..] == [];
    forall p: PrEntry -> bool | p(slice.ledger[0]) ensures Where(slice.ledger, p) == slice.ledger {
      assert Where(slice.ledger[1..], p) == [];
      assert slice.ledger == [slice.ledger[0]];
    }
  }

  lemma MergeTransits()
    ensures ValidTransition(Opened(), MergedUp(), RequestMerged())
  {
    EarlyStatesAreValid();
    MergedUpIsValid();
    SliceEventsAreValid(true);
    EntriesAreValid();
    hide ValidState, ValidEvent, ValidTransition, EventSlice, ValidLedger, Forty;
    assert Touches(MergedSlice(), RequestMerged()) by { assert MergedEntry() in MergedSlice().ledger; }
    OneSlice(Opened(), MergedUp(), RequestMerged());
    assert ValidHistory([OpenEntry()], [MergedEntry()]);
    hide ValidHistory, Touches;
    SliceEventTransits(Opened(), MergedUp(), RequestMerged(), 0);
  }

  lemma MergeIsBound()
    ensures Bound(MergedUp(), RequestMerged(), true)
  {
    SliceEventsAreValid(true);
    OnlyEntry(MergedSlice());
    hide ValidEvent, AllEntries, Where, TheEntry, Forty;
  }

  lemma CandidateTransits()
    ensures ValidTransition(MergedUp(), Proposed(), CandidateMade()) && Bound(Proposed(), CandidateMade(), true)
  {
    MergedUpIsValid();
    ProposedIsValid();
    TrainEventsAreValid(true);
    CandidateFits();
    hide ValidState, ValidEvent, ValidTransition, TrainFits;
    TrainEventTransits(MergedUp(), Proposed(), CandidateMade());
  }

  lemma CandidateFits()
    ensures TrainFits(EarlyTrain(), CandidateTrain(), ReleaseCandidateMerged)
  {
    forall f | f in TrainJson(EarlyTrain()).fields && ["train", f] !in TrainItems(ReleaseCandidateMerged)
      ensures f in TrainJson(CandidateTrain()).fields
      ensures TrainJson(EarlyTrain()).fields[f] == TrainJson(CandidateTrain()).fields[f]
    {
      assert f != "publication_state" && f != "candidate_build_sha";
    }
  }

  lemma ReleaseTransits()
    ensures ValidTransition(Proposed(), Released(), ReleaseMade()) && Bound(Released(), ReleaseMade(), true)
  {
    ProposedIsValid();
    ReleasedIsValid();
    TrainEventsAreValid(true);
    ReleaseFits();
    hide ValidState, ValidEvent, ValidTransition, TrainFits;
    TrainEventTransits(Proposed(), Released(), ReleaseMade());
  }

  lemma ReleaseFits()
    ensures TrainFits(CandidateTrain(), PublishedTrain(), ReleasePublished)
  {
    forall f | f in TrainJson(CandidateTrain()).fields && ["train", f] !in TrainItems(ReleasePublished)
      ensures f in TrainJson(PublishedTrain()).fields
      ensures TrainJson(CandidateTrain()).fields[f] == TrainJson(PublishedTrain()).fields[f]
    {
      assert f != "publication_state" && f != "published_version" && f != "published_build_sha";
    }
  }

  // ------------------------------------------------ the chain

  function Ids(c: Campaign): seq<EventId> { seq(|c.receipts|, i requires 0 <= i < |c.receipts| => IdAt(c, i)) }

  lemma IdsGrow(p: Campaign, t: State, e: Event)
    requires p.receipts != []
    ensures Ids(Extended(p, t, e)) == Ids(p) + [Identity(e)]
    ensures UsedBefore(p, e) <==> Identity(e) in Ids(p)
  {
    forall i | 0 <= i <= |p.receipts| { ExtendedIds(p, t, e, i); }
    if UsedBefore(p, e) {
      var i :| 0 <= i < |p.receipts| && IdAt(p, i) == Identity(e);
      assert Ids(p)[i] == Identity(e);
    }
  }

  /** One accepted append: a new event, bound to a state it may lead to. */
  lemma Grows(p: Campaign, t: State, e: Event)
    requires ValidCampaign(p) && p.state != t && Identity(e) !in Ids(p)
    requires ValidEvent(e, false, false) && ValidTransition(p.state, t, e) && Bound(t, e, true)
    ensures AppendResult(p, Campaign(t, p.receipts), e) == Some(Extended(p, t, e))
    ensures ValidCampaign(Extended(p, t, e)) && Extended(p, t, e).state == t
    ensures Ids(Extended(p, t, e)) == Ids(p) + [Identity(e)]
  {
    hide ValidState, ValidChain, ValidEvent, ValidTransition, Bound, Ids, UsedBefore;
    NotEmpty(p);
    IdsGrow(p, t, e);
    ExtendedState(p, t, e);
    AppendIsValid(p, Campaign(t, p.receipts), e);
  }

  function StartCampaign(): (c: Campaign)
    ensures c.receipts != []
  {
    Initialized(Start())
  }

  function StartedCampaign(): (c: Campaign)
    ensures c.receipts != []
  {
    Extended(StartCampaign(), Started(), IssueOpened())
  }

  function OpenedCampaign(): (c: Campaign)
    ensures c.receipts != []
  {
    Extended(StartedCampaign(), Opened(), RequestOpened())
  }

  function MergedCampaign(): (c: Campaign)
    ensures c.receipts != []
  {
    Extended(OpenedCampaign(), MergedUp(), RequestMerged())
  }

  function ProposedCampaign(): (c: Campaign)
    ensures c.receipts != []
  {
    Extended(MergedCampaign(), Proposed(), CandidateMade())
  }

  function ReleasedCampaign(): (c: Campaign)
    ensures c.receipts != []
  {
    Extended(ProposedCampaign(), Released(), ReleaseMade())
  }

  lemma StartIsValid()
    ensures ValidCampaign(StartCampaign()) && StartCampaign().state == Start()
    ensures Ids(StartCampaign()) == [Identity(AuthorizationOf(Start()))]
  {
    EarlyStatesAreValid();
    hide ValidState, ValidChain;
    InitializedIsValid(Start());
    assert |StartCampaign().receipts| == 1;
  }

  lemma StartedIsValid()
    ensures ValidCampaign(StartedCampaign()) && StartedCampaign().state == Started()
    ensures Ids(StartedCampaign()) == [Identity(AuthorizationOf(Start())), Identity(IssueOpened())]
  {
    hide ValidState, ValidChain, ValidEvent, ValidTransition, Bound, Ids, Extended, Initialized;
    StartIsValid();
    StartTransits();
    SliceEventsAreValid(false);
    Grows(StartCampaign(), Started(), IssueOpened());
  }

  lemma OpenedIsValid()
    ensures ValidCampaign(OpenedCampaign()) && OpenedCampaign().state == Opened()
    ensures Ids(OpenedCampaign())
         == [Identity(AuthorizationOf(Start())), Identity(IssueOpened()), Identity(RequestOpened())]
  {
    hide ValidState, ValidChain, ValidEvent, ValidTransition, Bound, Ids, Extended, StartedCampaign;
    StartedIsValid();
    OpenTransits();
    OpenIsBound();
    SliceEventsAreValid(false);
    Grows(StartedCampaign(), Opened(), RequestOpened());
  }

  lemma MergedIsValid()
    ensures ValidCampaign(MergedCampaign()) && MergedCampaign().state == MergedUp()
    ensures Ids(MergedCampaign())
         == [Identity(AuthorizationOf(Start())), Identity(IssueOpened()), Identity(RequestOpened()),
               Identity(RequestMerged())]
  {
    hide ValidState, ValidChain, ValidEvent, ValidTransition, Bound, Ids, Extended, OpenedCampaign;
    OpenedIsValid();
    MergeTransits();
    MergeIsBound();
    SliceEventsAreValid(false);
    Grows(OpenedCampaign(), MergedUp(), RequestMerged());
  }

  lemma ProposedIsValidCampaign()
    ensures ValidCampaign(ProposedCampaign()) && ProposedCampaign().state == Proposed()
    ensures Ids(ProposedCampaign()) == Ids(MergedCampaign()) + [Identity(CandidateMade())]
  {
    hide ValidState, ValidChain, ValidEvent, ValidTransition, Bound, Ids, Extended, MergedCampaign;
    MergedIsValid();
    CandidateTransits();
    TrainEventsAreValid(false);
    Grows(MergedCampaign(), Proposed(), CandidateMade());
  }

  lemma ReleasedIsValidCampaign()
    ensures ValidCampaign(ReleasedCampaign()) && ReleasedCampaign().state == Released()
  {
    hide ValidState, ValidChain, ValidEvent, ValidTransition, Bound, Ids, Extended, ProposedCampaign;
    MergedIsValid();
    ProposedIsValidCampaign();
    ReleaseTransits();
    TrainEventsAreValid(false);
    Grows(ProposedCampaign(), Released(), ReleaseMade());
  }

  lemma NativeThroughout(p: Campaign, t: State, e: Event)
    requires p.receipts != [] && StartsNatively(p)
    ensures StartsNatively(Extended(p, t, e)) && |Extended(p, t, e).receipts| == |p.receipts| + 1
  {
  }

  // ------------------------------------------------ what the chain shows

  /** A native campaign can reach a merged entry: the provenance of terminal entries is about something. */
  lemma MergedExample()
    ensures var c := MergedCampaign();
      && ValidCampaign(c) && StartsNatively(c) && |c.receipts| == 4
      && StateAt(c, 3) == MergedUp() && IsTerminalAt(StateAt(c, 3), 0, 0)
  {
    hide ValidState, ValidChain, Extended, Ids, StateAfter;
    MergedIsValid();
    assert StartsNatively(StartCampaign()) && |StartCampaign().receipts| == 1;
    NativeThroughout(StartCampaign(), Started(), IssueOpened());
    NativeThroughout(StartedCampaign(), Opened(), RequestOpened());
    NativeThroughout(OpenedCampaign(), MergedUp(), RequestMerged());
    LastState(MergedCampaign());
  }

  /** A native campaign can be published: the provenance and permanence of publication are about something. */
  lemma ReleasedExample()
    ensures var c := ReleasedCampaign();
      ValidCampaign(c) && StartsNatively(c) && |c.receipts| == 6 && IsPublished(c, 5)
  {
    hide ValidState, ValidChain, Extended, Ids, StateAfter, MergedCampaign;
    MergedExample();
    ReleasedIsValidCampaign();
    NativeThroughout(MergedCampaign(), Proposed(), CandidateMade());
    NativeThroughout(ProposedCampaign(), Released(), ReleaseMade());
    LastState(ReleasedCampaign());
  }

  // ------------------------------------------------ refused appends

  lemma IdeaIsNew(c: Campaign)
    requires c.receipts != [] && EventId(Issue, ActOpened, c.state.repository, "#9", NONE) !in Ids(c)
    ensures !UsedBefore(c, IdeaEvent(c.state, "#9"))
  {
    hide Extended;
    IdsGrow(c, c.state, IdeaEvent(c.state, "#9"));
  }

  /** While the last observed event is the opening of the slice's issue, a new idea is refused. */
  lemma IdeaIsRefused()
    ensures
      var c, e := StartedCampaign(), IdeaEvent(Started(), "#9");
      && ValidCampaign(c) && c.state == Started() && !UsedBefore(c, e)
      && IsIssue("#9") && "#9" !in c.state.inbox.items
      && AppendResult(c, Campaign(WithIdea(c.state, "#9"), c.receipts), e).None?
  {
    hide ValidCampaign, Ids, Extended, StartedCampaign, AppendResult, UsedBefore;
    StartedIsValid();
    IssuesAreIssues();
    IdeaIsNew(StartedCampaign());
    IdeaIsAccepted(StartedCampaign(), "#9");
  }

  /** An accepted idea is refused when it is submitted again after a merge. */
  lemma ResubmissionIsRefused()
    ensures
      var c, e := MergedCampaign(), IdeaEvent(MergedUp(), "#9");
      var r := AppendResult(c, Campaign(WithIdea(c.state, "#9"), c.receipts), e);
      r.Some? && AppendResult(r.value, r.value, e).None?
  {
    hide ValidCampaign, Ids, Extended, MergedCampaign, AppendResult, UsedBefore, EventSlice;
    MergedIsValid();
    IssuesAreIssues();
    var c, e := MergedCampaign(), IdeaEvent(MergedUp(), "#9");
    IdeaIsNew(c);
    IdeaIsAccepted(c, "#9");
    var s := Campaign(WithIdea(c.state, "#9"), c.receipts);
    ReplayResult(c, s, e);
    AppendIsValid(c, s, e);
    NoSliceIsNamed(WithIdea(MergedUp(), "#9"), e);
  }

  lemma NoSliceIsNamed(t: State, e: Event)
    requires forall i | 0 <= i < |t.slices| :: !Touches(t.slices[i], e)
    ensures EventSlice(t, t, e).None?
  {
    hide Touches;
  }

  // ------------------------------------------------ a migrated campaign that can lose its publication

  function OldTrainOf(): OldTrain { OldTrain("T1", VERSION, Published, VERSION, BUILD) }

  function OldSliceOf(): OldSlice { OldSlice("C/S01", Merged, "#2", "#3", HEAD, MERGE) }

  /** A published schema-1 campaign with one idea in its inbox. */
  function OldReleased(): OldState {
    OldState(1, "1.4.0", REPOSITORY, "C", "#1", ReleaseTrain, PhaseActive, Product, ThroughRelease, PublicArtifact,
             Sequential, Checkpoint("RELEASE_BOUNDARY", NotDue, NONE),
             IdeaInbox("GITHUB_ISSUES_ONLY", "FROZEN_UNTIL_RELEASE_BOUNDARY", ["#9"]), OldTrainOf(), [OldSliceOf()],
             ReleasePublished, ReleaseRefOf(VERSION), PendingAction(VerifyRelease, NONE), NoStop,
             NextAction(AutoContinue, "C/S01", NONE))
  }

  lemma VersionIsOldSemver()
    ensures IsSemverWith(VERSION, {}) && OldEventRef(ReleaseRefOf(VERSION), {})
  {
    VersionIsSemver();
    hide IsSemverWith;
    var ref := ReleaseRefOf(VERSION);
    assert ref[..8] == "release:" && ref[8..] == "v1.0.0" && IsName("v1.0.0");
    assert StartsWith(ref, "release:");
  }

  lemma TrainIdIsApart()
    ensures IsLine("T1", 100) && "T1" != VERSION && "T1" != BUILD
  {
    assert |BUILD| == 40;
  }

  lemma OldTrainIsValid()
    ensures OldValidTrain(OldTrainOf(), {})
  {
    hide IsSemverWith, IsSha, IsLine, OldEventRef;
    VersionIsOldSemver();
    ShasAreShas();
    TrainIdIsApart();
  }

  lemma OldSliceIsValid()
    ensures OldValidSlices([OldSliceOf()], ReleaseTrain, {})
  {
    ShasAreShas();
    SliceIdIsValid();
    IssuesAreIssues();
    hide IsSha, IsLine, IsSliceId, IsIssueWith, Forty;
  }

  lemma OldInboxIsValid()
    ensures OldValidInbox(OldReleased().inbox, {}) && OldValidCheckpoint(OldReleased().checkpoint, {})
  {
    IssuesAreIssues();
    hide IsIssueWith;
  }

  lemma OldFirstOf(slice: OldSlice)
    ensures forall st :: OldFirst([slice], st) == if slice.state == st then 0 else 1
  {
  }

  lemma OldActions()
    ensures var s := OldReleased();
      && OldSliceActionOk(s) && OldReleaseActionOk(s) && OldPhaseOk(s) && OldProfileOk(s)
      && OldExpectedNext(s) == Some(AutoContinue) && !NeedsFreshEvidence(s)
  {
    OldFirstOf(OldSliceOf());
    hide OldFirst, Contains;
  }

  lemma OldTexts()
    ensures OldValidTexts(OldReleased())
  {
  }

  lemma OldReleasedIsValid()
    ensures OldValid(OldReleased(), {})
  {
    OldTrainIsValid();
    OldSliceIsValid();
    OldInboxIsValid();
    VersionIsOldSemver();
    OldActions();
    OldTexts();
    IssuesAreIssues();
    hide OldValidTrain, OldValidSlices, OldValidInbox, OldValidCheckpoint, OldEventRef, OldSliceActionOk;
    hide OldReleaseActionOk, OldPhaseOk, OldProfileOk, OldExpectedNext, OldValidTexts, IsIssueWith;
  }

  lemma OldReleaseResolves()
    ensures EventResolves(OldReleased())
    ensures InferEvent(OldReleased()).value
            == Event(Release, ActPublished, REPOSITORY, ReleaseRefOf(VERSION), BUILD, Some(ConNotApplicable))
  {
    var ref := ReleaseRefOf(VERSION);
    assert ref[0] == 'r' && ref[1] == 'e' && |ref| == 14;
    assert !IsIssue(ref) && !IsSha(ref) && !IsRun(ref);
    ShasAreShas();
    hide IsIssue, IsSha, IsRun, Forty;
    assert StartsWith(ref, "release:v");
  }

  lemma OldReleasedFitsGrammar()
    ensures CurrentGrammar(OldReleased())
  {
    ReleaseIsReference();
    VersionIsSemver();
    IssuesAreIssues();
    hide IsEventRef, IsSemver, IsIssue;
  }

  function MigratedReleased(): Campaign {
    Campaign(ProjectState(OldReleased()),
             [MigrationReceipt(OldReleased(), ProjectState(OldReleased()),
                               Event(Release, ActPublished, REPOSITORY, ReleaseRefOf(VERSION), BUILD,
                                     Some(ConNotApplicable)))])
  }

  lemma ReleasedMigrates()
    ensures Migrate(Old(OldReleased()), {}) == Some(MigratedReleased()) && ValidCampaign(MigratedReleased())
  {
    OldReleasedIsValid();
    OldReleaseResolves();
    OldReleasedFitsGrammar();
    hide OldValid, CurrentGrammar, EventResolves, InferEvent, ValidState, ValidChain, ValidEvent, ProjectState;
    MigratesExactly(OldReleased(), {});
  }

  lemma MigratedShape()
    ensures var c := MigratedReleased();
      && |c.receipts| == 1 && c.state.train.publication.Published? && c.state.inbox.items == ["#9"]
      && Ids(c) == [EventId(Release, ActPublished, REPOSITORY, ReleaseRefOf(VERSION), BUILD)]
      && c.state.repository == REPOSITORY
  {
    hide ProjectSlice;
  }

  /**
   * The migrated campaign takes its publication back through the event of its own idea: permanence needs its condition.
   */
  lemma PublicationIsLost()
    ensures
      var p := MigratedReleased();
      var e := IdeaEvent(p.state, "#9");
      var r := AppendResult(p, Campaign(Retracted(p.state), p.receipts), e);
      && ValidCampaign(p) && r.Some? && ValidCampaign(r.value) && |r.value.receipts| == 2
      && IsPublished(r.value, 0) && !IsPublished(r.value, 1)
  {
    hide ValidState, ValidChain, MigratedReleased, AppendResult, Ids, UsedBefore, Retracted, StateAfter;
    ReleasedMigrates();
    MigratedShape();
    var p := MigratedReleased();
    var e, s := IdeaEvent(p.state, "#9"), Campaign(Retracted(p.state), p.receipts);
    IdeaIsNew(p);
    UnspentRetracts(p, "#9");
    AppendIsValid(p, s, e);
    PublicationAround(p, s, e);
  }

  lemma PublicationAround(p: Campaign, s: Campaign, e: Event)
    requires ValidCampaign(p) && |p.receipts| == 1 && p.state.train.publication.Published? && Retracts(p, s, e)
    requires ValidCampaign(AppendResult(p, s, e).value) && |AppendResult(p, s, e).value.receipts| == 2
    requires p.receipts <= AppendResult(p, s, e).value.receipts && AppendResult(p, s, e).value.state == s.state
    ensures var c := AppendResult(p, s, e).value; IsPublished(c, 0) && !IsPublished(c, 1)
  {
    hide ValidState, ValidTransition, Bound, ValidEvent;
    var c := AppendResult(p, s, e).value;
    LastState(p);
    LastState(c);
    FirstStateStays(p, c);
  }

  lemma FirstStateStays(p: Campaign, c: Campaign)
    requires ValidCampaign(p) && ValidCampaign(c) && |p.receipts| == 1 && |c.receipts| == 2 && p.receipts <= c.receipts
    ensures StateAt(c, 0) == p.state
  {
    hide ValidState, ValidChain, StateAfter;
    assert c.receipts[0] == p.receipts[0];
    SuccessorIsNext(p, 0);
    SuccessorIsNext(c, 0);
    LastState(p);
  }
}
