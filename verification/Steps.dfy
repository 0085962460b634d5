/** What one accepted receipt can and cannot do to the ledger. */
module Steps {
  import opened Basics
  import opened Text
  import opened StructuralDiff
  import opened CampaignState
  import opened CampaignRules
  import opened Events

  /** One accepted receipt between two states. */
  predicate Step(s: State, t: State, e: Event) { ValidTransition(s, t, Normal(e)) && Bound(t, e, true) }

  /** The observed event of the new state is the receipt's own event. */
  predicate Observes(t: State, e: Event) { Target(t, e) == Some(Identity(e)) }

  lemma StateParts(s: State)
    requires ValidState(s)
    ensures ValidTrain(s.train, s.profile) && IsEventRef(s.observedRef)
    ensures forall i | 0 <= i < |s.slices| :: ValidSlice(s.slices[i])
  {
    hide ValidTrain, IsEventRef, ValidSlice;
    hide SliceActionOk, ReleaseActionOk, DeployActionOk, PhaseOk, ValidTexts, ValidProfileBinding, ExpectedNext;
    hide InOrder;
  }

  lemma StepParts(s: State, t: State, e: Event)
    requires Step(s, t, e)
    ensures ValidState(s) && ValidState(t) && SameIdentity(s, t) && SameScope(s, t)
    ensures forall i | 0 <= i < |s.slices| :: SliceContinues(s.slices[i], t.slices[i])
    ensures EventTransition(s, t, Normal(e))
  {
    hide ValidState, SameIdentity, SliceContinues, EventTransition, Bound;
  }

  // ------------------------------------------------ the frame, case by case

  /** Two positions of which neither is above, at or below the other: they part at component `n`. */
  predicate Parts(a: Position, b: Position, n: nat) { n < |a| && n < |b| && a[n] != b[n] }

  lemma PartedItems(items: set<Position>, pos: Position, n: nat)
    requires forall item | item in items :: Parts(item, pos, 0) || Parts(item, pos, n)
    ensures Untouched(items, pos)
  {
  }

  lemma ProgressItemsShape()
    ensures CleanItems(ProgressItems())
    ensures forall item | item in ProgressItems() ::
              |item| == 1 && item[0] !in {"train", "slices", "idea_inbox", "checkpoint"}
  {
  }

  lemma DecimalIsClean(i: nat)
    ensures CleanKey(Decimal(i))
  {
  }

  lemma SliceItemsShape(observed: Observed, i: nat)
    ensures CleanItems(SliceItems(observed, i))
    ensures forall item | item in SliceItems(observed, i) ::
      |item| == 3 && item[0] == "slices" && item[1] == Decimal(i) && item[2] in {"state", "issue", "pull_requests"}
    ensures !(observed in {PrOpened, PrSynchronized, PrClosed, PrMerged}) ==>
      forall item | item in SliceItems(observed, i) :: item[2] != "pull_requests"
  {
    DecimalIsClean(i);
    assert CleanPosition(SliceItem(i, "state")) && CleanPosition(SliceItem(i, "issue"))
           && CleanPosition(SliceItem(i, "pull_requests"));
  }

  lemma OtherSliceUntouched(s: State, t: State, items: set<Position>, observed: Observed, i: nat, k: nat)
    requires Framed(s, t, items) && items == ProgressItems() + SliceItems(observed, i)
    requires k != i && k < |s.slices| && k < |t.slices|
    ensures s.slices[k] == t.slices[k]
  {
    hide Framed, SliceItems, ProgressItems;
    ProgressItemsShape();
    SliceItemsShape(observed, i);
    NumeralDecimal(i);
    NumeralDecimal(k);
    PartedItems(items, ["slices", Decimal(k)], 1);
    FramedKeepsSlice(s, t, items, k);
  }

  lemma LedgerUntouched(s: State, t: State, items: set<Position>, observed: Observed, i: nat)
    requires Framed(s, t, items) && items == ProgressItems() + SliceItems(observed, i)
    requires !(observed in {PrOpened, PrSynchronized, PrClosed, PrMerged})
    requires i < |s.slices| && i < |t.slices|
    ensures s.slices[i].ledger == t.slices[i].ledger
  {
    hide Framed, SliceItems, ProgressItems;
    ProgressItemsShape();
    SliceItemsShape(observed, i);
    PartedItems(items, ["slices", Decimal(i), "pull_requests"], 2);
    FramedKeepsLedger(s, t, items, i);
  }

  lemma SliceEventKeepsRest(s: State, t: State, items: set<Position>, observed: Observed, i: nat)
    requires Framed(s, t, items) && items == ProgressItems() + SliceItems(observed, i)
    ensures s.train == t.train && s.inbox.items == t.inbox.items
  {
    hide Framed, SliceItems, ProgressItems;
    ProgressItemsShape();
    SliceItemsShape(observed, i);
    PartedItems(items, ["train"], 0);
    PartedItems(items, ["idea_inbox"], 0);
    FramedKeepsTrain(s, t, items);
    FramedKeepsInbox(s, t, items);
  }

  /** The items an event at the release boundary may touch beyond the progress fields. */
  predicate ReleaseItems(items: set<Position>) {
    forall item | item in items :: item != [] && (item[0] == "checkpoint" || (item[0] == "train" && |item| == 2))
  }

  lemma ReleaseEventKeepsRest(s: State, t: State, items: set<Position>, extra: set<Position>)
    requires Framed(s, t, items) && items == ProgressItems() + extra && ReleaseItems(extra) && CleanItems(extra)
    requires |s.slices| == |t.slices|
    ensures s.slices == t.slices && s.inbox.items == t.inbox.items
  {
    hide Framed, ProgressItems;
    ProgressItemsShape();
    PartedItems(items, ["idea_inbox"], 0);
    FramedKeepsInbox(s, t, items);
    forall k | 0 <= k < |s.slices| ensures s.slices[k] == t.slices[k] {
      PartedItems(items, ["slices", Decimal(k)], 0);
      FramedKeepsSlice(s, t, items, k);
    }
  }

  lemma ReleaseEventKeepsField(s: State, t: State, items: set<Position>, extra: set<Position>, field: string)
    requires Framed(s, t, items) && items == ProgressItems() + extra && ReleaseItems(extra) && CleanItems(extra)
    requires ["train", field] !in extra
    requires field in TrainJson(s.train).fields && field in TrainJson(t.train).fields
    ensures TrainJson(s.train).fields[field] == TrainJson(t.train).fields[field]
  {
    hide Framed, ProgressItems, TrainJson;
    ProgressItemsShape();
    forall item | item in extra && item[0] == "train" ensures item[1] != field {
      assert item == ["train", item[1]];
    }
    PartedItems(items, ["train", field], 1);
    FramedKeepsTrainField(s, t, items, field);
  }

  lemma IdeaKeepsRest(s: State, t: State)
    requires Framed(s, t, {["idea_inbox", "items"]}) && |s.slices| == |t.slices|
    ensures s.slices == t.slices && s.train == t.train
  {
    hide Framed;
    var items: set<Position> := {["idea_inbox", "items"]};
    assert CleanItems(items);
    PartedItems(items, ["train"], 0);
    FramedKeepsTrain(s, t, items);
    forall k | 0 <= k < |s.slices| ensures s.slices[k] == t.slices[k] {
      PartedItems(items, ["slices", Decimal(k)], 0);
      FramedKeepsSlice(s, t, items, k);
    }
  }

  // ------------------------------------------------ the shape of a step

  predicate IsSliceEvent(o: Observed) {
    || o.PrOpened? || o.PrSynchronized? || o.PrClosed? || o.PrMerged? || o.SliceIssueOpened? || o.SliceCancelled?
    || o.GatesPassed? || o.GatesFailed?
  }

  predicate MovesLedger(o: Observed) { o.PrOpened? || o.PrSynchronized? || o.PrClosed? || o.PrMerged? }

  /** All slices but one are unchanged. */
  predicate OnlySliceMoves(s: State, t: State, i: nat) {
    |s.slices| == |t.slices| && forall k | 0 <= k < |s.slices| && k != i :: s.slices[k] == t.slices[k]
  }

  /** A receipt extends the idea inbox, or moves at most the one slice its event names, or only the train. */
  lemma StepShape(s: State, t: State, e: Event) returns (i: nat)
    requires Step(s, t, e)
    ensures if ExtendsInbox(s, t, e) then s.slices == t.slices && s.train == t.train
            else if IsSliceEvent(t.observed) then
              && s.train == t.train && s.inbox.items == t.inbox.items
              && i < |s.slices| && OnlySliceMoves(s, t, i) && DeltaOk(s, t, Normal(e), i)
              && (!MovesLedger(t.observed) ==> s.slices[i].ledger == t.slices[i].ledger)
            else s.slices == t.slices && s.inbox.items == t.inbox.items
  {
    hide ValidState, SliceContinues, DeltaOk, EventSlice, Framed, SliceItems, ProgressItems, SameIdentity, Bound, Step;
    StepParts(s, t, e);
    var items := AllowedItems(s, t, Normal(e)).value;
    i := 0;
    if ExtendsInbox(s, t, e) {
      IdeaKeepsRest(s, t);
    } else if IsSliceEvent(t.observed) {
      i := EventSlice(s, t, Normal(e)).value;
      SliceEventKeepsRest(s, t, items, t.observed, i);
      forall k | 0 <= k < |s.slices| && k != i ensures s.slices[k] == t.slices[k] {
        OtherSliceUntouched(s, t, items, t.observed, i, k);
      }
      if !MovesLedger(t.observed) { LedgerUntouched(s, t, items, t.observed, i); }
    } else {
      ReleaseShape(s, t, e);
    }
  }

  /** The train fields an event may touch. */
  function TrainItems(o: Observed): set<Position> {
    match o
    case ReleaseCandidateMerged => {["train", "publication_state"], ["train", "candidate_build_sha"]}
    case ReleasePublished =>
      {["train", "publication_state"], ["train", "published_version"], ["train", "published_build_sha"]}
    case ReleaseVerified | ProductionVerified => {["checkpoint"]}
    case UpstreamVerified => {["train", "upstream"]}
    case ProductionDeployed => {["train", "deployed_build_sha"]}
    case _ => {}
  }

  lemma PublicationPositionsAreClean()
    ensures CleanPosition(["train", "publication_state"]) && CleanPosition(["train", "candidate_build_sha"])
    ensures CleanPosition(["train", "published_version"])
  {
  }

  lemma BuildPositionsAreClean()
    ensures CleanPosition(["train", "published_build_sha"]) && CleanPosition(["train", "deployed_build_sha"])
    ensures CleanPosition(["train", "upstream"]) && CleanPosition(["checkpoint"])
  {
  }

  lemma TrainItemsShape(o: Observed)
    ensures ReleaseItems(TrainItems(o)) && CleanItems(TrainItems(o))
  {
    hide CleanPosition;
    PublicationPositionsAreClean();
    BuildPositionsAreClean();
  }

  lemma ReleaseItemsOf(s: State, t: State, e: Event)
    requires Step(s, t, e) && !ExtendsInbox(s, t, e) && !IsSliceEvent(t.observed)
    ensures Framed(s, t, ProgressItems() + TrainItems(t.observed)) && |s.slices| == |t.slices|
  {
    hide ValidState, SliceContinues, Framed, ProgressItems, SameIdentity, Bound, Step;
    StepParts(s, t, e);
    if t.observed.InitialAuthorization? { assert ProgressItems() == ProgressItems() + {}; }
  }

  lemma ReleaseShape(s: State, t: State, e: Event)
    requires Step(s, t, e) && !ExtendsInbox(s, t, e) && !IsSliceEvent(t.observed)
    ensures s.slices == t.slices && s.inbox.items == t.inbox.items
  {
    hide Framed, ProgressItems, TrainItems, Step;
    ReleaseItemsOf(s, t, e);
    TrainItemsShape(t.observed);
    ReleaseEventKeepsRest(s, t, ProgressItems() + TrainItems(t.observed), TrainItems(t.observed));
  }

  lemma TrainFieldKept(s: State, t: State, e: Event, field: string)
    requires Step(s, t, e) && !ExtendsInbox(s, t, e) && !IsSliceEvent(t.observed)
    requires ["train", field] !in TrainItems(t.observed)
    requires field in TrainJson(s.train).fields && field in TrainJson(t.train).fields
    ensures TrainJson(s.train).fields[field] == TrainJson(t.train).fields[field]
  {
    hide Framed, ProgressItems, TrainItems, TrainJson, Step;
    ReleaseItemsOf(s, t, e);
    TrainItemsShape(t.observed);
    ReleaseEventKeepsField(s, t, ProgressItems() + TrainItems(t.observed), TrainItems(t.observed), field);
  }

  lemma PublicationFields(t: Train)
    ensures var f := TrainJson(t).fields;
      && "publication_state" in f && f["publication_state"] == Leaf(OfPublication(t.publication))
      && "published_version" in f && f["published_version"] == TextJson(t.publishedVersion)
      && "published_build_sha" in f && f["published_build_sha"] == TextJson(t.publishedBuild)
      && "candidate_build_sha" in f && f["candidate_build_sha"] == TextJson(t.candidateBuild)
  {
  }

  /** Which publication fields an event outside the slices leaves alone. */
  lemma PublicationKept(s: State, t: State, e: Event)
    requires Step(s, t, e) && !ExtendsInbox(s, t, e) && !IsSliceEvent(t.observed)
    ensures !t.observed.ReleasePublished? ==>
      s.train.publishedVersion == t.train.publishedVersion && s.train.publishedBuild == t.train.publishedBuild
    ensures !t.observed.ReleaseCandidateMerged? ==> s.train.candidateBuild == t.train.candidateBuild
    ensures !t.observed.ReleasePublished? && !t.observed.ReleaseCandidateMerged? ==>
      s.train.publication == t.train.publication
  {
    hide Framed, ProgressItems, TrainJson, Step;
    PublicationFields(s.train);
    PublicationFields(t.train);
    if !t.observed.ReleasePublished? {
      TrainFieldKept(s, t, e, "published_version");
      TrainFieldKept(s, t, e, "published_build_sha");
      if !t.observed.ReleaseCandidateMerged? { TrainFieldKept(s, t, e, "publication_state"); }
    }
    if !t.observed.ReleaseCandidateMerged? { TrainFieldKept(s, t, e, "candidate_build_sha"); }
  }

  // ------------------------------------------------ publication

  lemma TrainParts(s: State, t: State, e: Event)
    requires Step(s, t, e)
    ensures PublicationOk(s.train) && PublicationOk(t.train) && s.train.targetVersion == t.train.targetVersion
    ensures t.train.targetVersion != NONE && s.repository == t.repository
    ensures ValidEvent(e, true, false)
  {
    hide ValidState, SliceContinues, EventTransition, SameScope, Target, OutcomeFits, ValidEvent;
    StepParts(s, t, e);
    StateParts(s);
    StateParts(t);
    NoneIsNoIdentity();
  }

  /** A train becomes published only by a release event that carries the published build. */
  lemma PublishStep(s: State, t: State, e: Event)
    requires Step(s, t, e) && Observes(t, e)
    requires !s.train.publication.Published? && t.train.publication.Published?
    ensures Identity(e) == EventId(Release, ActPublished, t.repository, t.observedRef, t.train.publishedBuild)
  {
    hide Step, ValidEvent, DeltaOk;
    var _ := StepShape(s, t, e);
    TrainParts(s, t, e);
    PublicationKept(s, t, e);
  }

  /** A published train keeps its state, version and build. */
  lemma PublishedStays(s: State, t: State, e: Event)
    requires Step(s, t, e) && (ExtendsInbox(s, t, e) || Observes(t, e))
    requires s.train.publication.Published?
    ensures t.train.publication.Published?
    ensures t.train.publishedVersion == s.train.publishedVersion && t.train.publishedBuild == s.train.publishedBuild
  {
    hide Step, DeltaOk;
    var _ := StepShape(s, t, e);
    TrainParts(s, t, e);
    if !ExtendsInbox(s, t, e) && !IsSliceEvent(t.observed) {
      PublicationKept(s, t, e);
    }
  }

  // ------------------------------------------------ what every receipt keeps

  predicate EntryKeeps(x: PrEntry, y: PrEntry) {
    y.sequence == x.sequence && y.role == x.role && y.pr == x.pr && (!x.state.PrIsOpen? ==> y == x)
  }

  predicate LedgerKeeps(a: Ledger, b: Ledger) {
    |a| <= |b| && forall k | 0 <= k < |a| :: EntryKeeps(a[k], b[k])
  }

  predicate SliceKeeps(a: Slice, b: Slice) {
    && b.id == a.id && (a.issue != NONE ==> b.issue == a.issue)
    && LedgerKeeps(a.ledger, b.ledger)
    && (Terminal(a.state) ==> b.state == a.state && b.ledger == a.ledger)
  }

  /** Identity, scope, assigned issues, finished slices and closed history all carry over. */
  predicate StateKeeps(s: State, t: State) {
    && SameIdentity(s, t) && |s.slices| == |t.slices|
    && forall i | 0 <= i < |s.slices| :: SliceKeeps(s.slices[i], t.slices[i])
  }

  lemma HistoryKeeps(a: Ledger, b: Ledger)
    requires ValidHistory(a, b)
    ensures LedgerKeeps(a, b)
    ensures forall k | |a| <= k < |b| :: b[k].state.PrIsOpen?
    ensures forall k | 0 <= k < |a| && a[k] != b[k] :: k == |a| - 1 && |b| == |a| && a[k].state.PrIsOpen?
  {
    hide ValidEntry;
    if HasOpen(a) {
      forall k | 0 <= k < |a| - 1 ensures b[k] == a[k] {
        assert b[..|a| - 1][k] == a[..|a| - 1][k];
      }
    } else if a != [] {
      forall k | 0 <= k < |a| ensures b[k] == a[k] {
        assert b[..|a|][k] == a[k];
      }
    }
  }

  lemma FinishedNotOpen(s: Slice)
    requires ValidSlice(s) && Terminal(s.state)
    ensures !HasOpen(s.ledger)
  {
    hide ValidLedger, IsLine, IsSliceId;
    if s.ledger != [] { assert s.ledger[|s.ledger| - 1] in s.ledger; }
  }

  /** A finished slice takes no further pull request: its last entry would have to be open. */
  lemma FinishedLedgerFrozen(a: Slice, b: Slice)
    requires SliceContinues(a, b) && ValidSlice(a) && ValidSlice(b) && Terminal(a.state)
    ensures b.ledger == a.ledger
  {
    hide ValidHistory, ValidSlice;
    HistoryKeeps(a.ledger, b.ledger);
    FinishedNotOpen(a);
    FinishedNotOpen(b);
    assert |b.ledger| == |a.ledger|;
  }

  /** A valid transition keeps what the state before it settled. */
  lemma TransitionKeeps(s: State, t: State, e: Event)
    requires ValidTransition(s, t, e)
    ensures StateKeeps(s, t) && ValidState(s) && ValidState(t)
  {
    hide ValidState, ValidSlice, ValidHistory, EventTransition, SameIdentity;
    StateParts(s);
    StateParts(t);
    forall i | 0 <= i < |s.slices| ensures SliceKeeps(s.slices[i], t.slices[i]) {
      HistoryKeeps(s.slices[i].ledger, t.slices[i].ledger);
      if Terminal(s.slices[i].state) { FinishedLedgerFrozen(s.slices[i], t.slices[i]); }
    }
  }

  lemma StepKeeps(s: State, t: State, e: Event)
    requires Step(s, t, e)
    ensures StateKeeps(s, t)
  {
    hide ValidTransition, Bound;
    TransitionKeeps(s, t, Normal(e));
  }

  // ------------------------------------------------ how an entry becomes terminal

  /** The pull-request event that makes exactly this entry terminal. */
  function OwnEvent(repository: string, x: PrEntry): EventId {
    if x.state.PrIsMerged? then EventId(PullRequest, ActMerged, repository, x.pr, x.merge)
    else EventId(PullRequest, ActClosed, repository, x.pr, x.head)
  }

  predicate HasEntry(s: State, i: nat, k: nat) { i < |s.slices| && k < |s.slices[i].ledger| }

  predicate IsTerminalAt(s: State, i: nat, k: nat) {
    HasEntry(s, i, k) && !s.slices[i].ledger[k].state.PrIsOpen?
  }

  predicate OwnsAt(s: State, i: nat, k: nat, id: EventId) {
    IsTerminalAt(s, i, k) && OwnEvent(s.repository, s.slices[i].ledger[k]) == id
  }

  lemma {:induction false} EntryPosition(slices: seq<Slice>, x: PrEntry) returns (i: nat, k: nat)
    requires x in AllEntries(slices)
    ensures i < |slices| && k < |slices[i].ledger| && slices[i].ledger[k] == x
  {
    if x in slices[0].ledger {
      i := 0;
      k :| 0 <= k < |slices[0].ledger| && slices[0].ledger[k] == x;
    } else {
      var i', k' := EntryPosition(slices[1..], x);
      i, k := i' + 1, k';
    }
  }

  /** The entry a closing or merging event observes, and where it is. */
  lemma ObservedEntry(t: State, e: Event) returns (i: nat, k: nat)
    requires Observes(t, e) && (t.observed.PrClosed? || t.observed.PrMerged?)
    requires IsEventRef(t.observedRef) && forall a | 0 <= a < |t.slices| :: ValidSlice(t.slices[a])
    ensures OwnsAt(t, i, k, Identity(e))
  {
    hide IsEventRef;
    var ref := t.observedRef;
    var found := if t.observed.PrClosed? then TheEntry(t.slices, (x: PrEntry) => x.state.PrIsClosed? && x.pr == ref)
                 else TheEntry(t.slices, (x: PrEntry) => x.merge == ref);
    i, k := EntryPosition(t.slices, found.value);
    EventRefIsNotNone(ref);
    assert ValidSlice(t.slices[i]);
    assert ValidEntry(t.slices[i].ledger[k]);
  }

  lemma EventRefIsNotNone(ref: string)
    requires IsEventRef(ref)
    ensures ref != NONE
  {
    NoneIsNoIdentity();
    assert NONE[0] == 'N';
  }

  lemma StepHistory(s: State, t: State, e: Event, i: nat)
    requires Step(s, t, e) && (i < |s.slices| || i < |t.slices|)
    ensures |s.slices| == |t.slices| && s.repository == t.repository
    ensures LedgerKeeps(s.slices[i].ledger, t.slices[i].ledger)
    ensures forall k | |s.slices[i].ledger| <= k < |t.slices[i].ledger| :: t.slices[i].ledger[k].state.PrIsOpen?
    ensures forall k | 0 <= k < |s.slices[i].ledger| && s.slices[i].ledger[k] != t.slices[i].ledger[k] ::
      k == |s.slices[i].ledger| - 1 && |t.slices[i].ledger| == |s.slices[i].ledger|
        && s.slices[i].ledger[k].state.PrIsOpen?
  {
    hide Step, ValidHistory, ValidState, EventTransition, LedgerKeeps;
    StepParts(s, t, e);
    HistoryKeeps(s.slices[i].ledger, t.slices[i].ledger);
  }

  lemma TerminalNeedsPrEvent(s: State, t: State, e: Event, i: nat, k: nat)
    requires Step(s, t, e) && HasEntry(s, i, k) && HasEntry(t, i, k)
    requires s.slices[i].ledger[k].state.PrIsOpen? && !t.slices[i].ledger[k].state.PrIsOpen?
    ensures !ExtendsInbox(s, t, e) && (t.observed.PrClosed? || t.observed.PrMerged?) && OnlySliceMoves(s, t, i)
  {
    hide Step, LedgerKeeps;
    var j := StepShape(s, t, e);
    StepHistory(s, t, e, i);
    assert j == i;
  }

  /** An entry is closed or merged by its own event, unless that event already closed or merged an older entry. */
  lemma TerminalStep(s: State, t: State, e: Event, i: nat, k: nat) returns (a: nat, b: nat)
    requires Step(s, t, e) && Observes(t, e) && HasEntry(s, i, k) && HasEntry(t, i, k)
    requires s.slices[i].ledger[k].state.PrIsOpen? && !t.slices[i].ledger[k].state.PrIsOpen?
    ensures OwnsAt(t, i, k, Identity(e)) || OwnsAt(s, a, b, Identity(e))
  {
    hide Step, Observes, OwnEvent, IsEventRef;
    TerminalNeedsPrEvent(s, t, e, i, k);
    ObservedParts(s, t, e);
    hide ValidSlice;
    a, b := ObservedEntry(t, e);
    StepHistory(s, t, e, i);
    hide LedgerKeeps;
    if a != i { assert s.slices[a] == t.slices[a]; }
  }

  lemma ObservedParts(s: State, t: State, e: Event)
    requires Step(s, t, e)
    ensures IsEventRef(t.observedRef) && forall a | 0 <= a < |t.slices| :: ValidSlice(t.slices[a])
  {
    hide Step, ValidSlice, ValidState, IsEventRef, EventTransition, ValidHistory;
    StepParts(s, t, e);
    StateParts(t);
  }
}
