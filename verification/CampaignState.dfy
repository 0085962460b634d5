/** The campaign ledger of schema 2, and its JSON form. */
module CampaignState {
  import opened Basics
  import opened Text
  import opened StructuralDiff

  datatype Mode = SingleSlice | ReleaseTrain
  datatype Phase = PhasePlanned | PhaseActive | WaitingEvent | HumanGate | PhaseBlocked | Complete
  datatype Workstream = Product | Protocol
  datatype Authority = SourceOnly | ThroughMerge | ThroughRelease | ThroughProductionB
  datatype Risk = NoProduction | PublicArtifact | ReversibleProduction | CriticalProduction
  datatype ReleaseProfile = GithubArtifact | CodeOnlyProductionB | DeploymentLevelC | UpstreamReleaseVerified
  datatype Continuation = Sequential | Disabled
  datatype StopReason =
    | NoStop | AuthorityExhausted | HumanDecisionRequired | LevelCAuthorization | MaterialRiskChanged
    | CriticalUnknown | UnresolvedFinding | ScopeChangeRequired | PublicationNotAuthorized | GateFailure
  datatype SliceState = Planned | Active | Merged | Blocked | Cancelled
  datatype PrRole = Owner | Correction
  datatype PrState = PrIsOpen | PrIsMerged | PrIsClosed
  datatype Publication = Unpublished | Candidate | Published
  datatype Verification = NotApplicable | Pending | Verified
  datatype CheckpointState = NotDue | Due | Recorded
  datatype Observed =
    | InitialAuthorization | PrOpened | PrSynchronized | PrClosed | PrMerged | SliceIssueOpened | SliceCancelled
    | GatesPassed | GatesFailed | ReleaseCandidateMerged | ReleasePublished | ReleaseVerified
    | ProductionDeployed | ProductionVerified | UpstreamVerified
  datatype ActionKind =
    | StartNextSlice | ContinueActiveSlice | MergeActiveSlice | PrepareRelease | PublishRelease | VerifyRelease
    | VerifyUpstreamRelease | DeployProductionB | DeployProductionC | VerifyProduction | RecordCheckpoint
    | WaitForEvent | NoAction
  datatype NextType = AutoContinue | WaitEvent | UserActionRequired | CampaignComplete

  datatype Checkpoint = Checkpoint(policy: string, state: CheckpointState, reference: string)
  datatype IdeaInbox = IdeaInbox(mode: string, scope: string, items: seq<string>)
  datatype Upstream = Upstream(repository: string, publishedVersion: string, publishedBuild: string,
        verification: Verification)
  datatype Train = Train(
    trainId: string, targetVersion: string, publication: Publication, publishedVersion: string,
    candidateBuild: string, deployedBuild: string, publishedBuild: string, upstream: Upstream)
  datatype PrEntry = PrEntry(sequence: int, role: PrRole, pr: string, state: PrState, head: string, merge: string)
  type Ledger = seq<PrEntry>
  datatype Slice = Slice(id: string, state: SliceState, issue: string, ledger: Ledger)
  datatype PendingAction = PendingAction(kind: ActionKind, sliceId: string)
  datatype NextAction = NextAction(nextType: NextType, summary: string, prompt: string)

  /** A campaign without its receipts. */
  datatype State = State(
    schemaVersion: int, protocolVersion: string, repository: string, campaignId: string, ownerIssue: string,
    mode: Mode, phase: Phase, workstream: Workstream, authority: Authority, risk: Risk, profile: ReleaseProfile,
    continuation: Continuation, checkpoint: Checkpoint, inbox: IdeaInbox, train: Train, slices: seq<Slice>,
    observed: Observed, observedRef: string, pending: PendingAction, stop: StopReason, next: NextAction)

  /** The scalars of the JSON form. */
  datatype Atom =
    | Text(text: string) | Number(number: int) | OfMode(mode: Mode) | OfPhase(phase: Phase)
    | OfWorkstream(workstream: Workstream) | OfAuthority(authority: Authority) | OfRisk(risk: Risk)
    | OfProfile(profile: ReleaseProfile) | OfContinuation(continuation: Continuation) | OfStop(stop: StopReason)
    | OfSliceState(sliceState: SliceState) | OfRole(role: PrRole) | OfPrState(prState: PrState)
    | OfPublication(publication: Publication) | OfVerification(verification: Verification)
    | OfCheckpoint(checkpoint: CheckpointState) | OfObserved(observed: Observed) | OfKind(kind: ActionKind)
    | OfNext(next: NextType)

  type Value = Json<Atom>

  function TextJson(s: string): Value { Leaf(Text(s)) }

  function CheckpointJson(c: Checkpoint): Value {
    Obj(map[
          "policy" := TextJson(c.policy), "state" := Leaf(OfCheckpoint(c.state)),
          "reference" := TextJson(c.reference)])
  }

  function InboxJson(i: IdeaInbox): Value {
    Obj(map["mode" := TextJson(i.mode), "scope" := TextJson(i.scope),
            "items" := Arr(seq(|i.items|, k requires 0 <= k < |i.items| => TextJson(i.items[k])))])
  }

  function UpstreamJson(u: Upstream): Value {
    Obj(map["repository" := TextJson(u.repository), "published_version" := TextJson(u.publishedVersion),
            "published_build_sha" := TextJson(u.publishedBuild),
            "verification_state" := Leaf(OfVerification(u.verification))])
  }

  function TrainVersionFields(t: Train): map<string, Value> {
    map["train_id" := TextJson(t.trainId), "target_version" := TextJson(t.targetVersion),
        "publication_state" := Leaf(OfPublication(t.publication)),
        "published_version" := TextJson(t.publishedVersion)]
  }

  function TrainBuildFields(t: Train): map<string, Value> {
    map["candidate_build_sha" := TextJson(t.candidateBuild), "deployed_build_sha" := TextJson(t.deployedBuild),
        "published_build_sha" := TextJson(t.publishedBuild), "upstream" := UpstreamJson(t.upstream)]
  }

  function TrainJson(t: Train): Value { Obj(TrainVersionFields(t) + TrainBuildFields(t)) }

  function EntryJson(e: PrEntry): Value {
    Obj(map["sequence" := Leaf(Number(e.sequence)), "role" := Leaf(OfRole(e.role)), "pr" := TextJson(e.pr),
            "state" := Leaf(OfPrState(e.state)), "head_sha" := TextJson(e.head), "merge_sha" := TextJson(e.merge)])
  }

  function LedgerJson(ledger: Ledger): Value {
    Arr(seq(|ledger|, k requires 0 <= k < |ledger| => EntryJson(ledger[k])))
  }

  function SliceJson(s: Slice): Value {
    Obj(map["id" := TextJson(s.id), "state" := Leaf(OfSliceState(s.state)), "issue" := TextJson(s.issue),
            "pull_requests" := LedgerJson(s.ledger)])
  }

  function SlicesJson(slices: seq<Slice>): Value {
    Arr(seq(|slices|, k requires 0 <= k < |slices| => SliceJson(slices[k])))
  }

  function PendingJson(p: PendingAction): Value {
    Obj(map["kind" := Leaf(OfKind(p.kind)), "slice_id" := TextJson(p.sliceId)])
  }

  function NextJson(n: NextAction): Value {
    Obj(map["type" := Leaf(OfNext(n.nextType)), "summary" := TextJson(n.summary), "prompt" := TextJson(n.prompt)])
  }

  function IdentityFields(s: State): map<string, Value> {
    map["schema_version" := Leaf(Number(s.schemaVersion)), "protocol_version" := TextJson(s.protocolVersion),
        "repository" := TextJson(s.repository), "campaign_id" := TextJson(s.campaignId),
        "owner_issue" := TextJson(s.ownerIssue), "campaign_mode" := Leaf(OfMode(s.mode))]
  }

  function ProfileFields(s: State): map<string, Value> {
    map["workstream_class" := Leaf(OfWorkstream(s.workstream)),
        "authority_envelope" := Leaf(OfAuthority(s.authority)), "risk_profile" := Leaf(OfRisk(s.risk)),
        "release_profile" := Leaf(OfProfile(s.profile)),
        "auto_continuation" := Leaf(OfContinuation(s.continuation))]
  }

  function ProgressFields(s: State): map<string, Value> {
    map["campaign_state" := Leaf(OfPhase(s.phase)), "observed_event" := Leaf(OfObserved(s.observed)),
        "observed_event_ref" := TextJson(s.observedRef), "stop_reason" := Leaf(OfStop(s.stop))]
  }

  function ActionFields(s: State): map<string, Value> {
    map["pending_action" := PendingJson(s.pending), "next_action" := NextJson(s.next)]
  }

  function LedgerFields(s: State): map<string, Value> {
    map["checkpoint" := CheckpointJson(s.checkpoint), "idea_inbox" := InboxJson(s.inbox),
        "train" := TrainJson(s.train), "slices" := SlicesJson(s.slices)]
  }

  function StateJson(s: State): Value {
    Obj(IdentityFields(s) + ProfileFields(s) + ProgressFields(s) + ActionFields(s) + LedgerFields(s))
  }

  // ------------------------------------------------ the JSON form has only plain keys

  ghost predicate CleanFields(fields: map<string, Value>) {
    forall key | key in fields :: CleanKey(key) && CleanJson(fields[key])
  }

  lemma IdentityFieldsAreClean(s: State)
    ensures CleanFields(IdentityFields(s))
  {
  }

  lemma ProfileFieldsAreClean(s: State)
    ensures CleanFields(ProfileFields(s))
  {
  }

  lemma ProgressFieldsAreClean(s: State)
    ensures CleanFields(ProgressFields(s))
  {
  }

  lemma PendingIsClean(p: PendingAction)
    ensures CleanJson(PendingJson(p))
  {
  }

  lemma NextIsClean(n: NextAction)
    ensures CleanJson(NextJson(n))
  {
  }

  lemma ActionFieldsAreClean(s: State)
    ensures CleanFields(ActionFields(s))
  {
    PendingIsClean(s.pending);
    NextIsClean(s.next);
  }

  lemma TrainVersionIsClean(t: Train)
    ensures CleanFields(TrainVersionFields(t))
  {
  }

  lemma UpstreamIsClean(u: Upstream)
    ensures CleanJson(UpstreamJson(u))
  {
  }

  lemma TrainBuildIsClean(t: Train)
    ensures CleanFields(TrainBuildFields(t))
  {
    UpstreamIsClean(t.upstream);
  }

  lemma TrainIsClean(t: Train)
    ensures CleanJson(TrainJson(t))
  {
    TrainVersionIsClean(t);
    TrainBuildIsClean(t);
  }

  lemma CheckpointIsClean(s: State)
    ensures CleanJson(CheckpointJson(s.checkpoint)) && CleanJson(InboxJson(s.inbox))
  {
  }

  lemma EntryIsClean(e: PrEntry)
    ensures CleanJson(EntryJson(e))
  {
  }

  lemma SliceIsClean(s: Slice)
    ensures CleanJson(SliceJson(s))
  {
    forall k | 0 <= k < |s.ledger| { EntryIsClean(s.ledger[k]); }
    assert CleanJson(LedgerJson(s.ledger));
  }

  lemma SlicesAreClean(slices: seq<Slice>)
    ensures CleanJson(SlicesJson(slices))
  {
    forall i | 0 <= i < |slices| { SliceIsClean(slices[i]); }
  }

  lemma LedgerFieldsAreClean(s: State)
    ensures CleanFields(LedgerFields(s))
  {
    TrainIsClean(s.train);
    SlicesAreClean(s.slices);
    CheckpointIsClean(s);
  }

  lemma StateJsonIsClean(s: State)
    ensures StateJson(s).Obj? && CleanJson(StateJson(s))
  {
    IdentityFieldsAreClean(s);
    ProfileFieldsAreClean(s);
    ProgressFieldsAreClean(s);
    ActionFieldsAreClean(s);
    LedgerFieldsAreClean(s);
  }

  // ------------------------------------------------ what an accepted frame check leaves alone

  /** The frame check of one receipt: the two states may differ only at or below `items`. */
  predicate Framed(s: State, t: State, items: set<Position>) {
    FrameHolds(StateJson(s), StateJson(t), Paths(items))
  }

  /** No allowed position is above, at or below `pos`. */
  ghost predicate Untouched(items: set<Position>, pos: Position) {
    forall item | item in items :: !(item <= pos) && !(pos <= item)
  }

  lemma FramedAgrees(s: State, t: State, items: set<Position>, pos: Position)
    requires Framed(s, t, items) && CleanItems(items) && Untouched(items, pos)
    ensures At(StateJson(s), pos) == At(StateJson(t), pos)
  {
    StateJsonIsClean(s);
    StateJsonIsClean(t);
    FrameAgrees(StateJson(s), StateJson(t), items, pos);
  }

  lemma LedgerParts(s: State)
    ensures forall key | key in LedgerFields(s) ::
              key in StateJson(s).fields && StateJson(s).fields[key] == LedgerFields(s)[key]
  {
  }

  lemma AtField(s: State, key: string)
    requires key in LedgerFields(s)
    ensures At(StateJson(s), [key]) == [LedgerFields(s)[key]]
  {
    LedgerParts(s);
    assert [key][1..] == [];
  }

  lemma AtTrainField(s: State, field: string)
    requires field in TrainJson(s.train).fields
    ensures At(StateJson(s), ["train", field]) == [TrainJson(s.train).fields[field]]
  {
    LedgerParts(s);
    assert "train" in LedgerFields(s) && LedgerFields(s)["train"] == TrainJson(s.train);
    hide StateJson, LedgerFields, UpstreamJson;
    assert ["train", field][1..] == [field] && [field][1..] == [];
    assert At(TrainJson(s.train), [field]) == [TrainJson(s.train).fields[field]];
  }

  lemma AtSlice(s: State, i: nat)
    requires i < |s.slices|
    ensures At(StateJson(s), ["slices", Decimal(i)]) == [SliceJson(s.slices[i])]
  {
    LedgerParts(s);
    NumeralDecimal(i);
    var pos := ["slices", Decimal(i)];
    assert pos[1..] == [Decimal(i)] && [Decimal(i)][1..] == [];
    assert At(SlicesJson(s.slices), [Decimal(i)]) == [SliceJson(s.slices[i])];
  }

  lemma AtSliceField(s: State, i: nat, field: string)
    requires i < |s.slices| && field in SliceJson(s.slices[i]).fields
    ensures At(StateJson(s), ["slices", Decimal(i), field]) == [SliceJson(s.slices[i]).fields[field]]
  {
    LedgerParts(s);
    NumeralDecimal(i);
    var pos := ["slices", Decimal(i), field];
    assert pos[1..] == [Decimal(i), field] && pos[1..][1..] == [field] && [field][1..] == [];
    assert At(SliceJson(s.slices[i]), [field]) == [SliceJson(s.slices[i]).fields[field]];
    assert At(SlicesJson(s.slices), [Decimal(i), field]) == At(SliceJson(s.slices[i]), [field]);
  }

  lemma TrainJsonInjective(a: Train, b: Train)
    requires TrainJson(a) == TrainJson(b)
    ensures a == b
  {
    hide UpstreamJson;
    var f, g := TrainJson(a).fields, TrainJson(b).fields;
    assert f["train_id"] == g["train_id"] && f["target_version"] == g["target_version"];
    assert f["publication_state"] == g["publication_state"] && f["published_version"] == g["published_version"];
    assert f["candidate_build_sha"] == g["candidate_build_sha"] && f["deployed_build_sha"] == g["deployed_build_sha"];
    assert f["published_build_sha"] == g["published_build_sha"] && f["upstream"] == g["upstream"];
    UpstreamJsonInjective(a.upstream, b.upstream);
  }

  lemma UpstreamJsonInjective(a: Upstream, b: Upstream)
    requires UpstreamJson(a) == UpstreamJson(b)
    ensures a == b
  {
    var f, g := UpstreamJson(a).fields, UpstreamJson(b).fields;
    assert f["repository"] == g["repository"] && f["published_version"] == g["published_version"];
    assert f["published_build_sha"] == g["published_build_sha"] && f["verification_state"] == g["verification_state"];
  }

  lemma EntryJsonInjective(a: PrEntry, b: PrEntry)
    requires EntryJson(a) == EntryJson(b)
    ensures a == b
  {
    var f, g := EntryJson(a).fields, EntryJson(b).fields;
    assert f["sequence"] == g["sequence"] && f["role"] == g["role"] && f["pr"] == g["pr"];
    assert f["state"] == g["state"] && f["head_sha"] == g["head_sha"] && f["merge_sha"] == g["merge_sha"];
  }

  lemma LedgerJsonInjective(a: Ledger, b: Ledger)
    requires LedgerJson(a) == LedgerJson(b)
    ensures a == b
  {
    assert |LedgerJson(a).items| == |a| && |LedgerJson(b).items| == |b|;
    forall k | 0 <= k < |a| ensures a[k] == b[k] {
      assert LedgerJson(a).items[k] == EntryJson(a[k]) && LedgerJson(b).items[k] == EntryJson(b[k]);
      EntryJsonInjective(a[k], b[k]);
    }
  }

  lemma SliceJsonInjective(a: Slice, b: Slice)
    requires SliceJson(a) == SliceJson(b)
    ensures a == b
  {
    var f, g := SliceJson(a).fields, SliceJson(b).fields;
    assert f["id"] == g["id"] && f["state"] == g["state"] && f["issue"] == g["issue"];
    assert f["pull_requests"] == g["pull_requests"];
    LedgerJsonInjective(a.ledger, b.ledger);
  }

  lemma InboxJsonKeepsItems(a: IdeaInbox, b: IdeaInbox)
    requires InboxJson(a) == InboxJson(b)
    ensures a.items == b.items
  {
    var f, g := InboxJson(a).fields["items"].items, InboxJson(b).fields["items"].items;
    assert |f| == |a.items| && |g| == |b.items|;
    forall k | 0 <= k < |a.items| ensures a.items[k] == b.items[k] {
      assert f[k] == TextJson(a.items[k]) && g[k] == TextJson(b.items[k]);
    }
  }

  lemma FramedKeepsTrain(s: State, t: State, items: set<Position>)
    requires Framed(s, t, items) && CleanItems(items) && Untouched(items, ["train"])
    ensures s.train == t.train
  {
    hide StateJson, InboxJson, CheckpointJson, SlicesJson, TrainJson, At, Framed, CleanItems, Untouched;
    FramedAgrees(s, t, items, ["train"]);
    AtField(s, "train");
    AtField(t, "train");
    TrainJsonInjective(s.train, t.train);
  }

  lemma FramedKeepsInbox(s: State, t: State, items: set<Position>)
    requires Framed(s, t, items) && CleanItems(items) && Untouched(items, ["idea_inbox"])
    ensures s.inbox.items == t.inbox.items
  {
    hide StateJson, InboxJson, CheckpointJson, SlicesJson, TrainJson, At, Framed, CleanItems, Untouched;
    FramedAgrees(s, t, items, ["idea_inbox"]);
    AtField(s, "idea_inbox");
    AtField(t, "idea_inbox");
    InboxJsonKeepsItems(s.inbox, t.inbox);
  }

  lemma FramedKeepsTrainField(s: State, t: State, items: set<Position>, field: string)
    requires Framed(s, t, items) && CleanItems(items) && Untouched(items, ["train", field])
    requires field in TrainJson(s.train).fields && field in TrainJson(t.train).fields
    ensures TrainJson(s.train).fields[field] == TrainJson(t.train).fields[field]
  {
    FramedAgrees(s, t, items, ["train", field]);
    AtTrainField(s, field);
    AtTrainField(t, field);
  }

  lemma FramedKeepsSlice(s: State, t: State, items: set<Position>, i: nat)
    requires Framed(s, t, items) && CleanItems(items) && Untouched(items, ["slices", Decimal(i)])
    requires i < |s.slices| && i < |t.slices|
    ensures s.slices[i] == t.slices[i]
  {
    FramedAgrees(s, t, items, ["slices", Decimal(i)]);
    AtSlice(s, i);
    AtSlice(t, i);
    SliceJsonInjective(s.slices[i], t.slices[i]);
  }

  lemma FramedKeepsLedger(s: State, t: State, items: set<Position>, i: nat)
    requires Framed(s, t, items) && CleanItems(items) && Untouched(items, ["slices", Decimal(i), "pull_requests"])
    requires i < |s.slices| && i < |t.slices|
    ensures s.slices[i].ledger == t.slices[i].ledger
  {
    FramedAgrees(s, t, items, ["slices", Decimal(i), "pull_requests"]);
    AtSliceField(s, i, "pull_requests");
    AtSliceField(t, i, "pull_requests");
    LedgerJsonInjective(s.slices[i].ledger, t.slices[i].ledger);
  }
}
