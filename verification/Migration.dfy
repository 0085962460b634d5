/** Migration from schema 1: exactly which old campaigns migrate, and that the result is a valid campaign. */
module Migration {
  import opened Basics
  import opened Text
  import opened CampaignState
  import opened CampaignRules
  import opened Events
  import opened Legacy
  import opened Receipts

  datatype Source = Old(oldState: OldState) | Current(campaign: Campaign)

  function MigrationReceipt(source: OldState, result: State, e: Event): Receipt {
    var body := ReceiptBody(
                  1, SchemaMigration, e, OfOldState(source), OfState(result), None,
                  OfKey(result.campaignId, e, SchemaMigration, OfOldState(source), OfState(result)),
                  Migration(source, result));
    Receipt(body, OfReceipt(body))
  }

  /** `migrate_campaign`: a current campaign is returned after validation; an old one is projected and validated. */
  function Migrate(v: Source, extra: set<char>): Option<Campaign> {
    match v
    case Current(c) => if ValidCampaign(c) then Some(c) else None
    case Old(s) =>
      match Project(s, extra)
      case None => None
      case Some((state, e)) =>
        var c := Campaign(state, [MigrationReceipt(s, state, e)]);
        if ValidCampaign(c) then Some(c) else None
  }

  /** The identifiers of an old campaign are in the narrower grammar of schema 2. */
  predicate CurrentGrammar(s: OldState) {
    && IsIssue(s.ownerIssue) && IsEventRef(s.observedRef) && IsIssueOrNone(s.checkpoint.reference)
    && (forall item | item in s.inbox.items :: IsIssue(item))
    && IsSemver(s.train.targetVersion) && (s.train.publishedVersion == NONE || IsSemver(s.train.publishedVersion))
    && forall i | 0 <= i < |s.slices| :: IsIssueOrNone(s.slices[i].issue) && IsIssueOrNone(s.slices[i].pr)
  }

  /** The observed reference names a real event that schema 2 can record. */
  predicate EventResolves(s: OldState) {
    InferEvent(s).Some? && |InferEvent(s).value.reference| <= 120
  }

  // ------------------------------------------------ parts of the projected state

  lemma {:induction false} FirstProjects(slices: seq<OldSlice>, projected: seq<Slice>, st: SliceState)
    requires |projected| == |slices| && forall i | 0 <= i < |slices| :: projected[i].state == slices[i].state
    ensures First(projected, st) == OldFirst(slices, st)
  {
    if slices != [] && slices[0].state != st { FirstProjects(slices[1..], projected[1..], st); }
  }

  lemma FirstsAgree(s: OldState)
    ensures forall st :: First(ProjectState(s).slices, st) == OldFirst(s.slices, st)
  {
    forall st { FirstProjects(s.slices, ProjectState(s).slices, st); }
  }

  lemma LedgerProjects(s: OldSlice, extra: set<char>)
    requires OldValidSlice(s, extra)
    ensures ValidLedger(ProjectSlice(s).ledger) <==> IsIssueOrNone(s.pr)
    ensures HasOpen(ProjectSlice(s).ledger) ==> ActiveLike(s.state)
  {
    hide IsLine, IsSliceId, IsSha, IsIssue, IsIssueWith;
    assert NONE != "" && !IsIssue(NONE) by { NoneIsNoIdentity(); }
    var l := ProjectSlice(s).ledger;
    if s.pr != NONE { assert l[0].sequence == 1; }
  }

  lemma SliceProjects(s: OldSlice, extra: set<char>)
    requires OldValidSlice(s, extra)
    ensures ValidSlice(ProjectSlice(s)) <==> IsIssueOrNone(s.issue) && IsIssueOrNone(s.pr)
    ensures HasOpen(ProjectSlice(s).ledger) ==> ActiveLike(s.state)
  {
    hide IsLine, IsSliceId, IsSha, IsIssueOrNone, OldIssueOrNone, ValidLedger;
    LedgerProjects(s, extra);
  }

  lemma SlicesProject(s: OldState, extra: set<char>)
    requires OldValidSlices(s.slices, s.mode, extra)
    ensures ValidSlices(ProjectState(s).slices, s.mode) <==>
      forall i | 0 <= i < |s.slices| :: IsIssueOrNone(s.slices[i].issue) && IsIssueOrNone(s.slices[i].pr)
  {
    hide OldValidSlice, ValidSlice, IsIssueOrNone, HasOpen;
    var slices := ProjectState(s).slices;
    forall i | 0 <= i < |s.slices|
      ensures ValidSlice(slices[i]) <==> IsIssueOrNone(s.slices[i].issue) && IsIssueOrNone(s.slices[i].pr)
      ensures HasOpen(slices[i].ledger) ==> ActiveLike(s.slices[i].state)
    {
      SliceProjects(s.slices[i], extra);
    }
    forall i, j | 0 <= i < j < |slices| ensures InOrder(slices[i], slices[j]) {
      assert OldInOrder(s.slices[i], s.slices[j]);
    }
  }

  lemma TrainProjects(t: OldTrain, extra: set<char>)
    requires OldValidTrain(t, extra)
    ensures ValidTrain(ProjectTrain(t), GithubArtifact) <==>
      && IsSemver(t.targetVersion) && (t.publishedVersion == NONE || IsSemver(t.publishedVersion)) && t.trainId != NONE
  {
    hide IsLine, IsSemver, IsSemverWith, IsSha;
    NoneIsNoIdentity();
  }

  lemma WaitSummaryIsLine()
    ensures IsLine(WAIT_SUMMARY, 300) && IsLine(NONE, 2000)
  {
    WaitForIsPlain();
    assert forall c | c in BEFORE_CONTINUING :: c != '\n' && c != '\r';
    TwoPieces(WAIT_FOR, BEFORE_CONTINUING);
  }

  lemma WaitForIsPlain()
    ensures forall c | c in WAIT_FOR :: c != '\n' && c != '\r'
  {
  }

  lemma TwoPieces(a: string, b: string)
    requires a != "" && b != "" && !IsSpace(a[0]) && !IsSpace(b[|b| - 1])
    requires (forall c | c in a :: c != '\n' && c != '\r') && forall c | c in b :: c != '\n' && c != '\r'
    ensures IsLine(a + b, |a| + |b|)
  {
    hide IsSpace;
  }

  lemma TextsProject(s: OldState)
    requires OldValidTexts(s)
    ensures ValidTexts(ProjectState(s))
  {
    hide IsLine;
    WaitSummaryIsLine();
  }

  lemma ProfileProjects(s: OldState)
    requires OldProfileOk(s)
    ensures ValidProfileBinding(ProjectState(s))
  {
  }

  lemma SliceActionProjects(s: OldState, extra: set<char>)
    requires OldSliceActionOk(s) && OldValidSlices(s.slices, s.mode, extra)
    ensures SliceActionOk(ProjectState(s))
  {
    hide Contains, OldInOrder, IsLine, IsSliceId, IsIssueWith, IsSha, First, OldFirst;
    FirstsAgree(s);
    if s.pending.kind.StartNextSlice? {
      var i := OldFirst(s.slices, Planned);
      FirstBounds(s.slices, Planned);
      if i > 0 { assert OldValidSlice(s.slices[i - 1], extra); }
    }
  }

  lemma FirstBounds(slices: seq<OldSlice>, st: SliceState)
    ensures OldFirst(slices, st) <= |slices|
    ensures OldFirst(slices, st) < |slices| ==> slices[OldFirst(slices, st)].state == st
  {
  }

  lemma ReleaseActionProjects(s: OldState)
    requires OldReleaseActionOk(s) && OldProfileOk(s) && OldKind(s.pending.kind)
    ensures ReleaseActionOk(ProjectState(s)) && DeployActionOk(ProjectState(s))
  {
    hide First, OldFirst;
    FirstsAgree(s);
  }

  lemma PhaseProjects(s: OldState, extra: set<char>)
    requires OldPhaseOk(s) && OldReleaseActionOk(s) && OldProfileOk(s) && OldKind(s.pending.kind)
    requires OldValidTrain(s.train, extra)
    ensures PhaseOk(ProjectState(s))
  {
    hide First, OldFirst, IsLine, IsSemverWith, IsSha;
    FirstsAgree(s);
  }

  lemma NextProjects(s: OldState)
    requires OldExpectedNext(s) == Some(s.next.nextType) && OldReleaseActionOk(s) && OldProfileOk(s)
    requires OldKind(s.pending.kind)
    requires s.next.nextType.UserActionRequired? <==> s.next.prompt != NONE
    ensures var t := ProjectState(s);
      ExpectedNext(t) == Some(t.next.nextType) && (t.next.nextType.UserActionRequired? <==> t.next.prompt != NONE)
  {
    hide OldFirst;
  }

  lemma GrammarOfParts(s: OldState, extra: set<char>)
    requires OldValidCheckpoint(s.checkpoint, extra) && OldValidInbox(s.inbox, extra)
    ensures ValidCheckpoint(s.checkpoint) <==> IsIssueOrNone(s.checkpoint.reference)
    ensures ValidInbox(s.inbox) <==> forall item | item in s.inbox.items :: IsIssue(item)
  {
    hide IsIssueWith, IsIssue;
    NoneIsNoIdentity();
  }

  /** An accepted old state projects onto an accepted state exactly when its identifiers fit the new grammar. */
  lemma StateProjects(s: OldState, extra: set<char>)
    requires OldValid(s, extra)
    ensures ValidState(ProjectState(s)) <==> CurrentGrammar(s) && s.train.trainId != NONE
  {
    TrainProjects(s.train, extra);
    SlicesProject(s, extra);
    GrammarOfParts(s, extra);
    TextsProject(s);
    ProfileProjects(s);
    SliceActionProjects(s, extra);
    ReleaseActionProjects(s);
    PhaseProjects(s, extra);
    NextProjects(s);
    hide ValidTrain, ValidSlices, ValidCheckpoint, ValidInbox, ValidTexts, ValidProfileBinding, SliceActionOk;
    hide ReleaseActionOk, DeployActionOk, PhaseOk, ExpectedNext, IsEventRef, IsIssue, IsSemver;
    hide OldPhaseOk, OldExpectedNext, OldSliceActionOk, OldReleaseActionOk, OldValidSlices, OldValidTrain;
    hide OldValidCheckpoint, OldValidInbox, OldEventRef;
  }

  // ------------------------------------------------ the inferred event

  predicate IsPlain(c: char) { IsDigit(c) || IsLetter(c) || c in {'#', ':', '-', '+', '.'} }

  predicate AllPlain(s: string) { forall c | c in s :: IsPlain(c) }

  lemma PlainIsLine(s: string, maximum: nat)
    requires AllPlain(s) && s != ""
    ensures IsLine(s, maximum) <==> |s| <= maximum
  {
    assert s[0] in s && s[|s| - 1] in s;
  }

  lemma {:induction false} SplitCovers(s: string, c: char)
    requires c in s && c != '.'
    ensures exists part | part in Split(s) :: c in part
    decreases |s|
  {
    var i := Find(s, '.');
    if i == |s| {
      assert s in Split(s);
    } else {
      assert s == s[..i] + [s[i]] + s[i + 1..];
      assert Split(s) == [s[..i]] + Split(s[i + 1..]);
      if c in s[..i] {
        assert s[..i] in Split(s);
      } else {
        SplitCovers(s[i + 1..], c);
        var part :| part in Split(s[i + 1..]) && c in part;
        assert part in Split(s);
      }
    }
  }

  lemma TagIsPlain(s: string)
    requires IsTag(s)
    ensures AllPlain(s)
  {
    forall c | c in s && c != '.' ensures IsPlain(c) { SplitCovers(s, c); }
  }

  lemma CoreIsPlain(s: string)
    requires forall n | n in Split(s) :: IsCoreNumber(n, {})
    ensures AllPlain(s)
  {
    forall c | c in s && c != '.' ensures IsPlain(c) {
      SplitCovers(s, c);
      var part :| part in Split(s) && c in part;
      assert IsCoreNumber(part, {});
    }
  }

  lemma SemverIsPlain(s: string)
    requires IsSemver(s)
    ensures AllPlain(s)
  {
    hide IsTag, IsCoreNumber, AllPlain;
    var plus := Find(s, '+');
    var head := s[..plus];
    var dash := Find(head, '-');
    CoreIsPlain(head[..dash]);
    if dash < |head| { TagIsPlain(head[dash + 1..]); PlainConcat(head, dash); } else { assert head[..dash] == head; }
    if plus < |s| { TagIsPlain(s[plus + 1..]); PlainConcat(s, plus); } else { assert s[..plus] == s; }
  }

  lemma PlainConcat(s: string, i: nat)
    requires i < |s| && AllPlain(s[..i]) && IsPlain(s[i]) && AllPlain(s[i + 1..])
    ensures AllPlain(s)
  {
    assert s == s[..i] + [s[i]] + s[i + 1..];
  }

  lemma EventRefIsPlain(s: string)
    requires IsEventRef(s)
    ensures AllPlain(s) && s != ""
  {
    hide IsSemver, Find, Split;
    if IsReleaseRef(s) {
      SemverIsPlain(s[9..]);
      assert s == "release:v" + s[9..];
    } else if IsRun(s) {
      assert s == "run:" + s[4..];
    } else if IsDeployment(s) {
      assert s == "deployment:" + s[11..];
    }
  }

  lemma {:induction false} MergedWithIn(slices: seq<OldSlice>, merge: string)
    ensures forall x | x in MergedWith(slices, merge) :: x in slices && x.merge == merge
  {
    if slices != [] { MergedWithIn(slices[1..], merge); }
  }

  lemma {:induction false} LastHeadIsSha(slices: seq<OldSlice>, build: string)
    requires IsShaOrNone(build) && forall x | x in slices :: IsShaOrNone(x.head)
    ensures IsShaOrNone(LastHead(slices, build))
  {
    if slices != [] {
      assert slices[|slices| - 1] in slices;
      LastHeadIsSha(slices[..|slices| - 1], build);
    }
  }

  lemma RefKinds(ref: string)
    requires IsEventRef(ref)
    ensures StartsWith(ref, "release:v") ==> IsReleaseRef(ref)
    ensures IsIssue(ref) ==> AllPlain(ref) && ref != ""
    ensures !IsIssue(NONE) && !IsSha(NONE)
  {
    hide IsSemver;
    NoneIsNoIdentity();
    if IsIssue(ref) { assert ref == "#" + ref[1..]; }
    if StartsWith(ref, "release:v") { assert ref[0] == 'r' && ref[1] == 'e' && ref[0] in ref; }
  }

  lemma MergedEventIsValid(s: OldState, extra: set<char>)
    requires OldValidSlices(s.slices, s.mode, extra) && CurrentGrammar(s) && IsSha(s.observedRef)
    requires |MergedWith(s.slices, s.observedRef)| == 1
    ensures IsIssue(MergedWith(s.slices, s.observedRef)[0].pr)
  {
    hide IsSha, IsIssueWith, IsIssue, IsSemver, IsEventRef, OldInOrder, IsLine, IsSliceId;
    MergedWithIn(s.slices, s.observedRef);
    var x := MergedWith(s.slices, s.observedRef)[0];
    NoneIsNoIdentity();
    var i :| 0 <= i < |s.slices| && s.slices[i] == x;
    assert OldValidSlice(s.slices[i], extra);
  }

  lemma IssueIsPlain(ref: string)
    requires IsIssue(ref)
    ensures AllPlain(ref) && ref != ""
  {
    assert ref == "#" + ref[1..];
  }

  lemma OldParts(s: OldState, extra: set<char>)
    requires OldValid(s, extra)
    ensures s.repository == "gabned/provelume" && IsShaOrNone(s.train.build)
    ensures OldValidSlices(s.slices, s.mode, extra)
  {
    hide OldPhaseOk, OldExpectedNext, OldSliceActionOk, OldReleaseActionOk, OldValidCheckpoint, OldValidInbox;
    hide OldEventRef, IsLine, OldValidTexts, OldValidSlices, IsSha, IsSemverWith, IsIssueWith;
  }

  lemma EventProjects(s: OldState, extra: set<char>)
    requires OldValid(s, extra) && CurrentGrammar(s) && InferEvent(s).Some?
    ensures var e := InferEvent(s).value; ValidEvent(e, false, true) <==> |e.reference| <= 120
  {
    hide OldValid, OldValidSlices, IsSemver, IsIssue, IsSha, IsRun, IsReleaseRef, IsEventRef, AllPlain, MergedWith;
    hide LastHead, IsLine, IsDeployment, IsRepository;
    OldParts(s, extra);
    var e, ref := InferEvent(s).value, s.observedRef;
    RefKinds(ref);
    EventRefIsPlain(ref);
    PlainIsLine(ref, 120);
    assert IsRepository("gabned/provelume") by { CoreRepository(); }
    if IsSha(ref) && s.observed.PrMerged? && |MergedWith(s.slices, ref)| == 1 && !IsIssue(ref) {
      MergedEventIsValid(s, extra);
      IssueIsPlain(e.reference);
      PlainIsLine(e.reference, 120);
    }
    if IsRun(ref) {
      HeadsAreShas(s, extra);
      LastHeadIsSha(s.slices, s.train.build);
    }
  }

  lemma HeadsAreShas(s: OldState, extra: set<char>)
    requires OldValidSlices(s.slices, s.mode, extra)
    ensures forall x | x in s.slices :: IsShaOrNone(x.head)
  {
    hide IsSha, IsIssueWith, OldInOrder, IsLine, IsSliceId;
    forall x | x in s.slices ensures IsShaOrNone(x.head) {
      var i :| 0 <= i < |s.slices| && s.slices[i] == x;
      assert OldValidSlice(s.slices[i], extra);
    }
  }

  lemma CoreRepository()
    ensures IsRepository("gabned/provelume")
  {
    var s := "gabned/provelume";
    assert s[6] == '/' && s[..6] == "gabned" && s[7..] == "provelume";
  }

  // ------------------------------------------------ the migration theorem

  /** The old grammar on identifiers that fit the new one does not depend on the extra digits. */
  lemma OldValidNarrow(s: OldState, extra: set<char>)
    requires OldValid(s, extra) && CurrentGrammar(s)
    ensures OldValid(s, {})
  {
    hide OldPhaseOk, OldExpectedNext, OldSliceActionOk, OldReleaseActionOk, OldValidTexts, OldInOrder, IsLine;
    hide IsSliceId, OldEventRef, IsPositiveNumeral, Find, Split;
    OldRefNarrow(s.observedRef, extra);
    forall i | 0 <= i < |s.slices| ensures OldValidSlice(s.slices[i], {}) {
      assert OldValidSlice(s.slices[i], extra);
    }
  }

  lemma OldRefNarrow(ref: string, extra: set<char>)
    requires OldEventRef(ref, extra) && IsEventRef(ref)
    ensures OldEventRef(ref, {})
  {
    hide IsPositiveNumeral, IsSemver;
    if StartsWith(ref, "#") || StartsWith(ref, "run:") {
      assert ref[0] == '#' || (ref[0] == 'r' && ref[1] == 'u');
    }
  }

  /** Exactly the old campaigns that migrate. */
  lemma MigratesExactly(s: OldState, extra: set<char>)
    ensures Migrate(Old(s), extra).Some? <==>
      OldValid(s, extra) && CurrentGrammar(s) && s.train.trainId != NONE && EventResolves(s)
  {
    hide OldValid, CurrentGrammar, ValidState, ValidEvent, InferEvent, ValidChain, ProjectState;
    if OldValid(s, extra) {
      StateProjects(s, extra);
      if CurrentGrammar(s) && InferEvent(s).Some? { EventProjects(s, extra); }
    }
    if Project(s, extra).Some? { MigratedIsValid(s, extra); }
  }

  lemma MigratedLink(s: OldState, t: State, e: Event)
    requires ValidEvent(e, true, true)
    ensures LinkOk(Campaign(t, [MigrationReceipt(s, t, e)]), 0)
  {
    hide ValidEvent;
  }

  lemma MigratedEffect(s: OldState, t: State, e: Event)
    requires Project(s, {}) == Some((t, e))
    ensures EffectOk(Campaign(t, [MigrationReceipt(s, t, e)]), 0)
  {
    hide Project;
  }

  lemma OneReceiptChain(c: Campaign)
    requires |c.receipts| == 1 && LinkOk(c, 0) && EffectOk(c, 0) && c.receipts[0].body.operation.SchemaMigration?
    requires StateAfter(c, 0) == Some(c.state) && c.receipts[0].body.successorState == OfState(c.state)
    ensures ValidChain(c)
  {
    hide LinkOk, EffectOk, Bound;
  }

  /** A projected campaign with its one receipt is valid, and its receipt retains the source. */
  lemma MigratedIsValid(s: OldState, extra: set<char>)
    requires Project(s, extra).Some?
    ensures var (t, e) := Project(s, extra).value; ValidCampaign(Campaign(t, [MigrationReceipt(s, t, e)]))
  {
    hide LinkOk, EffectOk, ValidState, OldValid, InferEvent, ProjectState, ValidEvent, ValidChain;
    var (t, e) := Project(s, extra).value;
    NarrowProject(s, extra);
    WeakerEvent(e, true);
    MigratedLink(s, t, e);
    MigratedEffect(s, t, e);
    OneReceiptChain(Campaign(t, [MigrationReceipt(s, t, e)]));
  }

  lemma NarrowProject(s: OldState, extra: set<char>)
    requires Project(s, extra).Some?
    ensures Project(s, {}) == Project(s, extra)
  {
    hide OldValid, CurrentGrammar, ValidState, ValidEvent, InferEvent, ProjectState;
    StateProjects(s, extra);
    OldValidNarrow(s, extra);
  }

  /** Migrating a migrated campaign returns it unchanged. */
  lemma MigrationIsIdempotent(v: Source, extra: set<char>)
    requires Migrate(v, extra).Some?
    ensures Migrate(Current(Migrate(v, extra).value), extra) == Migrate(v, extra)
  {
    hide ValidCampaign;
  }
}
