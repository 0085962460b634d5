/** Recording an idea: exactly when a valid campaign accepts one more entry in its inbox. */
module Ideas {
  import opened Basics
  import opened Text
  import opened StructuralDiff
  import opened CampaignState
  import opened CampaignRules
  import opened Events
  import opened Receipts
  import opened Steps
  import opened Frames
  import opened Append
  import opened Migration
  import opened Initialization

  function WithIdea(s: State, reference: string): State { s.(inbox := s.inbox.(items := s.inbox.items + [reference])) }

  function IdeaEvent(s: State, reference: string): Event {
    Event(Issue, ActOpened, s.repository, reference, NONE, Some(ConNotApplicable))
  }

  // ------------------------------------------------ the frame of an idea

  lemma InboxFieldDiffers(s: State, reference: string, key: string)
    requires key in StateJson(s).fields && key in StateJson(WithIdea(s, reference)).fields
    ensures key == "idea_inbox" || StateJson(s).fields[key] == StateJson(WithIdea(s, reference)).fields[key]
  {
    hide InboxJson, TrainJson, SlicesJson, CheckpointJson, PendingJson, NextJson;
  }

  lemma InboxField(s: State)
    ensures StateJson(s).Obj? && "idea_inbox" in StateJson(s).fields
    ensures StateJson(s).fields["idea_inbox"] == InboxJson(s.inbox)
  {
    LedgerParts(s);
    hide InboxJson, TrainJson, SlicesJson, CheckpointJson, PendingJson, NextJson;
  }

  lemma ItemsFieldDiffers(s: State, reference: string)
    ensures
      var b, a := InboxJson(s.inbox), InboxJson(WithIdea(s, reference).inbox);
      && b.Obj? && a.Obj? && b.fields.Keys == a.fields.Keys && "items" in b.fields
      && (forall k | k in b.fields && k != "items" :: b.fields[k] == a.fields[k])
  {
  }

  lemma InboxItemsAreClean()
    ensures CleanItems({["idea_inbox", "items"]})
  {
  }

  lemma IdeaIsFramed(s: State, reference: string)
    ensures Framed(s, WithIdea(s, reference), {["idea_inbox", "items"]})
  {
    hide StateJson, InboxJson, Topmost, FrameHolds, CleanItems, CleanJson;
    var t := WithIdea(s, reference);
    var items: set<Position> := {["idea_inbox", "items"]};
    StateJsonIsClean(s);
    StateJsonIsClean(t);
    InboxItemsAreClean();
    StateKeys(s, t);
    InboxField(s);
    InboxField(t);
    ItemsFieldDiffers(s, reference);
    forall pos | Topmost(StateJson(s), StateJson(t), pos) ensures Covered(items, pos) {
      FieldDiffers(StateJson(s), StateJson(t), pos);
      InboxFieldDiffers(s, reference, pos[0]);
      FieldDiffers(InboxJson(s.inbox), InboxJson(t.inbox), pos[1..]);
      assert pos[..2] == ["idea_inbox", "items"];
      assert ["idea_inbox", "items"] <= pos;
    }
    FrameExact(StateJson(s), StateJson(t), items);
  }

  // ------------------------------------------------ the state with an idea

  lemma ActionsIgnoreIdeas(s: State, reference: string)
    ensures var t := WithIdea(s, reference);
      && (SliceActionOk(t) <==> SliceActionOk(s)) && (ReleaseActionOk(t) <==> ReleaseActionOk(s))
      && (DeployActionOk(t) <==> DeployActionOk(s)) && (PhaseOk(t) <==> PhaseOk(s))
      && ExpectedNext(t) == ExpectedNext(s)
  {
    hide First, Has, Unfinished, Contains;
  }

  lemma InboxGrows(inbox: IdeaInbox, reference: string)
    requires ValidInbox(inbox)
    ensures ValidInbox(inbox.(items := inbox.items + [reference])) <==> IsIssue(reference) && reference !in inbox.items
  {
    hide IsIssue;
    var items := inbox.items + [reference];
    assert items[|inbox.items|] == reference;
    if reference in inbox.items {
      var i :| 0 <= i < |inbox.items| && inbox.items[i] == reference;
      assert items[i] == items[|inbox.items|];
    }
    assert reference in items;
  }

  lemma IdeaStateIsValid(s: State, reference: string)
    requires ValidState(s)
    ensures ValidState(WithIdea(s, reference)) <==> IsIssue(reference) && reference !in s.inbox.items
  {
    ActionsIgnoreIdeas(s, reference);
    InboxOf(s);
    InboxGrows(s.inbox, reference);
    hide SliceActionOk, ReleaseActionOk, DeployActionOk, PhaseOk, ExpectedNext, ValidInbox, ValidTrain, ValidSlices;
    hide ValidCheckpoint;
    hide IsIssue, IsEventRef, IsLine, ProfileOf;
  }

  lemma InboxOf(s: State)
    requires ValidState(s)
    ensures ValidInbox(s.inbox)
  {
    hide SliceActionOk, ReleaseActionOk, DeployActionOk, PhaseOk, ExpectedNext, ValidInbox, ValidTrain, ValidSlices;
    hide ValidCheckpoint;
    hide IsIssue, IsEventRef, ValidTexts, ValidProfileBinding;
  }

  lemma IdeaTransits(s: State, reference: string)
    requires ValidState(s) && IsIssue(reference) && reference !in s.inbox.items
    requires ValidEvent(IdeaEvent(s, reference), true, false)
    ensures ValidTransition(s, WithIdea(s, reference), IdeaEvent(s, reference))
  {
    hide ValidState, Framed, ValidEvent, SliceContinues, IsIssue;
    IdeaStateIsValid(s, reference);
    IdeaIsFramed(s, reference);
    StateRepeats(s);
    assert ExtendsInbox(s, WithIdea(s, reference), IdeaEvent(s, reference));
    hide EventSlice;
  }

  lemma IdeaEventIsValid(s: State, reference: string, allowLegacy: bool)
    requires IsRepository(s.repository)
    ensures ValidEvent(IdeaEvent(s, reference), allowLegacy, false) <==> IsIssue(reference) && |reference| <= 120
  {
    if IsIssue(reference) {
      IssueIsPlain(reference);
      PlainIsLine(reference, 120);
    }
    hide IsIssue, IsRepository, AllPlain;
  }

  lemma IdeaIsBound(s: State, reference: string)
    requires ValidEvent(IdeaEvent(s, reference), true, false)
    ensures Bound(WithIdea(s, reference), IdeaEvent(s, reference), true)
       <==> (s.observed.SliceIssueOpened? ==> reference == s.observedRef)
  {
    hide ValidEvent, TheEntry;
  }

  /**
   * Recording an idea never depends on the rest of the campaign, with one exception: while the last observed event
   * is the opening of a slice's issue, only that issue could be recorded.
   */
  lemma IdeaIsAccepted(p: Campaign, reference: string)
    requires ValidCampaign(p)
    ensures
      var e := IdeaEvent(p.state, reference);
      AppendResult(p, Campaign(WithIdea(p.state, reference), p.receipts), e).Some? <==>
        && IsIssue(reference) && |reference| <= 120 && reference !in p.state.inbox.items && !UsedBefore(p, e)
        && (p.state.observed.SliceIssueOpened? ==> reference == p.state.observedRef)
  {
    hide ValidState, ValidChain, ValidEvent, ValidTransition, Bound, IsIssue, Extended, IsRepository;
    var s, e := p.state, IdeaEvent(p.state, reference);
    OwnerAndProfile(s);
    ProfileIsRepository(s.repository);
    IdeaEventIsValid(s, reference, false);
    IdeaEventIsValid(s, reference, true);
    NotEmpty(p);
    if ValidEvent(e, false, false) { IdeaIsBound(s, reference); }
    if ValidTransition(s, WithIdea(s, reference), e) {
      TransitionKeeps(s, WithIdea(s, reference), e);
      IdeaStateIsValid(s, reference);
    } else if ValidEvent(e, true, false) && reference !in s.inbox.items {
      IdeaTransits(s, reference);
    }
    assert WithIdea(s, reference).inbox.items != s.inbox.items;
  }
}
