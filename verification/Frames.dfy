/** Typed changes that the frame check admits: the converse of what an accepted frame keeps. */
module Frames {
  import opened Basics
  import opened Text
  import opened StructuralDiff
  import opened CampaignState
  import opened CampaignRules
  import opened Events
  import opened Steps
  import opened Append

  // ------------------------------------------------ one level of a difference

  /** A topmost difference of two objects with the same keys is in a field in which they differ. */
  lemma FieldDiffers<A(!new)>(b: Json<A>, a: Json<A>, pos: Position)
    requires b.Obj? && a.Obj? && b.fields.Keys == a.fields.Keys && Topmost(b, a, pos)
    ensures pos != [] && pos[0] in b.fields && b.fields[pos[0]] != a.fields[pos[0]]
    ensures Topmost(b.fields[pos[0]], a.fields[pos[0]], pos[1..])
  {
    if pos[0] in b.fields && b.fields[pos[0]] == a.fields[pos[0]] { EqualHasNoDifference(b.fields[pos[0]], pos[1..]); }
  }

  /** A topmost difference of two arrays of the same length is in an element in which they differ. */
  lemma ElementDiffers<A(!new)>(b: Json<A>, a: Json<A>, pos: Position) returns (i: nat)
    requires b.Arr? && a.Arr? && |b.items| == |a.items| && Topmost(b, a, pos)
    ensures pos != [] && i < |b.items| && pos[0] == Decimal(i) && b.items[i] != a.items[i]
    ensures Topmost(b.items[i], a.items[i], pos[1..])
  {
    i := Numeral(pos[0]);
    if HasChild(b, pos[0]) && b.items[i] == a.items[i] { EqualHasNoDifference(b.items[i], pos[1..]); }
  }

  // ------------------------------------------------ the fields of a state

  /** `s` with the progress fields of `t`. */
  function Carry(s: State, t: State): State {
    s.(phase := t.phase, observed := t.observed, observedRef := t.observedRef, pending := t.pending, stop := t.stop,
       next := t.next)
  }

  const PROGRESS :=
      {"campaign_state", "observed_event", "observed_event_ref", "pending_action", "stop_reason", "next_action"}

  lemma StateKeys(s: State, t: State)
    ensures StateJson(s).Obj? && StateJson(t).Obj? && StateJson(s).fields.Keys == StateJson(t).fields.Keys
  {
    FixedKeys(s, t);
    MovingKeys(s, t);
    hide IdentityFields, ProfileFields, ProgressFields, ActionFields, LedgerFields;
  }

  lemma FixedKeys(s: State, t: State)
    ensures IdentityFields(s).Keys == IdentityFields(t).Keys && ProfileFields(s).Keys == ProfileFields(t).Keys
  {
  }

  lemma MovingKeys(s: State, t: State)
    ensures ProgressFields(s).Keys == ProgressFields(t).Keys && ActionFields(s).Keys == ActionFields(t).Keys
    ensures LedgerFields(s).Keys == LedgerFields(t).Keys
  {
    hide InboxJson, TrainJson, SlicesJson, CheckpointJson, PendingJson, NextJson;
  }

  /** Apart from progress, two states that agree on the rest differ at most in their train and their slices. */
  lemma RestAgrees(s: State, t: State, key: string)
    requires t == Carry(s, t).(train := t.train, slices := t.slices) && key in StateJson(s).fields
    requires key in StateJson(t).fields
    ensures key in PROGRESS || key in {"train", "slices"} || StateJson(s).fields[key] == StateJson(t).fields[key]
  {
    hide InboxJson, TrainJson, SlicesJson, CheckpointJson, PendingJson, NextJson;
  }

  lemma ProgressIsCovered(key: string, extra: set<Position>, pos: Position)
    requires key in PROGRESS && pos != [] && pos[0] == key
    ensures Covered(ProgressItems() + extra, pos)
  {
    assert [key] in ProgressItems();
    assert [key] <= pos;
  }

  lemma TrainAndSlices(s: State)
    ensures StateJson(s).Obj? && "train" in StateJson(s).fields && "slices" in StateJson(s).fields
    ensures StateJson(s).fields["train"] == TrainJson(s.train) && StateJson(s).fields["slices"] == SlicesJson(s.slices)
  {
    LedgerParts(s);
    hide InboxJson, TrainJson, SlicesJson, CheckpointJson, PendingJson, NextJson;
  }

  // ------------------------------------------------ slice events

  /** What a slice event may change of its slice. */
  predicate SliceFits(a: Slice, b: Slice, o: Observed) {
    && b.id == a.id && (!o.SliceIssueOpened? ==> b.issue == a.issue) && (!MovesLedger(o) ==> b.ledger == a.ledger)
  }

  lemma SliceFieldDiffers(a: Slice, b: Slice, o: Observed, pos: Position)
    requires SliceFits(a, b, o) && Topmost(SliceJson(a), SliceJson(b), pos)
    requires o.SliceIssueOpened? ==> a.ledger == b.ledger
    ensures pos != [] && forall i: nat :: ["slices", Decimal(i), pos[0]] in SliceItems(o, i)
  {
    hide LedgerJson, Topmost;
    FieldDiffers(SliceJson(a), SliceJson(b), pos);
  }

  /** Progress, and the named slice as far as its event may change it: such a change passes the frame check. */
  lemma SliceEventIsFramed(s: State, t: State, o: Observed, i: nat)
    requires i < |s.slices| == |t.slices| && t == Carry(s, t).(slices := s.slices[i := t.slices[i]])
    requires SliceFits(s.slices[i], t.slices[i], o)
    requires (o.SliceIssueOpened? ==> s.slices[i].ledger == t.slices[i].ledger)
    ensures Framed(s, t, ProgressItems() + SliceItems(o, i))
  {
    hide StateJson, Topmost, FrameHolds, CleanItems, CleanJson, SliceJson, SliceItems, ProgressItems, SliceFits;
    hide Covered;
    var items := ProgressItems() + SliceItems(o, i);
    StateJsonIsClean(s);
    StateJsonIsClean(t);
    SliceEventItemsAreClean(o, i);
    StateKeys(s, t);
    TrainAndSlices(s);
    TrainAndSlices(t);
    forall pos | Topmost(StateJson(s), StateJson(t), pos) ensures Covered(items, pos) {
      FieldDiffers(StateJson(s), StateJson(t), pos);
      RestAgrees(s, t, pos[0]);
      if pos[0] in PROGRESS {
        ProgressIsCovered(pos[0], SliceItems(o, i), pos);
      } else {
        var k := ElementDiffers(SlicesJson(s.slices), SlicesJson(t.slices), pos[1..]);
        SliceFieldDiffers(s.slices[i], t.slices[i], o, pos[2..]);
        SliceIsCovered(o, i, pos);
      }
    }
    FrameExact(StateJson(s), StateJson(t), items);
  }

  lemma SliceEventItemsAreClean(o: Observed, i: nat)
    ensures CleanItems(ProgressItems() + SliceItems(o, i))
  {
    hide ProgressItems, SliceItems, CleanPosition;
    ProgressItemsShape();
    SliceItemsShape(o, i);
  }

  lemma SliceIsCovered(o: Observed, i: nat, pos: Position)
    requires |pos| >= 3 && pos[0] == "slices" && pos[1] == Decimal(i)
    requires ["slices", Decimal(i), pos[2..][0]] in SliceItems(o, i)
    ensures Covered(ProgressItems() + SliceItems(o, i), pos)
  {
    hide SliceItems, ProgressItems;
    var item := ["slices", Decimal(i), pos[2]];
    assert pos[2..][0] == pos[2];
    assert pos[..3] == item;
    assert item <= pos;
  }

  // ------------------------------------------------ train events

  /** The fields of the train that an event leaves alone agree. */
  predicate TrainFits(a: Train, b: Train, o: Observed) {
    forall f | f in TrainJson(a).fields && ["train", f] !in TrainItems(o) ::
      f in TrainJson(b).fields && TrainJson(a).fields[f] == TrainJson(b).fields[f]
  }

  lemma TrainKeys(a: Train, b: Train)
    ensures TrainJson(a).fields.Keys == TrainJson(b).fields.Keys
  {
    hide UpstreamJson;
  }

  /** Progress, and the train as far as the observed event may change it: such a change passes the frame check. */
  lemma TrainEventIsFramed(s: State, t: State, o: Observed)
    requires t == Carry(s, t).(train := t.train) && TrainFits(s.train, t.train, o)
    ensures Framed(s, t, ProgressItems() + TrainItems(o))
  {
    hide StateJson, Topmost, FrameHolds, CleanItems, CleanJson, TrainItems, ProgressItems, Covered;
    var items := ProgressItems() + TrainItems(o);
    StateJsonIsClean(s);
    StateJsonIsClean(t);
    TrainEventItemsAreClean(o);
    StateKeys(s, t);
    TrainAndSlices(s);
    TrainAndSlices(t);
    TrainKeys(s.train, t.train);
    forall pos | Topmost(StateJson(s), StateJson(t), pos) ensures Covered(items, pos) {
      FieldDiffers(StateJson(s), StateJson(t), pos);
      RestAgrees(s, t, pos[0]);
      if pos[0] in PROGRESS {
        ProgressIsCovered(pos[0], TrainItems(o), pos);
      } else {
        FieldDiffers(TrainJson(s.train), TrainJson(t.train), pos[1..]);
        TrainIsCovered(o, pos);
      }
    }
    FrameExact(StateJson(s), StateJson(t), items);
  }

  lemma TrainEventItemsAreClean(o: Observed)
    ensures CleanItems(ProgressItems() + TrainItems(o))
  {
    hide ProgressItems, TrainItems, CleanPosition;
    ProgressItemsShape();
    TrainItemsShape(o);
  }

  lemma TrainIsCovered(o: Observed, pos: Position)
    requires |pos| >= 2 && pos[0] == "train" && ["train", pos[1..][0]] in TrainItems(o)
    ensures Covered(ProgressItems() + TrainItems(o), pos)
  {
    hide TrainItems, ProgressItems;
    var item := ["train", pos[1]];
    assert pos[1..][0] == pos[1];
    assert pos[..2] == item;
    assert item <= pos;
  }

  // ------------------------------------------------ transitions

  lemma CarriedIdentity(s: State, t: State)
    requires t == Carry(s, t).(train := t.train, slices := t.slices) && |s.slices| == |t.slices|
    requires t.train.trainId == s.train.trainId && t.train.targetVersion == s.train.targetVersion
    requires t.train.upstream.repository == s.train.upstream.repository
    requires forall i | 0 <= i < |s.slices| :: t.slices[i].id == s.slices[i].id
    ensures SameIdentity(s, t) && SameScope(s, t) && s.inbox == t.inbox
  {
  }

  /** A slice event that continues its one slice is a valid transition. */
  lemma SliceEventTransits(s: State, t: State, e: Event, i: nat)
    requires ValidState(s) && ValidState(t) && ValidEvent(e, true, false) && IsSliceEvent(t.observed)
    requires i < |s.slices| == |t.slices| && t == Carry(s, t).(slices := s.slices[i := t.slices[i]])
    requires SliceFits(s.slices[i], t.slices[i], t.observed) && SliceContinues(s.slices[i], t.slices[i])
    requires t.observed.SliceIssueOpened? ==> s.slices[i].ledger == t.slices[i].ledger
    requires EventSlice(s, t, e) == Some(i) && DeltaOk(s, t, e, i)
    ensures ValidTransition(s, t, e)
  {
    hide ValidState, ValidEvent, SliceContinues, EventSlice, DeltaOk, Framed, ProgressItems, SliceItems;
    StateRepeats(s);
    SliceEventIsFramed(s, t, t.observed, i);
    CarriedIdentity(s, t);
    assert AllowedItems(s, t, e) == Some(ProgressItems() + SliceItems(t.observed, i));
  }

  /** A release event that changes only its own fields of the train is a valid transition. */
  lemma TrainEventTransits(s: State, t: State, e: Event)
    requires ValidState(s) && ValidState(t) && ValidEvent(e, true, false)
    requires t.observed.ReleaseCandidateMerged? || t.observed.ReleasePublished?
    requires t == Carry(s, t).(train := t.train) && TrainFits(s.train, t.train, t.observed)
    requires t.train.trainId == s.train.trainId && t.train.targetVersion == s.train.targetVersion
    requires t.train.upstream.repository == s.train.upstream.repository
    ensures ValidTransition(s, t, e)
  {
    hide ValidState, ValidEvent, SliceContinues, Framed, ProgressItems, TrainFits;
    StateRepeats(s);
    TrainEventIsFramed(s, t, t.observed);
    CarriedIdentity(s, t);
    assert AllowedItems(s, t, e) == Some(ProgressItems() + TrainItems(t.observed));
  }
}
