/** Appending one receipt: incremental acceptance, replay of the last event, and what a head digest fixes. */
module Append {
  import opened Basics
  import opened Text
  import StructuralDiff
  import opened CampaignState
  import opened CampaignRules
  import opened Events
  import opened Receipts
  import opened Steps

  function NewReceipt(p: Campaign, after: State, e: Event): Receipt
    requires p.receipts != []
  {
    var body := ReceiptBody(
                  |p.receipts| + 1, StateTransition, e, OfState(p.state), OfState(after),
                  Some(p.receipts[|p.receipts| - 1].sha),
                  OfKey(after.campaignId, e, StateTransition, OfState(p.state), OfState(after)),
                  Transition(p.state, after));
    Receipt(body, OfReceipt(body))
  }

  function Extended(p: Campaign, after: State, e: Event): Campaign
    requires p.receipts != []
  {
    Campaign(after, p.receipts + [NewReceipt(p, after, e)])
  }

  predicate UsedBefore(p: Campaign, e: Event) {
    exists i | 0 <= i < |p.receipts| :: IdAt(p, i) == Identity(e)
  }

  predicate IsLastEvent(p: Campaign, e: Event)
    requires p.receipts != []
  {
    var last := p.receipts[|p.receipts| - 1].body.event;
    Identity(last) == Identity(e) && Normal(last).conclusion == e.conclusion
  }

  predicate MayTransit(p: Campaign, s: Campaign, e: Event) {
    && ValidCampaign(p) && s.receipts == p.receipts
    && ValidEvent(e, false, false) && ValidTransition(p.state, s.state, e)
  }

  /** What an append returns: decided from the last state and the event alone, without replaying the result. */
  function AppendResult(p: Campaign, s: Campaign, e: Event): Option<Campaign> {
    if !MayTransit(p, s, e) then None
    else if p.state == s.state then (if IsLastEvent(p, e) then Some(p) else None)
    else if UsedBefore(p, e) || !Bound(s.state, e, true) then None
    else Some(Extended(p, s.state, e))
  }

  // ------------------------------------------------ the extended chain

  lemma ExtendedStates(p: Campaign, after: State, e: Event, i: nat)
    requires ValidChain(p) && i < |p.receipts|
    ensures StateAfter(Extended(p, after, e), i) == StateAfter(p, i)
  {
    hide LinkOk, EffectOk, Bound;
  }

  lemma ExtendedLinks(p: Campaign, after: State, e: Event, i: nat)
    requires ValidChain(p) && i < |p.receipts| && after.campaignId == p.state.campaignId
    ensures LinkOk(Extended(p, after, e), i)
  {
    hide EffectOk, Bound, ValidEvent, StateAfter;
    assert LinkOk(p, i);
  }

  lemma ExtendedInitialize(p: Campaign, q: Campaign, r: ReceiptBody)
    requires InitializeOk(p, r) && StateKeeps(p.state, q.state)
    ensures InitializeOk(q, r)
  {
    hide ValidState, InitialStateOk;
    forall i | 0 <= i < |p.state.slices| ensures SliceKeeps(p.state.slices[i], q.state.slices[i]) {
    }
  }

  lemma ExtendedEffects(p: Campaign, after: State, e: Event, i: nat)
    requires ValidChain(p) && i < |p.receipts| && StateKeeps(p.state, after)
    ensures EffectOk(Extended(p, after, e), i)
  {
    hide InitializeOk, MigrationOk, TransitionOk, Bound, LinkOk, StateAfter, StateKeeps;
    assert EffectOk(p, i);
    ExtendedStates(p, after, e, i);
    if i > 0 { ExtendedStates(p, after, e, i - 1); }
    if p.receipts[i].body.operation.Initialize? {
      ExtendedInitialize(p, Extended(p, after, e), p.receipts[i].body);
    }
  }

  lemma NewLink(p: Campaign, after: State, e: Event)
    requires ValidChain(p) && ValidEvent(e, false, false)
    ensures LinkOk(Extended(p, after, e), |p.receipts|)
  {
    hide EffectOk, LinkOk, Bound, ValidEvent, StateAfter;
    var q := Extended(p, after, e);
    assert q.receipts[|p.receipts| - 1] == p.receipts[|p.receipts| - 1];
    assert ValidEvent(e, true, false) by { WeakerEvent(e, false); }
    LinkOfNew(p, after, e);
  }

  lemma LinkOfNew(p: Campaign, after: State, e: Event)
    requires p.receipts != [] && ValidEvent(e, true, false)
    requires p.receipts[|p.receipts| - 1].body.successorState == OfState(p.state)
    ensures LinkOk(Extended(p, after, e), |p.receipts|)
  {
    hide ValidEvent;
  }

  lemma NewEffect(p: Campaign, after: State, e: Event)
    requires ValidChain(p) && ValidEvent(e, false, false) && ValidTransition(p.state, after, e)
    ensures EffectOk(Extended(p, after, e), |p.receipts|) <==> Bound(after, e, true)
  {
    hide InitializeOk, MigrationOk, Bound, LinkOk, ValidTransition;
    WeakerEvent(e, false);
    ExtendedStates(p, after, e, |p.receipts| - 1);
  }

  lemma NewState(p: Campaign, after: State, e: Event)
    requires p.receipts != []
    ensures StateAfter(Extended(p, after, e), |p.receipts|) == Some(after)
  {
  }

  lemma ExtendedIds(p: Campaign, after: State, e: Event, i: nat)
    requires p.receipts != [] && i <= |p.receipts|
    ensures IdAt(Extended(p, after, e), i) == if i < |p.receipts| then IdAt(p, i) else Identity(e)
  {
  }

  lemma ExtendedGood(p: Campaign, after: State, e: Event)
    requires ValidChain(p) && StateKeeps(p.state, after)
    ensures GoodChain(Extended(p, after, e), |p.receipts|)
  {
    hide EffectOk, LinkOk, Bound, StateAfter, StateKeeps, Extended, IdAt;
    var q, n := Extended(p, after, e), |p.receipts|;
    assert |q.receipts| == n + 1 by { ExtendedState(p, after, e); }
    KeepsCampaignId(p.state, after);
    forall i | 0 <= i < n ensures LinkOk(q, i) && EffectOk(q, i) && IdAt(q, i) == IdAt(p, i) {
      ExtendedLinks(p, after, e, i);
      ExtendedEffects(p, after, e, i);
      ExtendedIds(p, after, e, i);
    }
  }

  /** The extended chain is valid exactly when the new event is new and bound to the new state. */
  lemma ExtendedIsValid(p: Campaign, after: State, e: Event)
    requires ValidChain(p) && ValidEvent(e, false, false) && ValidTransition(p.state, after, e)
    requires StateKeeps(p.state, after)
    ensures ValidChain(Extended(p, after, e)) <==> !UsedBefore(p, e) && Bound(after, e, true)
  {
    hide EffectOk, LinkOk, Bound, ValidEvent, StateAfter, ValidTransition, StateKeeps, GoodChain, IdAt, ValidChain;
    NotEmpty(p);
    var q, n := Extended(p, after, e), |p.receipts|;
    NewState(p, after, e);
    NewLink(p, after, e);
    NewEffect(p, after, e);
    ExtendedGood(p, after, e);
    GoodChainNext(q, n);
    forall i | 0 <= i <= n { ExtendedIds(p, after, e, i); }
    ChainByGood(q);
  }

  lemma ChainByGood(c: Campaign)
    requires c.receipts != []
    ensures ValidChain(c) <==>
      && GoodChain(c, |c.receipts|)
      && var last := c.receipts[|c.receipts| - 1].body;
      && StateAfter(c, |c.receipts| - 1) == Some(c.state) && last.successorState == OfState(c.state)
      && (last.operation.SchemaMigration? || Bound(c.state, last.event, last.operation.StateTransition?))
  {
    hide EffectOk, LinkOk, Bound, StateAfter;
  }

  lemma KeepsCampaignId(s: State, t: State)
    requires StateKeeps(s, t)
    ensures t.campaignId == s.campaignId
  {
  }

  /** Appending and then re-checking the whole chain accepts exactly what the incremental rule accepts. */
  method AppendTransitionReceipt(p: Campaign, s: Campaign, e: Event) returns (r: Option<Campaign>)
    ensures r == AppendResult(p, s, e)
  {
    hide ValidState, ValidEvent, ValidTransition, Bound, ValidChain, Extended;
    var chainOk := ValidateReceipts(p);
    if !ValidState(p.state) || !chainOk { return None; }
    if s.receipts != p.receipts { return None; }
    if !ValidEvent(e, false, false) || !ValidTransition(p.state, s.state, e) { return None; }
    assert p.receipts != [] by { NotEmpty(p); }
    if p.state == s.state {
      if IsLastEvent(p, e) { return Some(p); }
      return None;
    }
    for i := 0 to |p.receipts|
      invariant forall k | 0 <= k < i :: IdAt(p, k) != Identity(e)
    {
      if IdAt(p, i) == Identity(e) { return None; }
    }
    TransitionKeeps(p.state, s.state, e);
    ExtendedIsValid(p, s.state, e);
    var extended := Extended(p, s.state, e);
    assert extended.state == s.state by { ExtendedState(p, s.state, e); }
    var resultOk := ValidateReceipts(extended);
    if !ValidState(extended.state) || !resultOk { return None; }
    return Some(extended);
  }

  lemma NotEmpty(p: Campaign)
    requires ValidChain(p)
    ensures p.receipts != []
  {
    hide EffectOk, LinkOk, Bound, StateAfter;
  }

  lemma ExtendedState(p: Campaign, after: State, e: Event)
    requires p.receipts != []
    ensures Extended(p, after, e).state == after && |Extended(p, after, e).receipts| == |p.receipts| + 1
  {
  }

  /** An accepted append yields a valid campaign that retains every earlier receipt. */
  lemma AppendIsValid(p: Campaign, s: Campaign, e: Event)
    requires AppendResult(p, s, e).Some?
    ensures var c := AppendResult(p, s, e).value;
      && ValidCampaign(c) && p.receipts <= c.receipts && c.state == s.state
      && |c.receipts| == |p.receipts| + if p.state == s.state then 0 else 1
  {
    hide ValidState, ValidEvent, ValidTransition, Bound, ValidChain;
    TransitionKeeps(p.state, s.state, e);
    NotEmpty(p);
    ExtendedIsValid(p, s.state, e);
  }

  // ------------------------------------------------ resubmitting the last event

  lemma LedgerRepeats(l: Ledger)
    requires ValidLedger(l)
    ensures ValidHistory(l, l)
  {
    hide ValidEntry;
  }

  lemma StateRepeats(t: State)
    requires ValidState(t)
    ensures SameIdentity(t, t) && SameScope(t, t)
    ensures forall i | 0 <= i < |t.slices| :: SliceContinues(t.slices[i], t.slices[i])
  {
    hide ValidState, ValidHistory, ValidLedger;
    StateParts(t);
    forall i | 0 <= i < |t.slices| { LedgerRepeats(t.slices[i].ledger); }
  }

  lemma NoChangeIsFramed(t: State, items: set<StructuralDiff.Position>)
    ensures Framed(t, t, items)
  {
  }

  /** An event that changes nothing is accepted unless it must name one slice and does not. */
  lemma IdleTransition(t: State, e: Event)
    requires ValidState(t) && ValidEvent(e, false, false)
    ensures ValidTransition(t, t, e) <==> (IsSliceEvent(t.observed) ==> EventSlice(t, t, e).Some?)
  {
    hide ValidState, ValidEvent, EventSlice, SliceContinues, SameIdentity, SameScope, Framed, DeltaOk, ProgressItems;
    hide SliceItems;
    StateRepeats(t);
    assert ValidEvent(e, true, false) by { WeakerEvent(e, false); }
    assert !ExtendsInbox(t, t, e) by { assert |t.inbox.items + [e.reference]| == |t.inbox.items| + 1; }
    if IsSliceEvent(t.observed) && EventSlice(t, t, e).Some? {
      EventSliceInRange(t, e);
      assert DeltaOk(t, t, e, EventSlice(t, t, e).value) by { IdleDelta(t, e, EventSlice(t, t, e).value); }
    }
    assert AllowedItems(t, t, e).Some? <==> (IsSliceEvent(t.observed) ==> EventSlice(t, t, e).Some?);
    if AllowedItems(t, t, e).Some? { NoChangeIsFramed(t, AllowedItems(t, t, e).value); }
  }

  lemma EventSliceInRange(t: State, e: Event)
    requires EventSlice(t, t, e).Some?
    ensures EventSlice(t, t, e).value < |t.slices|
  {
  }

  lemma IdleDelta(t: State, e: Event, i: nat)
    requires i < |t.slices|
    ensures DeltaOk(t, t, e, i)
  {
  }

  /** The slice an accepted event names keeps being the only one it names. */
  lemma SliceStaysNamed(s: State, t: State, e: Event)
    requires Step(s, t, e) && ValidEvent(e, false, false) && !ExtendsInbox(s, t, e) && IsSliceEvent(t.observed)
    ensures EventSlice(t, t, e).Some?
  {
    hide Step, StateKeeps, EventSlice, TouchedSlices, DeltaOk, ValidEvent;
    var i := StepShape(s, t, e);
    StepKeeps(s, t, e);
    WeakerEvent(e, false);
    StepSlice(s, t, e);
    var k := EventSlice(s, t, e).value;
    OneTouched(s, t, e);
    if k in TouchedSlices(s, e) { TouchedStays(s, t, e, k); }
    TouchedOnce(t, e, k);
  }

  lemma StepSlice(s: State, t: State, e: Event)
    requires Step(s, t, e) && Normal(e) == e && !ExtendsInbox(s, t, e) && IsSliceEvent(t.observed)
    ensures EventSlice(s, t, e).Some?
  {
    hide ValidState, SliceContinues, DeltaOk, EventSlice, Framed, SliceItems, ProgressItems, SameIdentity, Bound, Step;
    StepParts(s, t, e);
  }

  lemma OneTouched(s: State, t: State, e: Event)
    requires EventSlice(s, t, e).Some?
    ensures TouchedSlices(s, e) + TouchedSlices(t, e) == {EventSlice(s, t, e).value}
  {
    hide TouchedSlices;
  }

  lemma TouchedOnce(t: State, e: Event, k: nat)
    requires TouchedSlices(t, e) == {k}
    ensures EventSlice(t, t, e).Some?
  {
    hide TouchedSlices;
    assert TouchedSlices(t, e) + TouchedSlices(t, e) == {k};
    assert k in TouchedSlices(t, e) + TouchedSlices(t, e);
  }

  lemma TouchedStays(s: State, t: State, e: Event, k: nat)
    requires Step(s, t, e) && ValidEvent(e, false, false) && !ExtendsInbox(s, t, e) && IsSliceEvent(t.observed)
    requires k in TouchedSlices(s, e)
    ensures k in TouchedSlices(t, e)
  {
    hide Step, DeltaOk;
    var _ := StepShape(s, t, e);
    StepKeeps(s, t, e);
    var a, b := s.slices[k], t.slices[k];
    assert SliceKeeps(a, b);
    match e.kind {
      case PullRequest =>
        var n :| 0 <= n < |a.ledger| && a.ledger[n].pr == e.reference;
        assert EntryKeeps(a.ledger[n], b.ledger[n]) && b.ledger[n] in b.ledger;
      case Issue =>
        assert a.issue != NONE by { NoneIsNoIdentity(); }
      case _ =>
        NoLedgerMove(s, t, e);
        assert a.ledger == b.ledger;
    }
  }

  /** Only a pull-request event, or a recorded idea, can be observed while a ledger moves. */
  lemma NoLedgerMove(s: State, t: State, e: Event)
    requires Step(s, t, e) && !e.kind.PullRequest? && !e.kind.Issue?
    ensures !MovesLedger(t.observed)
  {
    hide ValidTransition, ValidEvent, OutcomeFits;
  }

  predicate IsIdeaAppend(p: Campaign, s: Campaign, e: Event) { ExtendsInbox(p.state, s.state, e) }

  /** Resubmitting an accepted event leaves the campaign as it is; only a recorded idea may be refused a second time. */
  lemma ReplayResult(p: Campaign, s: Campaign, e: Event)
    requires AppendResult(p, s, e).Some? && p.state != s.state
    ensures var c := AppendResult(p, s, e).value;
      AppendResult(c, c, e) ==
        if IsIdeaAppend(p, s, e) && IsSliceEvent(c.state.observed) && EventSlice(c.state, c.state, e).None? then None
        else Some(c)
  {
    hide ValidState, ValidEvent, ValidTransition, Bound, ValidChain, EventSlice, ExtendsInbox;
    var c := AppendResult(p, s, e).value;
    AppendIsValid(p, s, e);
    WeakerEvent(e, false);
    IdleTransition(c.state, e);
    if !IsIdeaAppend(p, s, e) && IsSliceEvent(c.state.observed) {
      SliceStaysNamed(p.state, c.state, e);
    }
  }

  // ------------------------------------------------ the head digest

  lemma LinkParts(c: Campaign, i: nat)
    requires ValidChain(c) && i < |c.receipts|
    ensures var r := c.receipts[i]; r.body.sequence == i + 1 && r.sha == OfReceipt(r.body)
    ensures i > 0 ==> c.receipts[i].body.previousReceipt == Some(c.receipts[i - 1].sha)
    ensures c.receipts[|c.receipts| - 1].body.successorState == OfState(c.state)
  {
    hide EffectOk, Bound, ValidEvent, StateAfter;
    assert LinkOk(c, i);
  }

  lemma {:induction false} SamePrefix(c: Campaign, d: Campaign, i: nat)
    requires ValidChain(c) && ValidChain(d) && i < |c.receipts| && i < |d.receipts|
    requires c.receipts[i].sha == d.receipts[i].sha
    ensures c.receipts[..i + 1] == d.receipts[..i + 1]
  {
    hide ValidChain;
    LinkParts(c, i);
    LinkParts(d, i);
    if i > 0 { SamePrefix(c, d, i - 1); }
    assert c.receipts[..i + 1] == c.receipts[..i] + [c.receipts[i]];
    assert d.receipts[..i + 1] == d.receipts[..i] + [d.receipts[i]];
  }

  /** The digest of the last receipt fixes the whole campaign: every receipt and the state. */
  lemma HeadFixesCampaign(c: Campaign, d: Campaign)
    requires ValidChain(c) && ValidChain(d)
    requires c.receipts != [] && d.receipts != []
    requires c.receipts[|c.receipts| - 1].sha == d.receipts[|d.receipts| - 1].sha
    ensures c == d
  {
    hide ValidChain;
    var m, n := |c.receipts|, |d.receipts|;
    LinkParts(c, m - 1);
    LinkParts(d, n - 1);
    SamePrefix(c, d, m - 1);
    assert c.receipts[..m] == c.receipts && d.receipts[..n] == d.receipts;
  }
}
