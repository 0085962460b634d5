/** Append-only continuation between two whole campaigns. */
module Continuation {
  import opened Basics
  import opened CampaignState
  import opened CampaignRules
  import opened Events
  import opened Receipts
  import opened Steps
  import opened ChainTheorems
  import opened Append

  /** `validate_append_only`: the same campaign, or one more receipt whose digests and transition fit both states. */
  predicate Continues(p: Campaign, c: Campaign) {
    && ValidCampaign(p) && ValidCampaign(c)
    && (p == c || (|c.receipts| == |p.receipts| + 1 && c.receipts[..|p.receipts|] == p.receipts
                   && ContinuationFits(p, c, c.receipts[|p.receipts|].body)))
  }

  predicate ContinuationFits(p: Campaign, c: Campaign, r: ReceiptBody) {
    r.previousState == OfState(p.state) && r.successorState == OfState(c.state)
      && ValidTransition(p.state, c.state, r.event)
  }

  /** The conclusion an older event lacks never decides what the event may change. */
  lemma NormalTransits(s: State, t: State, e: Event)
    requires ValidTransition(s, t, Normal(e)) && ValidEvent(e, true, false)
    ensures ValidTransition(s, t, e)
  {
    hide ValidState, SliceContinues, SameIdentity, SameScope, Framed, ValidEvent;
    NormalItems(s, t, e);
  }

  lemma NormalItems(s: State, t: State, e: Event)
    ensures AllowedItems(s, t, Normal(e)) == AllowedItems(s, t, e)
  {
    hide Touches, OpensEntry, MovesHead, OpensSliceIssue;
    NormalSlice(s, t, e);
    assert ExtendsInbox(s, t, Normal(e)) <==> ExtendsInbox(s, t, e);
    if EventSlice(s, t, e).Some? {
      var i := EventSlice(s, t, e).value;
      if i < |s.slices| && i < |t.slices| { NormalDelta(s, t, e, i); }
    }
    hide EventSlice, DeltaOk;
  }

  lemma NormalSlice(s: State, t: State, e: Event)
    ensures EventSlice(s, t, Normal(e)) == EventSlice(s, t, e)
  {
    assert TouchedSlices(s, Normal(e)) == TouchedSlices(s, e);
    assert TouchedSlices(t, Normal(e)) == TouchedSlices(t, e);
  }

  lemma NormalDelta(s: State, t: State, e: Event, i: nat)
    requires i < |s.slices| && i < |t.slices|
    ensures DeltaOk(s, t, Normal(e), i) <==> DeltaOk(s, t, e, i)
  {
  }

  /** Between valid campaigns the digest and transition checks are implied: only the one-receipt extension decides. */
  lemma ContinuesExactly(p: Campaign, c: Campaign)
    requires ValidCampaign(p) && ValidCampaign(c)
    ensures Continues(p, c)
            <==> p == c || (|c.receipts| == |p.receipts| + 1 && c.receipts[..|p.receipts|] == p.receipts)
  {
    hide ValidState, ValidTransition, ValidEvent, Bound;
    if p != c && |c.receipts| == |p.receipts| + 1 && c.receipts[..|p.receipts|] == p.receipts {
      NewReceiptFits(p, c);
    }
  }

  lemma NewReceiptFits(p: Campaign, c: Campaign)
    requires ValidCampaign(p) && ValidCampaign(c)
    requires |c.receipts| == |p.receipts| + 1 && c.receipts[..|p.receipts|] == p.receipts
    ensures ContinuationFits(p, c, c.receipts[|p.receipts|].body)
  {
    hide ValidState, ValidTransition, ValidEvent, Bound, InitializeOk, MigrationOk;
    var n := |p.receipts|;
    var r := c.receipts[n].body;
    assert LinkOk(c, n) && EffectOk(c, n);
    assert c.receipts[n - 1] == p.receipts[n - 1];
    assert r.previousState == OfState(p.state) && StateAfter(c, n - 1) == Some(p.state);
    NormalTransits(p.state, c.state, r.event);
  }

  /** An accepted append is an accepted continuation. */
  lemma AppendContinues(p: Campaign, s: Campaign, e: Event)
    requires AppendResult(p, s, e).Some?
    ensures Continues(p, AppendResult(p, s, e).value)
  {
    hide ValidCampaign, ContinuationFits, MayTransit;
    AppendIsValid(p, s, e);
    var c := AppendResult(p, s, e).value;
    AppendFrom(p, s, e);
    ContinuesExactly(p, c);
  }

  lemma AppendFrom(p: Campaign, s: Campaign, e: Event)
    requires AppendResult(p, s, e).Some?
    ensures ValidCampaign(p) && (p.state == s.state ==> AppendResult(p, s, e).value == p)
    ensures p.state != s.state ==> var c := AppendResult(p, s, e).value;
      |c.receipts| == |p.receipts| + 1 && c.receipts[..|p.receipts|] == p.receipts
  {
    hide ValidState, ValidTransition, ValidEvent, ValidChain, Bound;
    assert p.receipts != [] by { NotEmpty(p); }
  }

  predicate AllContinue(versions: seq<Campaign>) {
    forall i | 0 < i < |versions| :: Continues(versions[i - 1], versions[i])
  }

  /** Over any number of continuations nothing settled is lost and no receipt is rewritten. */
  lemma {:induction false} ContinuationsKeep(versions: seq<Campaign>, i: nat, j: nat)
    requires AllContinue(versions) && i < j < |versions|
    ensures versions[i].receipts <= versions[j].receipts
    ensures StateKeeps(versions[i].state, versions[j].state)
    decreases j
  {
    hide ValidCampaign, ContinuationFits;
    var p, c := versions[j - 1], versions[j];
    assert Continues(p, c);
    ContinuationKeeps(p, c);
    if i < j - 1 {
      ContinuationsKeep(versions, i, j - 1);
      KeepsTransitive(versions[i].state, p.state, c.state);
    }
  }

  lemma ContinuationKeeps(p: Campaign, c: Campaign)
    requires Continues(p, c)
    ensures p.receipts <= c.receipts && StateKeeps(p.state, c.state)
  {
    hide ValidState, ValidTransition, ValidChain, StateKeeps;
    if p == c {
      KeepsReflexive(p.state);
    } else {
      TransitionKeeps(p.state, c.state, c.receipts[|p.receipts|].body.event);
    }
  }
}
