/** Theorems about whole receipt chains. */
module ChainTheorems {
  import opened Text
  import opened CampaignState
  import opened CampaignRules
  import opened Events
  import opened Receipts
  import opened Steps

  // ------------------------------------------------ states along the chain

  lemma AllReconstruct(c: Campaign, i: nat)
    requires ValidChain(c) && i < |c.receipts|
    ensures StateAfter(c, i).Some?
  {
    hide LinkOk, Bound, ValidTransition, ValidState, Legacy.Project, SameIdentity, SameScope, InitialStateOk;
    hide TransitionOk;
    assert EffectOk(c, i);
  }

  /** The campaign state after receipt `i`. */
  ghost function StateAt(c: Campaign, i: nat): State
    requires ValidChain(c) && i < |c.receipts|
  {
    AllReconstruct(c, i);
    StateAfter(c, i).value
  }

  /** Every receipt's successor digest is of the state the chain has after it. */
  lemma SuccessorIsNext(c: Campaign, i: nat)
    requires ValidChain(c) && i < |c.receipts|
    ensures c.receipts[i].body.successorState == OfState(StateAt(c, i))
  {
    hide LinkOk, Bound, ValidTransition, ValidState, Legacy.Project, SameIdentity, SameScope, InitialStateOk;
    assert EffectOk(c, i);
  }

  lemma LastState(c: Campaign)
    requires ValidChain(c)
    ensures StateAt(c, |c.receipts| - 1) == c.state
  {
    hide LinkOk, EffectOk, Bound, StateAfter;
  }

  lemma StepAt(c: Campaign, i: nat)
    requires ValidChain(c) && 0 < i < |c.receipts|
    ensures Step(StateAt(c, i - 1), StateAt(c, i), c.receipts[i].body.event)
    ensures c.receipts[i].body.operation.StateTransition?
  {
    hide Bound, ValidTransition, StateAfter, InitializeOk, MigrationOk;
    assert EffectOk(c, i);
  }

  lemma IdsDiffer(c: Campaign, i: nat, j: nat)
    requires ValidChain(c) && i < j < |c.receipts|
    ensures IdAt(c, i) != IdAt(c, j)
  {
    hide LinkOk, EffectOk, Bound, StateAfter;
  }

  // ------------------------------------------------ history is kept

  lemma KeepsReflexive(s: State)
    ensures StateKeeps(s, s)
  {
  }

  lemma KeepsTransitive(s: State, t: State, u: State)
    requires StateKeeps(s, t) && StateKeeps(t, u)
    ensures StateKeeps(s, u)
  {
    forall i | 0 <= i < |s.slices| ensures SliceKeeps(s.slices[i], u.slices[i]) {
      var a, b, d := s.slices[i], t.slices[i], u.slices[i];
      assert SliceKeeps(a, b) && SliceKeeps(b, d);
      forall k | 0 <= k < |a.ledger| ensures EntryKeeps(a.ledger[k], d.ledger[k]) {
        assert EntryKeeps(a.ledger[k], b.ledger[k]) && EntryKeeps(b.ledger[k], d.ledger[k]);
      }
    }
  }

  /** Every later state of a valid chain keeps what an earlier one settled. */
  lemma {:induction false} ChainKeeps(c: Campaign, i: nat, j: nat)
    requires ValidChain(c) && i <= j < |c.receipts|
    ensures StateKeeps(StateAt(c, i), StateAt(c, j))
    decreases j
  {
    hide ValidChain, StateAfter, StateKeeps, Step;
    if i == j {
      KeepsReflexive(StateAt(c, i));
    } else {
      ChainKeeps(c, i, j - 1);
      StepAt(c, j);
      StepKeeps(StateAt(c, j - 1), StateAt(c, j), c.receipts[j].body.event);
      KeepsTransitive(StateAt(c, i), StateAt(c, j - 1), StateAt(c, j));
    }
  }

  // ------------------------------------------------ chains that start natively

  predicate StartsNatively(c: Campaign) { c.receipts != [] && c.receipts[0].body.operation.Initialize? }

  lemma NativeStart(c: Campaign)
    requires ValidChain(c) && StartsNatively(c)
    ensures InitialStateOk(StateAt(c, 0))
  {
    hide Bound, ValidTransition, LinkOk, MigrationOk, TransitionOk, InitialStateOk, SameIdentity, SameScope, ValidState;
    assert EffectOk(c, 0);
  }

  predicate IdeaId(id: EventId, repository: string, reference: string) {
    id == EventId(Issue, ActOpened, repository, reference, NONE)
  }

  lemma IdeaStep(s: State, t: State, e: Event)
    requires Step(s, t, e) && ExtendsInbox(s, t, e)
    ensures IdeaId(Identity(e), t.repository, e.reference)
  {
    hide ValidTransition, ValidEvent, OutcomeFits;
    assert t.inbox.items[|t.inbox.items| - 1] == e.reference;
  }

  /** A receipt that does not extend the inbox observes its event, or names an idea recorded before. */
  lemma ObservesOrIdea(s: State, t: State, e: Event)
    requires Step(s, t, e) && !ExtendsInbox(s, t, e) && !Observes(t, e)
    ensures IdeaId(Identity(e), t.repository, e.reference) && e.reference in s.inbox.items
    ensures s.inbox.items == t.inbox.items
  {
    assert e.reference in t.inbox.items && IdeaId(Identity(e), t.repository, e.reference) by {
      hide ValidTransition, ValidEvent, OutcomeFits;
    }
    hide Step, DeltaOk;
    var _ := StepShape(s, t, e);
  }

  /** The idea was recorded by one of the receipts up to `i`. */
  ghost predicate IdeaRecorded(c: Campaign, i: nat, reference: string)
    requires ValidChain(c) && i < |c.receipts|
  {
    exists k | 0 < k <= i :: IdeaId(IdAt(c, k), c.state.repository, reference)
  }

  lemma SameRepository(c: Campaign, i: nat)
    requires ValidChain(c) && i < |c.receipts|
    ensures StateAt(c, i).repository == c.state.repository
  {
    hide ValidChain, StateAfter, SliceKeeps;
    ChainKeeps(c, i, |c.receipts| - 1);
    LastState(c);
  }

  /** The ideas that were there before the first receipt: none in a native chain, the source's own in a migrated one. */
  ghost function FirstIdeas(c: Campaign): seq<string>
    requires ValidChain(c)
  {
    StateAt(c, 0).inbox.items
  }

  lemma NativeHasNoFirstIdeas(c: Campaign)
    requires ValidChain(c) && StartsNatively(c)
    ensures FirstIdeas(c) == []
  {
    NativeStart(c);
  }

  /** Every idea in the inbox was there at first or was recorded by a receipt that carries its event. */
  lemma {:induction false} InboxProvenance(c: Campaign, i: nat, reference: string)
    requires ValidChain(c) && i < |c.receipts|
    requires reference in StateAt(c, i).inbox.items
    ensures reference in FirstIdeas(c) || IdeaRecorded(c, i, reference)
  {
    hide ValidChain, StateAfter, Step, DeltaOk;
    if i > 0 {
      var s, t, e := StateAt(c, i - 1), StateAt(c, i), c.receipts[i].body.event;
      StepAt(c, i);
      var _ := StepShape(s, t, e);
      if reference in s.inbox.items {
        InboxProvenance(c, i - 1, reference);
        if reference !in FirstIdeas(c) {
          var k :| 0 < k <= i - 1 && IdeaId(IdAt(c, k), c.state.repository, reference);
          assert IdeaId(IdAt(c, k), c.state.repository, reference);
        }
      } else {
        assert ExtendsInbox(s, t, e);
        IdeaStep(s, t, e);
        SameRepository(c, i);
        assert IdeaId(IdAt(c, i), c.state.repository, reference);
      }
    }
  }

  /** Receipt `i` carries the event of an idea that was there at first. */
  ghost predicate CarriesFirstIdea(c: Campaign, i: nat)
    requires ValidChain(c) && i < |c.receipts|
  {
    var reference := c.receipts[i].body.event.reference;
    reference in FirstIdeas(c) && IdeaId(IdAt(c, i), c.state.repository, reference)
  }

  /**
   * The idea exception hides a transition only behind an idea that was there at first; otherwise a receipt observes its
   * event.
   */
  lemma EveryReceiptObserves(c: Campaign, i: nat)
    requires ValidChain(c) && 0 < i < |c.receipts|
    ensures var s, t, e := StateAt(c, i - 1), StateAt(c, i), c.receipts[i].body.event;
      ExtendsInbox(s, t, e) || Observes(t, e) || CarriesFirstIdea(c, i)
  {
    hide ValidChain, StateAfter, Step, Observes;
    var s, t, e := StateAt(c, i - 1), StateAt(c, i), c.receipts[i].body.event;
    StepAt(c, i);
    SameRepository(c, i);
    if !ExtendsInbox(s, t, e) && !Observes(t, e) && !CarriesFirstIdea(c, i) {
      ObservesOrIdea(s, t, e);
      InboxProvenance(c, i - 1, e.reference);
      var k :| 0 < k <= i - 1 && IdeaId(IdAt(c, k), c.state.repository, e.reference);
      IdsDiffer(c, k, i);
      assert false;
    }
  }

  // ------------------------------------------------ provenance of closed and merged entries

  /** Receipt `k` turned the open entry at this place into a terminal one and carries exactly its event. */
  ghost predicate MadeTerminal(c: Campaign, k: nat, a: nat, b: nat)
    requires ValidChain(c) && k < |c.receipts|
  {
    && k > 0 && HasEntry(StateAt(c, k - 1), a, b) && !IsTerminalAt(StateAt(c, k - 1), a, b)
    && OwnsAt(StateAt(c, k), a, b, IdAt(c, k))
  }

  lemma TerminalEntryPersists(c: Campaign, k: nat, i: nat, a: nat, b: nat)
    requires ValidChain(c) && k <= i < |c.receipts| && IsTerminalAt(StateAt(c, k), a, b)
    ensures IsTerminalAt(StateAt(c, i), a, b)
    ensures StateAt(c, i).slices[a].ledger[b] == StateAt(c, k).slices[a].ledger[b]
    ensures StateAt(c, i).repository == StateAt(c, k).repository
  {
    hide ValidChain, StateAfter;
    ChainKeeps(c, k, i);
    var s, t := StateAt(c, k), StateAt(c, i);
    assert SliceKeeps(s.slices[a], t.slices[a]);
    assert EntryKeeps(s.slices[a].ledger[b], t.slices[a].ledger[b]);
  }

  /** Every closed or merged entry was made so by one receipt, which carries that entry's own event. */
  lemma {:induction false} TerminalProvenance(c: Campaign, i: nat, a: nat, b: nat) returns (k: nat)
    requires ValidChain(c) && StartsNatively(c) && i < |c.receipts| && IsTerminalAt(StateAt(c, i), a, b)
    ensures 0 < k <= i && MadeTerminal(c, k, a, b)
    ensures IdAt(c, k) == OwnEvent(c.state.repository, StateAt(c, i).slices[a].ledger[b])
    decreases i
  {
    hide ValidChain, StateAfter, Step, Observes, OwnEvent;
    SameRepository(c, i);
    k := i;
    if i == 0 {
      NativeStart(c);
      assert false;
    } else {
      var s, t, e := StateAt(c, i - 1), StateAt(c, i), c.receipts[i].body.event;
      StepAt(c, i);
      StepHistory(s, t, e, a);
      if IsTerminalAt(s, a, b) {
        k := TerminalProvenance(c, i - 1, a, b);
        TerminalEntryPersists(c, i - 1, i, a, b);
      } else {
        EveryReceiptObserves(c, i);
        NativeHasNoFirstIdeas(c);
        TerminalNeedsPrEvent(s, t, e, a, b);
        var a', b' := TerminalStep(s, t, e, a, b);
        if OwnsAt(s, a', b', Identity(e)) {
          var k' := TerminalProvenance(c, i - 1, a', b');
          SameRepository(c, i - 1);
          IdsDiffer(c, k', i);
          assert false;
        }
      }
    }
  }

  // ------------------------------------------------ provenance of the published build

  ghost predicate IsPublished(c: Campaign, i: nat)
    requires ValidChain(c) && i < |c.receipts|
  {
    StateAt(c, i).train.publication.Published?
  }

  /** The published build was introduced by a release event that carries it. */
  lemma {:induction false} PublishedProvenance(c: Campaign, i: nat) returns (k: nat)
    requires ValidChain(c) && StartsNatively(c) && i < |c.receipts| && IsPublished(c, i)
    ensures 0 < k <= i && !IsPublished(c, k - 1) && IsPublished(c, k)
    ensures IdAt(c, k) ==
      EventId(Release, ActPublished, c.state.repository, StateAt(c, k).observedRef, StateAt(c, i).train.publishedBuild)
    decreases i
  {
    hide ValidChain, StateAfter, Step, Observes;
    SameRepository(c, i);
    k := i;
    if i == 0 {
      NativeStart(c);
      assert false;
    } else {
      var s, t, e := StateAt(c, i - 1), StateAt(c, i), c.receipts[i].body.event;
      StepAt(c, i);
      EveryReceiptObserves(c, i);
      NativeHasNoFirstIdeas(c);
      if IsPublished(c, i - 1) {
        k := PublishedProvenance(c, i - 1);
        PublishedStays(s, t, e);
      } else {
        var _ := StepShape(s, t, e);
        PublishStep(s, t, e);
      }
    }
  }

  /**
   * State, version and build of a published train never change, unless a receipt carries an idea that was there at
   * first.
   */
  lemma {:induction false} PublicationHolds(c: Campaign, i: nat, j: nat)
    requires ValidChain(c) && i <= j < |c.receipts| && IsPublished(c, i)
    requires forall k | i < k <= j :: !CarriesFirstIdea(c, k)
    ensures IsPublished(c, j)
    ensures var s, t := StateAt(c, i).train, StateAt(c, j).train;
      t.publishedVersion == s.publishedVersion && t.publishedBuild == s.publishedBuild
    decreases j
  {
    hide ValidChain, StateAfter, Step, Observes, CarriesFirstIdea;
    if i < j {
      PublicationHolds(c, i, j - 1);
      StepAt(c, j);
      EveryReceiptObserves(c, j);
      PublishedStays(StateAt(c, j - 1), StateAt(c, j), c.receipts[j].body.event);
    }
  }

  /** In a chain whose first inbox is empty, every native one among them, publication is permanent. */
  lemma PublicationIsPermanent(c: Campaign, i: nat, j: nat)
    requires ValidChain(c) && FirstIdeas(c) == [] && i <= j < |c.receipts| && IsPublished(c, i)
    ensures IsPublished(c, j)
    ensures var s, t := StateAt(c, i).train, StateAt(c, j).train;
      t.publishedVersion == s.publishedVersion && t.publishedBuild == s.publishedBuild
  {
    hide ValidChain, StateAfter;
    PublicationHolds(c, i, j);
  }
}
