/** The receipt chain: its specification, the replay that checks it, and the append operation. */
module Receipts {
  import opened Basics
  import opened Text
  import opened CampaignState
  import opened CampaignRules
  import opened Events
  import opened Legacy

  datatype Operation = Initialize | SchemaMigration | StateTransition

  /** An ideal digest: it determines what was digested. `Foreign` is any other well-formed digest text. */
  datatype Digest =
    | Genesis
    | OfState(state: State)
    | OfOldState(oldState: OldState)
    | OfReceipt(body: ReceiptBody)
    | OfKey(campaignId: string, event: Event, operation: Operation, before: Digest, after: Digest)
    | Foreign(text: string)

  datatype Snapshots =
    | NoSnapshots
    | Initial(initial: State)
    | Migration(source: OldState, result: State)
    | Transition(previous: State, successor: State)

  datatype ReceiptBody = ReceiptBody(
    sequence: int, operation: Operation, event: Event, previousState: Digest, successorState: Digest,
    previousReceipt: Option<Digest>, key: Digest, snapshots: Snapshots)

  datatype Receipt = Receipt(body: ReceiptBody, sha: Digest)

  datatype Campaign = Campaign(state: State, receipts: seq<Receipt>)

  // ------------------------------------------------ specification

  /** The state a receipt leads to, reconstructed from its own or the next receipt's snapshots. */
  function StateAfter(c: Campaign, i: nat): Option<State>
    requires i < |c.receipts|
  {
    match c.receipts[i].body.snapshots
    case Initial(s) => Some(s)
    case Migration(_, s) => Some(s)
    case Transition(_, s) => Some(s)
    case NoSnapshots =>
      if i == |c.receipts| - 1 then Some(c.state)
      else if c.receipts[i + 1].body.snapshots.Transition? then Some(c.receipts[i + 1].body.snapshots.previous)
      else None
  }

  predicate InitializeOk(c: Campaign, r: ReceiptBody) {
    && r.snapshots.Initial?
    && var s := r.snapshots.initial;
    && r.previousState == Genesis && r.successorState == OfState(s)
    && Normal(r.event) == Event(Issue, ActOpened, c.state.repository, c.state.ownerIssue, NONE, Some(ConNotApplicable))
    && ValidState(s) && InitialStateOk(s) && SameIdentity(s, c.state) && SameScope(s, c.state)
    && forall i | 0 <= i < |s.slices| && s.slices[i].issue != NONE :: c.state.slices[i].issue == s.slices[i].issue
  }

  predicate MigrationOk(r: ReceiptBody) {
    && r.snapshots.Migration?
    && Project(r.snapshots.source, {}) == Some((r.snapshots.result, r.event))
    && r.previousState == OfOldState(r.snapshots.source) && r.successorState == OfState(r.snapshots.result)
  }

  predicate TransitionOk(r: ReceiptBody, before: State, after: State) {
    && (r.snapshots.NoSnapshots? || r.snapshots == Transition(before, after))
    && r.previousState == OfState(before) && r.successorState == OfState(after)
    && ValidTransition(before, after, Normal(r.event)) && Bound(after, r.event, true)
  }

  /** The effect a receipt records is one its operation and event permit. */
  predicate EffectOk(c: Campaign, i: nat)
    requires i < |c.receipts|
  {
    var r := c.receipts[i].body;
    match r.operation
    case Initialize => i == 0 && InitializeOk(c, r)
    case SchemaMigration => i == 0 && MigrationOk(r)
    case StateTransition =>
      && i > 0 && StateAfter(c, i - 1).Some? && StateAfter(c, i).Some?
      && TransitionOk(r, StateAfter(c, i - 1).value, StateAfter(c, i).value)
  }

  predicate LinkOk(c: Campaign, i: nat)
    requires i < |c.receipts|
  {
    var r := c.receipts[i].body;
    && r.sequence == i + 1
    && ValidEvent(r.event, true, r.operation.SchemaMigration?)
    && r.previousReceipt == (if i == 0 then None else Some(c.receipts[i - 1].sha))
    && (i > 0 ==> r.previousState == c.receipts[i - 1].body.successorState)
    && r.key == OfKey(c.state.campaignId, r.event, r.operation, r.previousState, r.successorState)
    && c.receipts[i].sha == OfReceipt(r)
  }

  function IdAt(c: Campaign, i: nat): EventId
    requires i < |c.receipts|
  {
    Identity(c.receipts[i].body.event)
  }

  predicate ValidChain(c: Campaign) {
    && c.receipts != []
    && (forall i | 0 <= i < |c.receipts| :: LinkOk(c, i) && EffectOk(c, i))
    && (forall i, j | 0 <= i < j < |c.receipts| :: IdAt(c, i) != IdAt(c, j))
    && var last := c.receipts[|c.receipts| - 1].body;
    && StateAfter(c, |c.receipts| - 1) == Some(c.state) && last.successorState == OfState(c.state)
    && (last.operation.SchemaMigration? || Bound(c.state, last.event, last.operation.StateTransition?))
  }

  predicate ValidCampaign(c: Campaign) { ValidState(c.state) && ValidChain(c) }

  // ------------------------------------------------ the replay

  /** One step of the replay: the reconstructed state after receipt `i`, or None on refusal. */
  method ReplayReceipt(c: Campaign, i: nat, reconstructed: Option<State>) returns (r: Option<State>)
    requires i < |c.receipts|
    requires i == 0 ==> reconstructed == None
    requires i > 0 ==> reconstructed.Some? && reconstructed == StateAfter(c, i - 1)
    ensures r.Some? <==> EffectOk(c, i)
    ensures r.Some? ==> r == StateAfter(c, i)
  {
    hide ValidTransition, Bound, InitialStateOk, ValidState, SameIdentity, SameScope, Project;
    var item := c.receipts[i].body;
    if i == 0 && item.operation.StateTransition? { return None; }
    if i > 0 && !item.operation.StateTransition? { return None; }
    if item.operation.Initialize? {
      if !InitializeOk(c, item) { return None; }
      return Some(item.snapshots.initial);
    }
    if item.operation.SchemaMigration? {
      if !MigrationOk(item) { return None; }
      return Some(item.snapshots.result);
    }
    var before, after;
    if item.snapshots.Transition? {
      before, after := item.snapshots.previous, item.snapshots.successor;
    } else if item.snapshots.NoSnapshots? {
      var successor := StateAfter(c, i);
      if successor.None? { return None; }
      before, after := reconstructed.value, successor.value;
    } else {
      return None;
    }
    if item.previousState != OfState(before) || item.successorState != OfState(after) { return None; }
    if before != reconstructed.value { return None; }
    if !ValidTransition(before, after, Normal(item.event)) || !Bound(after, item.event, true) { return None; }
    return Some(after);
  }

  /** The part of a step that looks only at the receipt and the two digests carried along. */
  method CheckLink(c: Campaign, i: nat, previousReceipt: Option<Digest>, previousSuccessor: Option<Digest>)
    returns (ok: bool)
    requires i < |c.receipts|
    requires previousReceipt == if i == 0 then None else Some(c.receipts[i - 1].sha)
    requires previousSuccessor == if i == 0 then None else Some(c.receipts[i - 1].body.successorState)
    ensures ok <==> LinkOk(c, i)
  {
    hide ValidEvent;
    var item := c.receipts[i].body;
    if item.sequence != i + 1 { return false; }
    if !ValidEvent(item.event, true, item.operation.SchemaMigration?) { return false; }
    if previousSuccessor.Some? && item.previousState != previousSuccessor.value { return false; }
    if item.previousReceipt != previousReceipt { return false; }
    if item.key != OfKey(c.state.campaignId, item.event, item.operation, item.previousState, item.successorState) {
      return false;
    }
    return c.receipts[i].sha == OfReceipt(item);
  }

  /** The first `n` receipts are well linked, have permitted effects and name distinct real events. */
  ghost predicate GoodChain(c: Campaign, n: nat)
    requires n <= |c.receipts|
  {
    && (forall k | 0 <= k < n :: LinkOk(c, k) && EffectOk(c, k))
    && forall k, l | 0 <= k < l < n :: IdAt(c, k) != IdAt(c, l)
  }

  lemma BadChain(c: Campaign, n: nat)
    requires n <= |c.receipts| && !GoodChain(c, n)
    ensures !ValidChain(c)
  {
    hide LinkOk, EffectOk, Bound;
  }

  lemma GoodChainNext(c: Campaign, n: nat)
    requires n < |c.receipts| && GoodChain(c, n)
    ensures GoodChain(c, n + 1) <==> LinkOk(c, n) && EffectOk(c, n) && forall k | 0 <= k < n :: IdAt(c, k) != IdAt(c, n)
  {
    hide LinkOk, EffectOk;
  }

  /** Distinct real events have distinct idempotency keys. */
  lemma KeysAreNew(c: Campaign, n: nat)
    requires n < |c.receipts| && GoodChain(c, n + 1)
    ensures forall k | 0 <= k < n :: c.receipts[k].body.key != c.receipts[n].body.key
  {
    hide EffectOk, ValidEvent;
    forall k | 0 <= k < n ensures c.receipts[k].body.key != c.receipts[n].body.key {
      assert LinkOk(c, k) && LinkOk(c, n) && IdAt(c, k) != IdAt(c, n);
    }
  }

  /** The replay accepts exactly the valid chains. */
  method ValidateReceipts(c: Campaign) returns (ok: bool)
    ensures ok <==> ValidChain(c)
  {
    hide LinkOk, EffectOk, Bound, StateAfter;
    if c.receipts == [] { return false; }
    var previousReceipt: Option<Digest> := None;
    var previousSuccessor: Option<Digest> := None;
    var reconstructed: Option<State> := None;
    var keys: set<Digest> := {};
    var events: set<EventId> := {};
    for i := 0 to |c.receipts|
      invariant GoodChain(c, i)
      invariant events == set k | 0 <= k < i :: IdAt(c, k)
      invariant keys == set k | 0 <= k < i :: c.receipts[k].body.key
      invariant previousReceipt == if i == 0 then None else Some(c.receipts[i - 1].sha)
      invariant previousSuccessor == if i == 0 then None else Some(c.receipts[i - 1].body.successorState)
      invariant if i == 0 then reconstructed == None else reconstructed.Some? && reconstructed == StateAfter(c, i - 1)
    {
      var item := c.receipts[i];
      GoodChainNext(c, i);
      var linkOk := CheckLink(c, i, previousReceipt, previousSuccessor);
      if !linkOk || IdAt(c, i) in events { BadChain(c, i + 1); return false; }
      events := events + {IdAt(c, i)};
      reconstructed := ReplayReceipt(c, i, reconstructed);
      if reconstructed.None? { BadChain(c, i + 1); return false; }
      KeysAreNew(c, i);
      if item.body.key in keys { assert false; return false; }
      keys := keys + {item.body.key};
      previousReceipt, previousSuccessor := Some(item.sha), Some(item.body.successorState);
    }
    var last := c.receipts[|c.receipts| - 1].body;
    return
      && previousSuccessor == Some(OfState(c.state)) && reconstructed == Some(c.state)
      && (last.operation.SchemaMigration? || Bound(c.state, last.event, last.operation.StateTransition?));
  }
}
