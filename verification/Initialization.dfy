/** The first receipt of a native campaign. */
module Initialization {
  import opened Basics
  import opened Text
  import opened CampaignState
  import opened CampaignRules
  import opened Events
  import opened Receipts
  import opened ChainTheorems
  import opened Migration

  /** The event of an initial authorization: the owner issue was opened. */
  function AuthorizationOf(s: State): Event {
    Event(Issue, ActOpened, s.repository, s.ownerIssue, NONE, Some(ConNotApplicable))
  }

  /** `build_receipt` for the first receipt. */
  function InitialReceipt(s: State): Receipt {
    var e := AuthorizationOf(s);
    var body := ReceiptBody(
                  1, Initialize, e, Genesis, OfState(s), None,
                  OfKey(s.campaignId, e, Initialize, Genesis, OfState(s)), Initial(s));
    Receipt(body, OfReceipt(body))
  }

  function Initialized(s: State): Campaign { Campaign(s, [InitialReceipt(s)]) }

  lemma AuthorizationIsValid(s: State)
    requires IsIssue(s.ownerIssue) && IsRepository(s.repository)
    ensures ValidEvent(AuthorizationOf(s), true, false) <==> |s.ownerIssue| <= 120
  {
    IssueIsPlain(s.ownerIssue);
    PlainIsLine(s.ownerIssue, 120);
    hide IsIssue, IsRepository, IsLine, AllPlain;
  }

  lemma OwnerAndProfile(s: State)
    requires ValidState(s)
    ensures IsIssue(s.ownerIssue) && ProfileOf(s.repository).Some?
  {
    hide ValidSlices, ValidTrain, SliceActionOk, ReleaseActionOk, DeployActionOk, PhaseOk, ValidTexts, IsEventRef;
    hide IsIssue;
    hide ValidCheckpoint, ValidInbox, ExpectedNext, ProfileOf;
  }

  lemma OwnerSlashName(owner: string, name: string)
    requires IsName(owner) && IsName(name)
    ensures IsRepository(owner + "/" + name)
  {
    var r := owner + "/" + name;
    assert r[|owner|] == '/' && r[..|owner|] == owner && r[|owner| + 1..] == name;
    hide IsName;
  }

  lemma OtherRepositories()
    ensures IsRepository("brickms/brickms") && IsRepository("maxithlon/maxithlon")
    ensures IsRepository("gabned/provelume.com")
  {
    hide IsRepository;
    OwnerSlashName("brickms", "brickms");
    assert "brickms" + "/" + "brickms" == "brickms/brickms";
    OwnerSlashName("maxithlon", "maxithlon");
    assert "maxithlon" + "/" + "maxithlon" == "maxithlon/maxithlon";
    OwnerSlashName("gabned", "provelume.com");
    assert "gabned" + "/" + "provelume.com" == "gabned/provelume.com";
  }

  lemma ProfileIsRepository(r: string)
    requires ProfileOf(r).Some?
    ensures IsRepository(r)
  {
    hide IsRepository, IsName;
    CoreRepository();
    OtherRepositories();
  }

  /** An initial state with its one receipt is a valid native campaign exactly when its owner issue fits an event. */
  lemma InitializedIsValid(s: State)
    requires ValidState(s) && InitialStateOk(s)
    ensures ValidCampaign(Initialized(s)) <==> |s.ownerIssue| <= 120
    ensures StartsNatively(Initialized(s))
  {
    hide ValidState, ValidEvent, InitialStateOk, LinkOk, EffectOk, Bound, IsIssue, IsRepository;
    OwnerAndProfile(s);
    ProfileIsRepository(s.repository);
    AuthorizationIsValid(s);
    LinkAtStart(s);
    EffectAtStart(s);
    BoundAtStart(s);
  }

  lemma LinkAtStart(s: State)
    ensures LinkOk(Initialized(s), 0) <==> ValidEvent(AuthorizationOf(s), true, false)
  {
    hide ValidEvent;
  }

  lemma EffectAtStart(s: State)
    requires ValidState(s) && InitialStateOk(s)
    ensures EffectOk(Initialized(s), 0) && StateAfter(Initialized(s), 0) == Some(s)
  {
    hide ValidState, InitialStateOk;
  }

  lemma BoundAtStart(s: State)
    requires InitialStateOk(s)
    ensures Bound(s, AuthorizationOf(s), false) <==> ValidEvent(AuthorizationOf(s), true, false)
  {
    hide ValidEvent;
  }
}
