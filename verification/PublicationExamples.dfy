/** A concrete publication, and the retained stage that makes a later run refuse. */
module PublicationExamples {
  import opened Basics
  import opened Text
  import opened Publication
  import opened PublicationRun

  /**
   * Two stages are prepared at different times before either receipt is public, and then the first one's is made
   * public. The second stage disagrees with the record, although only runs of this job wrote to it.
   */
  method StaleStage(job: Job, m: Manifest, event: Event, first: int, second: int)
    returns (client: PublicRecord, stale: Stage)
    requires JobOk(job) && Qualified(job.bundle) == Some(m) && MANIFEST_NAME in job.bundle && job.configurationOk
    requires Viable(event, m, job.bundle, job.title, first) && Viable(event, m, job.bundle, job.title, second)
    requires first != second
    ensures fresh(client) && fresh(stale) && client.event == event && client.tagCommit == m.commit && client.published
    ensures client.Safe(m, job.bundle) && client.Orderly(m, job.bundle) && stale.Own(event, m, job.bundle)
    ensures RECEIPT_NAME in client.assets && !Agrees(stale, client.assets)
  {
    hide Qualified, SafeAssets, OrderlyAssets, GoodReceipt, IsKitOf, IsReadyOf, Complete, KitOk, Viable, ReceiptOf;
    hide KitName;
    client := new PublicRecord(event, m.commit, 0);
    BundlePartIsSafe(event, m, job.bundle, client.assets);
    var early := new Stage();
    var ok := PrepareStage(job, m, early, first, client);
    stale := new Stage();
    ok := PrepareStage(job, m, stale, second, client);
    client.calls := |job.names| + 10;
    OwnStageCarries(early, event, m, job.bundle, client.assets);
    FitsEvent(event, m, job.bundle, job.title, first);
    ok := FinalizeQualified(job, m, early, first, client);
    ReceiptsDiffer(event, m, job.bundle, first, second);
  }

  /** Preparing again in that stage is refused, though the run had calls left and nothing else speaks against it. */
  method StaleRun(job: Job, m: Manifest, event: Event, first: int, second: int)
    returns (client: PublicRecord, ok: bool)
    requires JobOk(job) && Qualified(job.bundle) == Some(m) && MANIFEST_NAME in job.bundle && job.configurationOk
    requires Viable(event, m, job.bundle, job.title, first) && Viable(event, m, job.bundle, job.title, second)
    requires first != second
    ensures !ok && client.calls > 0 && client.published && client.Safe(m, job.bundle) && client.Orderly(m, job.bundle)
  {
    hide Qualified, SafeAssets, OrderlyAssets, GoodReceipt, Viable, ReceiptOf;
    var stale;
    client, stale := StaleStage(job, m, event, first, second);
    client.calls := 2 * |job.names| + 8;
    ok := PrepareQualified(job, m, stale, m.commit, second, client);
  }

  lemma FitsEvent(e: Event, m: Manifest, bundle: Files, title: string, now: int)
    requires MANIFEST_NAME in bundle && Viable(e, m, bundle, title, now)
    ensures ReleaseFits(e, m, title)
  {
    hide ReceiptOk;
  }

  /** An uninterrupted preparation in a fresh stage, before any receipt is public. */
  method PrepareStage(job: Job, m: Manifest, stage: Stage, now: int, client: PublicRecord) returns (ok: bool)
    requires JobOk(job) && Qualified(job.bundle) == Some(m) && MANIFEST_NAME in job.bundle && job.configurationOk
    requires client.Safe(m, job.bundle) && client.Orderly(m, job.bundle) && client.tagCommit == m.commit
    requires Viable(client.event, m, job.bundle, job.title, now) && RECEIPT_NAME !in client.assets
    requires stage.receipt == None && stage.kit == None && stage.ready == None
    modifies client`calls, client`published, client`assets, client`createCount, stage`receipt, stage`kit
    ensures ok && client.Safe(m, job.bundle) && client.Orderly(m, job.bundle) && client.published
    ensures RECEIPT_NAME !in client.assets && Extends(job.bundle, client.assets)
    ensures stage.Own(client.event, m, job.bundle) && Staged(stage, client.event, m, job.bundle)
    ensures stage.receipt == Some(ReceiptBytes(ReceiptOf(client.event, m, job.bundle, now), 0))
  {
    hide Qualified, SafeAssets, OrderlyAssets, GoodReceipt, IsKitOf, IsReadyOf, KitOk, Viable, ReceiptOf;
    ReceiptNotPayload(m, job.bundle);
    client.calls := 2 * |job.names| + 7;
    ok := PrepareQualified(job, m, stage, m.commit, now, client);
  }

  lemma ReceiptsDiffer(e: Event, m: Manifest, bundle: Files, first: int, second: int)
    requires MANIFEST_NAME in bundle && first != second
    ensures ReceiptBytes(ReceiptOf(e, m, bundle, first), 0) != ReceiptBytes(ReceiptOf(e, m, bundle, second), 0)
  {
  }

  // ------------------------------------------------ a concrete bundle

  const COMMIT := Forty()
  const SBOM := "sbom.json"

  function Forty(): (s: string)
    ensures |s| == 40 && IsSha(s)
  {
    seq(40, _ => 'a')
  }

  function ExampleManifest(): Manifest {
    Manifest("1.0.0", "v1.0.0", COMMIT, "stable", [], FileId(SBOM, Payload([1])))
  }

  function ExampleBundle(): Files {
    map[MANIFEST_NAME := ManifestBytes(ExampleManifest(), 0), SUMS_NAME := Payload([2]), SBOM := Payload([1])]
  }

  function ExampleJob(): Job { Job(ExampleBundle(), [MANIFEST_NAME, SUMS_NAME, SBOM], "Provelume", true) }

  function ExampleEvent(): Event { Event(1, false, false, "v1.0.0", "Provelume", UrlOf("v1.0.0"), 10) }

  lemma SbomIsApart()
    ensures Fold(SBOM) !in Folded({MANIFEST_NAME, SUMS_NAME} + Generated(ExampleManifest()))
  {
    var k := KitName("1.0.0");
    assert k[..10] == "provelume-" && k[0] == 'p';
    assert Fold(SBOM)[0] == 's' && Fold(SBOM)[1] == 'b';
    assert Fold(MANIFEST_NAME)[0] == 'r' && Fold(SUMS_NAME)[1] == 'h' && Fold(RECEIPT_NAME)[0] == 'p';
    assert Fold(READY_NAME)[0] == 'p' && Fold(k)[0] == 'p';
  }

  lemma ExampleFits()
    ensures var m := ExampleManifest();
      && ManifestOk(m) && NamesOk(m) && Rows(m) == [m.sbom] && Core(m) == {MANIFEST_NAME, SUMS_NAME, SBOM}
  {
    SbomIsApart();
    hide Fold, Folded, Generated, IsSha;
    assert Rows(ExampleManifest()) == [ExampleManifest().sbom];
  }

  lemma NamesAreApart()
    ensures MANIFEST_NAME[0] == 'r' && SUMS_NAME[0] == 'S' && SBOM[0] == 's'
  {
  }

  lemma ExampleQualifies()
    ensures Qualified(ExampleBundle()) == Some(ExampleManifest()) && MANIFEST_NAME in ExampleBundle()
    ensures JobOk(ExampleJob())
  {
    ExampleFits();
    NamesAreApart();
    hide ManifestOk, NamesOk, Core, Rows;
  }

  lemma ExampleIsViable(now: int)
    requires now >= 10
    ensures Viable(ExampleEvent(), ExampleManifest(), ExampleBundle(), "Provelume", now)
  {
    var bundle := ExampleBundle();
    assert MANIFEST_NAME[0] == 'r' && SUMS_NAME[0] == 'S' && SBOM[0] == 's';
    assert Fold(SBOM)[1] == 'b' && Fold(SUMS_NAME)[1] == 'h' && Fold(MANIFEST_NAME)[0] == 'r';
    assert Fold(SBOM)[0] == 's' && Fold(SUMS_NAME)[0] == 's';
    hide Fold;
    var artifacts := bundle - {MANIFEST_NAME};
    assert artifacts.Keys == {SUMS_NAME, SBOM};
    assert |artifacts| == |artifacts.Keys| == 2;
    assert bundle.Keys == {MANIFEST_NAME, SUMS_NAME, SBOM};
  }

  /** The rehearsal of the concrete publication ends complete, and its stale stage is refused. */
  method ExampleRuns(schedule: seq<Attempt>) returns (client: PublicRecord, other: PublicRecord, refused: bool)
    ensures client.createCount == 1
    ensures Complete(ExampleEvent(), ExampleManifest(), ExampleBundle(), client.assets)
    ensures refused && other.calls > 0 && other.published
  {
    ExampleQualifies();
    ExampleIsViable(20);
    ExampleIsViable(30);
    hide Qualified, Complete, Viable, ExampleBundle, ExampleManifest, ExampleEvent;
    var ok;
    client, ok := Exercise(ExampleJob(), ExampleManifest(), ExampleEvent(), schedule, 20);
    other, refused := StaleRun(ExampleJob(), ExampleManifest(), ExampleEvent(), 20, 30);
    refused := !refused;
  }
}
