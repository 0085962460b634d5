/** The publisher's two phases, interruptible at every call to the public record. */
module PublicationRun {
  import opened Basics
  import opened Text
  import opened Publication

  /** One release attempt: the qualified bundle in upload order, and what the configuration says about it. */
  datatype Job = Job(bundle: Files, names: seq<string>, title: string, configurationOk: bool)

  ghost predicate JobOk(job: Job) {
    && (forall n :: n in job.names <==> n in job.bundle)
    && forall i, j | 0 <= i < j < |job.names| :: job.names[i] != job.names[j]
  }

  /** The local stage a run works in; a retry starts with a fresh one or the one left behind. */
  class Stage {
    var receipt: Option<Blob>
    var kit: Option<Blob>
    var ready: Option<Blob>

    constructor ()
      ensures receipt == None && kit == None && ready == None
    {
      receipt, kit, ready := None, None, None;
    }

    /** What a stage holds when only runs of this job for this event wrote to it. */
    ghost predicate Own(e: Event, m: Manifest, bundle: Files)
      requires MANIFEST_NAME in bundle
      reads this
    {
      && (receipt.Some? ==> GoodReceipt(e, m, bundle, receipt.value))
      && (kit.Some? ==> receipt.Some? && IsKitOf(kit.value, bundle, receipt.value))
      && (ready.Some? ==> receipt.Some? && kit.Some? && IsReadyOf(ready.value, m, bundle, receipt.value, kit.value))
    }
  }

  /** The public record behind the client. `calls` is how many client calls still succeed before an interruption. */
  class PublicRecord {
    const event: Event
    var published: bool
    var assets: Files
    var createCount: nat
    var tagCommit: string
    var calls: nat

    constructor (event: Event, tagCommit: string, calls: nat)
      ensures this.event == event && this.tagCommit == tagCommit && this.calls == calls
      ensures !published && assets == map[] && createCount == 0
    {
      this.event, this.tagCommit, this.calls := event, tagCommit, calls;
      published, assets, createCount := false, map[], 0;
    }

    method Call() returns (ok: bool)
      modifies this`calls
      ensures ok <==> old(calls) > 0
      ensures calls == if ok then old(calls) - 1 else 0
    {
      ok := calls > 0;
      if ok { calls := calls - 1; }
    }

    method ResolveTag() returns (r: Option<string>)
      modifies this`calls
      ensures r == if old(calls) > 0 then Some(tagCommit) else None
      ensures calls == if r.Some? then old(calls) - 1 else 0
    {
      var ok := Call();
      return if ok then Some(tagCommit) else None;
    }

    /** Creates the release with its files; an interrupted creation may leave any part of them public. */
    method Create(files: Files) returns (ok: bool)
      requires !published && assets == map[]
      modifies this`calls, this`published, this`assets, this`createCount
      ensures ok <==> old(calls) > 0
      ensures calls == if ok then old(calls) - 1 else 0
      ensures ok ==> published && assets == files
      ensures Extends(assets, files) && (!published ==> assets == map[])
      ensures createCount == old(createCount) + if published then 1 else 0
    {
      ok := Call();
      if ok {
        published, assets, createCount := true, files, createCount + 1;
      } else if * {
        var arrived: set<string> :| true;
        published, assets, createCount := true, map n | n in files && n in arrived :: files[n], createCount + 1;
      }
    }

    method Download(name: string) returns (r: Option<Blob>)
      requires name in assets
      modifies this`calls
      ensures r == if old(calls) > 0 then Some(assets[name]) else None
      ensures calls == if r.Some? then old(calls) - 1 else 0
    {
      var ok := Call();
      return if ok then Some(assets[name]) else None;
    }

    /** Adds one absent asset; an interrupted upload has either happened or not. */
    method Upload(name: string, blob: Blob) returns (ok: bool)
      requires name !in assets
      modifies this`calls, this`assets
      ensures ok <==> old(calls) > 0
      ensures calls == if ok then old(calls) - 1 else 0
      ensures assets == old(assets)[name := blob] || (!ok && assets == old(assets))
    {
      ok := Call();
      if ok {
        assets := assets[name := blob];
      } else if * {
        assets := assets[name := blob];
      }
    }

    /** A public asset is never overwritten: it must already be these bytes, or it is added. */
    method UploadOnce(name: string, blob: Blob) returns (ok: bool)
      modifies this`calls, this`assets
      ensures assets == old(assets) || (name !in old(assets) && assets == old(assets)[name := blob])
      ensures ok <==> old(calls) > 0 && (name in old(assets) ==> old(assets)[name] == blob)
      ensures ok ==> name in assets && assets[name] == blob
      ensures calls == if old(calls) > 0 then old(calls) - 1 else 0
    {
      if name in assets {
        var observed := Download(name);
        ok := observed == Some(blob);
      } else {
        ok := Upload(name, blob);
      }
    }

    /** The record is in a state that runs of this job reach. */
    ghost predicate Safe(m: Manifest, bundle: Files)
      requires MANIFEST_NAME in bundle
      reads this
    {
      && createCount == (if published then 1 else 0) && (!published ==> assets == map[])
      && SafeAssets(event, m, bundle, assets)
    }

    ghost predicate Orderly(m: Manifest, bundle: Files)
      requires MANIFEST_NAME in bundle
      reads this
    {
      OrderlyAssets(event, m, bundle, assets)
    }
  }

  predicate ReleaseFits(e: Event, m: Manifest, title: string) { EventFits(e, m) && e.title == title }

  // ------------------------------------------------ uploads keep the record safe

  lemma CoreUploadIsSafe(e: Event, m: Manifest, bundle: Files, assets: Files, name: string)
    requires Qualified(bundle) == Some(m) && MANIFEST_NAME in bundle && name in bundle && name !in assets
    requires SafeAssets(e, m, bundle, assets)
    ensures SafeAssets(e, m, bundle, assets[name := bundle[name]])
    ensures OrderlyAssets(e, m, bundle, assets) ==> OrderlyAssets(e, m, bundle, assets[name := bundle[name]])
  {
    hide Qualified, GoodReceipt, KitOk, IsReadyOf, IsKitOf, NamesOk, ManifestOk;
    QualifiedParts(bundle, m);
    NamesDistinct(m);
  }

  /** Uploads every bundle file once, in order. */
  method UploadBundle(job: Job, m: Manifest, client: PublicRecord) returns (ok: bool)
    requires JobOk(job) && Qualified(job.bundle) == Some(m) && MANIFEST_NAME in job.bundle
    requires client.Safe(m, job.bundle) && client.published
    modifies client`calls, client`assets
    ensures client.Safe(m, job.bundle) && Extends(old(client.assets), client.assets)
    ensures old(client.Orderly(m, job.bundle)) ==> client.Orderly(m, job.bundle)
    ensures forall n | n in client.assets && n !in old(client.assets) :: n in job.bundle
    ensures ok ==> Extends(job.bundle, client.assets)
    ensures old(client.calls) >= |job.names| ==> ok
    ensures client.calls >= old(client.calls) - |job.names|
  {
    hide Qualified, SafeAssets, OrderlyAssets;
    for i := 0 to |job.names|
      invariant client.Safe(m, job.bundle) && Extends(old(client.assets), client.assets)
      invariant old(client.Orderly(m, job.bundle)) ==> client.Orderly(m, job.bundle)
      invariant forall n | n in client.assets && n !in old(client.assets) :: n in job.bundle
      invariant forall k | 0 <= k < i ::
                  job.names[k] in client.assets && client.assets[job.names[k]] == job.bundle[job.names[k]]
      invariant client.calls >= old(client.calls) - i
    {
      var name := job.names[i];
      ghost var before := client.assets;
      if name !in before { CoreUploadIsSafe(client.event, m, job.bundle, before, name); }
      else { SafeIsExact(client.event, m, job.bundle, before, name); }
      var done := client.UploadOnce(name, job.bundle[name]);
      if !done { return false; }
    }
    return true;
  }

  lemma SafeIsExact(e: Event, m: Manifest, bundle: Files, assets: Files, name: string)
    requires MANIFEST_NAME in bundle && SafeAssets(e, m, bundle, assets) && name in assets && name in bundle
    ensures assets[name] == bundle[name]
  {
    hide Complete;
  }

  /** Downloads every bundle file and compares it. */
  method CompareBundle(job: Job, client: PublicRecord) returns (ok: bool)
    requires JobOk(job) && job.bundle.Keys <= client.assets.Keys
    modifies client`calls
    ensures ok ==> Extends(job.bundle, client.assets)
    ensures Extends(job.bundle, client.assets) && old(client.calls) >= |job.names| ==> ok
    ensures client.calls >= old(client.calls) - |job.names|
  {
    for i := 0 to |job.names|
      invariant client.calls >= old(client.calls) - i
      invariant forall k | 0 <= k < i :: client.assets[job.names[k]] == job.bundle[job.names[k]]
    {
      var observed := client.Download(job.names[i]);
      if observed != Some(job.bundle[job.names[i]]) { return false; }
    }
    return true;
  }

  // ------------------------------------------------ facts the phases rest on

  /** The event, the size of the bundle and the clock admit a receipt. */
  predicate Viable(e: Event, m: Manifest, bundle: Files, title: string, now: int)
    requires MANIFEST_NAME in bundle
  {
    ReleaseFits(e, m, title) && |bundle| <= 297 && ReceiptOk(ReceiptOf(e, m, bundle, now))
  }

  lemma SafeInventory(e: Event, m: Manifest, bundle: Files, assets: Files, phase: Phase)
    requires Qualified(bundle) == Some(m) && MANIFEST_NAME in bundle && SafeAssets(e, m, bundle, assets)
    requires |bundle| <= 297 && Required(m, phase) <= assets.Keys
    ensures InventoryOk(assets, m, phase)
  {
    hide Complete, Qualified, NamesOk, Core;
    QualifiedParts(bundle, m);
    NamesDistinct(m);
    var all := bundle.Keys + Generated(m);
    SubsetSize(assets.Keys, all);
  }

  lemma CreatedReceiptIsGood(e: Event, m: Manifest, assets: Files, bundle: Files, resolved: string, now: int,
        existing: Option<Blob>)
    requires Qualified(bundle) == Some(m) && MANIFEST_NAME in bundle
    requires CreateReceipt(e, assets, bundle, resolved, now, existing).Some?
    ensures GoodReceipt(e, m, bundle, CreateReceipt(e, assets, bundle, resolved, now, existing).value)
    ensures existing.Some? ==> CreateReceipt(e, assets, bundle, resolved, now, existing) == existing
  {
    hide Qualified, InventoryOk, ReceiptOk;
  }

  lemma NewReceiptIsTimed(e: Event, m: Manifest, assets: Files, bundle: Files, resolved: string, now: int)
    requires Qualified(bundle) == Some(m) && MANIFEST_NAME in bundle
    ensures var r := CreateReceipt(e, assets, bundle, resolved, now, None);
      r.Some? ==> r == Some(ReceiptBytes(ReceiptOf(e, m, bundle, now), 0))
  {
    hide Qualified, InventoryOk, ReceiptOk, ReceiptOf;
  }

  lemma ReceiptIsCreated(e: Event, m: Manifest, assets: Files, bundle: Files, title: string, now: int,
        existing: Option<Blob>)
    requires Qualified(bundle) == Some(m) && MANIFEST_NAME in bundle && Viable(e, m, bundle, title, now)
    requires SafeAssets(e, m, bundle, assets) && Extends(bundle, assets)
    requires existing.Some? ==> GoodReceipt(e, m, bundle, existing.value)
    ensures CreateReceipt(e, assets, bundle, m.commit, now, existing).Some?
  {
    QualifiedParts(bundle, m);
    SafeInventory(e, m, bundle, assets, Payloads);
    hide Qualified, InventoryOk, ReceiptOk, SafeAssets;
  }

  lemma GoodReceiptHasKit(e: Event, m: Manifest, bundle: Files, raw: Blob)
    requires MANIFEST_NAME in bundle && GoodReceipt(e, m, bundle, raw)
    ensures KitMembers(bundle, raw).Some?
  {
    var r := ParseReceipt(raw).value;
    assert bundle == (bundle - {MANIFEST_NAME})[MANIFEST_NAME := bundle[MANIFEST_NAME]];
  }

  /** The stage agrees with what is already public. */
  ghost predicate Agrees(stage: Stage, assets: Files)
    reads stage
  {
    && (RECEIPT_NAME in assets && stage.receipt.Some? ==> stage.receipt.value == assets[RECEIPT_NAME])
  }

  // ------------------------------------------------ the two phases

  /** Creates the absent release from the bundle and looks it up again. */
  method CreateRelease(job: Job, m: Manifest, client: PublicRecord) returns (ok: bool)
    requires Qualified(job.bundle) == Some(m) && MANIFEST_NAME in job.bundle && client.Safe(m, job.bundle)
    requires !client.published
    modifies client`calls, client`published, client`assets, client`createCount
    ensures client.Safe(m, job.bundle) && client.Orderly(m, job.bundle)
    ensures forall n | n in client.assets :: n in job.bundle
    ensures ok ==> client.published
    ensures old(client.calls) >= 2 ==> ok
    ensures client.calls >= old(client.calls) - 2
  {
    hide Qualified, SafeAssets, OrderlyAssets;
    var created := client.Create(job.bundle);
    BundlePartIsSafe(client.event, m, job.bundle, client.assets);
    if !created { return false; }
    ok := client.Call();
  }

  /** Looks the release up, creating it first when it is absent. */
  method OpenRelease(job: Job, m: Manifest, commit: string, client: PublicRecord) returns (ok: bool)
    requires Qualified(job.bundle) == Some(m) && MANIFEST_NAME in job.bundle && client.Safe(m, job.bundle)
    modifies client`calls, client`published, client`assets, client`createCount
    ensures client.Safe(m, job.bundle) && Extends(old(client.assets), client.assets)
    ensures old(client.Orderly(m, job.bundle)) ==> client.Orderly(m, job.bundle)
    ensures forall n | n in client.assets && n !in old(client.assets) :: n in job.bundle
    ensures old(client.published) ==> client.assets == old(client.assets) && client.published
    ensures ok ==> client.published && ReleaseFits(client.event, m, job.title) && client.tagCommit == commit
    ensures (old(client.calls) >= 5 && ReleaseFits(client.event, m, job.title) && client.tagCommit == commit
             && |job.bundle| <= 297) ==> ok
    ensures client.calls >= old(client.calls) - 5
  {
    hide Qualified, SafeAssets, OrderlyAssets, InventoryOk, ReleaseFits;
    QualifiedParts(job.bundle, m);
    var resolved := client.ResolveTag();
    if resolved != Some(commit) { return false; }
    var lookup := client.Call();
    if !lookup { return false; }
    if !client.published {
      var created := CreateRelease(job, m, client);
      if !created { return false; }
    }
    resolved := client.ResolveTag();
    if resolved != Some(commit) { return false; }
    if !ReleaseFits(client.event, m, job.title) { return false; }
    if |job.bundle| <= 297 { SafeInventory(client.event, m, job.bundle, client.assets, Resume); }
    return InventoryOk(client.assets, m, Resume);
  }

  lemma BundlePartIsSafe(e: Event, m: Manifest, bundle: Files, assets: Files)
    requires Qualified(bundle) == Some(m) && MANIFEST_NAME in bundle && Extends(assets, bundle)
    ensures SafeAssets(e, m, bundle, assets) && OrderlyAssets(e, m, bundle, assets)
    ensures forall n | n in assets :: n in bundle
  {
    hide Qualified, Complete, NamesOk, ManifestOk, GoodReceipt, IsKitOf;
    QualifiedParts(bundle, m);
    NamesDistinct(m);
    assert forall n | n in Generated(m) :: n !in bundle;
  }

  /** Makes every payload public and compares it with the bundle. */
  method PublishPayloads(job: Job, m: Manifest, commit: string, client: PublicRecord) returns (ok: bool)
    requires JobOk(job) && Qualified(job.bundle) == Some(m) && MANIFEST_NAME in job.bundle && client.Safe(m, job.bundle)
    modifies client`calls, client`published, client`assets, client`createCount
    ensures client.Safe(m, job.bundle) && Extends(old(client.assets), client.assets)
    ensures old(client.Orderly(m, job.bundle)) ==> client.Orderly(m, job.bundle)
    ensures forall n | n in client.assets && n !in old(client.assets) :: n in job.bundle
    ensures ok ==> client.published && Extends(job.bundle, client.assets) && client.tagCommit == commit
    ensures ok ==> ReleaseFits(client.event, m, job.title)
    ensures (old(client.calls) >= 2 * |job.names| + 6 && client.tagCommit == commit && |job.bundle| <= 297
             && ReleaseFits(client.event, m, job.title)) ==> ok
    ensures client.calls >= old(client.calls) - 2 * |job.names| - 6
  {
    hide Qualified, SafeAssets, OrderlyAssets, InventoryOk, ReleaseFits;
    var isOpen := OpenRelease(job, m, commit, client);
    if !isOpen { return false; }
    var uploaded := UploadBundle(job, m, client);
    if !uploaded { return false; }
    var observed := client.Call();
    if !observed { return false; }
    PayloadsInventory(client.event, m, job.bundle, client.assets);
    if !InventoryOk(client.assets, m, Payloads) { return false; }
    ok := CompareBundle(job, client);
  }

  lemma PayloadsInventory(e: Event, m: Manifest, bundle: Files, assets: Files)
    requires Qualified(bundle) == Some(m) && MANIFEST_NAME in bundle && SafeAssets(e, m, bundle, assets)
    requires Extends(bundle, assets)
    ensures |bundle| <= 297 ==> InventoryOk(assets, m, Payloads)
  {
    hide Qualified, InventoryOk, SafeAssets, NamesOk, ManifestOk;
    QualifiedParts(bundle, m);
    if |bundle| <= 297 { SafeInventory(e, m, bundle, assets, Payloads); }
  }

  /** `prepare` once the bundle is qualified. */
  method PrepareQualified(job: Job, m: Manifest, stage: Stage, commit: string, now: int, client: PublicRecord)
    returns (ok: bool)
    requires JobOk(job) && Qualified(job.bundle) == Some(m) && MANIFEST_NAME in job.bundle && client.Safe(m, job.bundle)
    modifies client`calls, client`published, client`assets, client`createCount, stage`receipt, stage`kit
    ensures client.Safe(m, job.bundle) && Extends(old(client.assets), client.assets)
    ensures old(client.Orderly(m, job.bundle)) ==> client.Orderly(m, job.bundle)
    ensures forall n | n in client.assets && n !in old(client.assets) :: n in job.bundle
    ensures old(stage.Own(client.event, m, job.bundle)) ==> stage.Own(client.event, m, job.bundle)
    ensures ok ==> client.published && Extends(job.bundle, client.assets) && Staged(stage, client.event, m, job.bundle)
    ensures ok && RECEIPT_NAME in client.assets ==> stage.receipt == Some(client.assets[RECEIPT_NAME])
    ensures ok ==> old(Agrees(stage, client.assets))
    ensures ok && old(stage.receipt).None? && RECEIPT_NAME !in old(client.assets)
            ==> stage.receipt == Some(ReceiptBytes(ReceiptOf(client.event, m, job.bundle, now), 0))
    ensures client.calls >= old(client.calls) - 2 * |job.names| - 7
    ensures (old(client.calls) >= 2 * |job.names| + 7 && commit == m.commit == client.tagCommit && job.configurationOk
             && Viable(client.event, m, job.bundle, job.title, now) && old(client.Orderly(m, job.bundle))
             && old(stage.Own(client.event, m, job.bundle)) && old(Agrees(stage, client.assets))) ==> ok
  {
    hide Qualified, SafeAssets, OrderlyAssets, InventoryOk, KitOk, KitMembers, GoodReceipt, ReleaseFits, ReceiptOk;
    if m.commit != commit || !job.configurationOk { return false; }
    var public := PublishPayloads(job, m, commit, client);
    if !public { return false; }
    ReceiptNotPayload(m, job.bundle);
    var existing := stage.receipt;
    if RECEIPT_NAME in client.assets {
      existing := client.Download(RECEIPT_NAME);
      if existing.None? { return false; }
    }
    ok := WriteReceiptAndKit(job, m, stage, commit, now, existing, client);
  }

  lemma ReceiptNotPayload(m: Manifest, bundle: Files)
    requires Qualified(bundle) == Some(m)
    ensures forall n | n in Generated(m) :: n !in bundle
  {
    hide Qualified, NamesOk, ManifestOk, Core, Generated;
    QualifiedParts(bundle, m);
    NamesDistinct(m);
  }

  /** The stage holds a receipt for the event and the bundle, and a kit of it. */
  ghost predicate Staged(stage: Stage, e: Event, m: Manifest, bundle: Files)
    requires MANIFEST_NAME in bundle
    reads stage
  {
    stage.receipt.Some? && stage.kit.Some? && GoodReceipt(e, m, bundle, stage.receipt.value)
    && KitOk(stage.kit.value, bundle, stage.receipt.value)
  }

  /** The local end of `prepare`: a receipt for the observed event, and its kit. */
  method WriteReceiptAndKit(job: Job, m: Manifest, stage: Stage, resolved: string, now: int, existing: Option<Blob>,
        client: PublicRecord)
    returns (ok: bool)
    requires Qualified(job.bundle) == Some(m) && MANIFEST_NAME in job.bundle && client.Safe(m, job.bundle)
    requires Extends(job.bundle, client.assets) && resolved == m.commit
    requires existing == if RECEIPT_NAME in client.assets then Some(client.assets[RECEIPT_NAME]) else stage.receipt
    modifies stage`receipt, stage`kit
    ensures old(stage.Own(client.event, m, job.bundle)) ==> stage.Own(client.event, m, job.bundle)
    ensures ok ==> Staged(stage, client.event, m, job.bundle) && (existing.Some? ==> stage.receipt == existing)
    ensures ok && existing.Some? && old(stage.receipt).Some? ==> old(stage.receipt) == existing
    ensures ok && existing.None? ==> stage.receipt == Some(ReceiptBytes(ReceiptOf(client.event, m, job.bundle, now), 0))
    ensures (Viable(client.event, m, job.bundle, job.title, now) && client.Orderly(m, job.bundle)
             && old(stage.Own(client.event, m, job.bundle)) && old(Agrees(stage, client.assets))) ==> ok
  {
    hide Qualified, SafeAssets, InventoryOk, KitMembers, ReceiptOk, CreateReceipt, ReadinessOf;
    ghost var wasOwn := stage.Own(client.event, m, job.bundle);
    ghost var viable := Viable(client.event, m, job.bundle, job.title, now);
    var raw := CreateReceipt(client.event, client.assets, job.bundle, resolved, now, existing);
    if viable && wasOwn && client.Orderly(m, job.bundle) {
      ReceiptIsCreated(client.event, m, client.assets, job.bundle, job.title, now, existing);
    }
    if raw.None? { return false; }
    CreatedReceiptIsGood(client.event, m, client.assets, job.bundle, resolved, now, existing);
    NewReceiptIsTimed(client.event, m, client.assets, job.bundle, resolved, now);
    if stage.receipt.Some? && stage.receipt != raw { return false; }
    stage.receipt := raw;
    GoodReceiptHasKit(client.event, m, job.bundle, raw.value);
    if stage.kit.None? { stage.kit := Some(KitBytes(KitMembers(job.bundle, raw.value).value, 0)); }
    return KitOk(stage.kit.value, job.bundle, raw.value);
  }

  // ------------------------------------------------ finalize

  lemma EvidenceUploadIsSafe(e: Event, m: Manifest, bundle: Files, assets: Files, name: string, blob: Blob)
    requires Qualified(bundle) == Some(m) && MANIFEST_NAME in bundle && name !in assets
    requires name == RECEIPT_NAME || name == KitName(m.version)
    requires SafeAssets(e, m, bundle, assets)
    ensures SafeAssets(e, m, bundle, assets[name := blob])
    ensures READY_NAME !in assets[name := blob]
  {
    hide Qualified, GoodReceipt, KitOk, IsReadyOf, NamesOk, ManifestOk;
    QualifiedParts(bundle, m);
    ReceiptNotPayload(m, bundle);
    KitNameApart(m.version);
    assert READY_NAME[14] != RECEIPT_NAME[14];
  }

  lemma ReceiptUploadIsOrderly(e: Event, m: Manifest, bundle: Files, assets: Files, raw: Blob)
    requires Qualified(bundle) == Some(m) && MANIFEST_NAME in bundle && RECEIPT_NAME !in assets
    requires OrderlyAssets(e, m, bundle, assets) && Extends(bundle, assets) && GoodReceipt(e, m, bundle, raw)
    ensures OrderlyAssets(e, m, bundle, assets[RECEIPT_NAME := raw])
  {
    hide Qualified, GoodReceipt, IsKitOf, NamesOk, ManifestOk;
    ReceiptNotPayload(m, bundle);
    KitNameApart(m.version);
    assert READY_NAME[14] != RECEIPT_NAME[14];
  }

  lemma KitUploadIsOrderly(e: Event, m: Manifest, bundle: Files, assets: Files, kit: Blob)
    requires Qualified(bundle) == Some(m) && MANIFEST_NAME in bundle && KitName(m.version) !in assets
    requires OrderlyAssets(e, m, bundle, assets) && RECEIPT_NAME in assets && IsKitOf(kit, bundle, assets[RECEIPT_NAME])
    ensures OrderlyAssets(e, m, bundle, assets[KitName(m.version) := kit])
  {
    hide Qualified, GoodReceipt, IsKitOf, NamesOk, ManifestOk;
    ReceiptNotPayload(m, bundle);
    KitNameApart(m.version);
  }

  lemma ReadyUploadIsSafe(e: Event, m: Manifest, bundle: Files, assets: Files, ready: Blob)
    requires Qualified(bundle) == Some(m) && MANIFEST_NAME in bundle && READY_NAME !in assets
    requires SafeAssets(e, m, bundle, assets) && Extends(bundle, assets)
    requires RECEIPT_NAME in assets && KitName(m.version) in assets && GoodReceipt(e, m, bundle, assets[RECEIPT_NAME])
    requires IsReadyOf(ready, m, bundle, assets[RECEIPT_NAME], assets[KitName(m.version)])
    ensures SafeAssets(e, m, bundle, assets[READY_NAME := ready])
    ensures OrderlyAssets(e, m, bundle, assets) ==> OrderlyAssets(e, m, bundle, assets[READY_NAME := ready])
  {
    hide Qualified, GoodReceipt, NamesOk, ManifestOk, KitOk, ReadinessOf, KitName, Core;
    ReceiptNotPayload(m, bundle);
    ReadinessHasKit(m, bundle, assets[RECEIPT_NAME], assets[KitName(m.version)]);
    BundleIsCore(m, bundle);
    KitNameApart(m.version);
    assert READY_NAME[14] != RECEIPT_NAME[14];
  }

  lemma ReadinessHasKit(m: Manifest, bundle: Files, raw: Blob, kit: Blob)
    requires MANIFEST_NAME in bundle && ReadinessOf(m, bundle, raw, kit).Some?
    ensures KitOk(kit, bundle, raw)
  {
    hide KitOk, ParseReceipt;
  }

  /** The stage holds the evidence that is already public, if any is. */
  ghost predicate Carries(stage: Stage, m: Manifest, assets: Files)
    reads stage
  {
    && (RECEIPT_NAME in assets ==> stage.receipt == Some(assets[RECEIPT_NAME]))
    && (KitName(m.version) in assets ==> stage.kit == Some(assets[KitName(m.version)]))
  }

  /** A stage whose receipt is the public one also has the public kit: both are the canonical kit of that receipt. */
  lemma OwnStageCarries(stage: Stage, e: Event, m: Manifest, bundle: Files, assets: Files)
    requires MANIFEST_NAME in bundle && OrderlyAssets(e, m, bundle, assets)
    requires stage.Own(e, m, bundle) && Staged(stage, e, m, bundle)
    requires RECEIPT_NAME in assets ==> stage.receipt == Some(assets[RECEIPT_NAME])
    ensures Carries(stage, m, assets)
  {
    hide GoodReceipt, KitMembers, IsReadyOf, Extends;
  }

  /** The payloads are public and the staged kit belongs to the staged receipt and the bundle. */
  method CheckStage(job: Job, m: Manifest, stage: Stage, client: PublicRecord) returns (ok: bool)
    requires Qualified(job.bundle) == Some(m) && MANIFEST_NAME in job.bundle && client.Safe(m, job.bundle)
    modifies client`calls
    ensures ok ==> client.published && Extends(job.bundle, client.assets) && stage.receipt.Some? && stage.kit.Some?
                   && KitOk(stage.kit.value, job.bundle, stage.receipt.value)
    ensures (old(client.calls) >= 1 && client.published && Extends(job.bundle, client.assets) && |job.bundle| <= 297
             && Staged(stage, client.event, m, job.bundle)) ==> ok
    ensures client.calls >= old(client.calls) - 1
  {
    hide Qualified, SafeAssets, InventoryOk, KitOk, GoodReceipt, Core, Generated;
    var lookup := client.Call();
    if !lookup || !client.published { return false; }
    BundleIsCore(m, job.bundle);
    if Core(m) <= client.assets.Keys { PayloadsPresent(client.event, m, job.bundle, client.assets); }
    if !InventoryOk(client.assets, m, Payloads) { return false; }
    InventoryHasCore(client.assets, m, Payloads);
    return stage.receipt.Some? && stage.kit.Some? && KitOk(stage.kit.value, job.bundle, stage.receipt.value);
  }

  /** Uploads the staged receipt and kit, once the kit is known to belong to the receipt and the bundle. */
  method UploadEvidence(job: Job, m: Manifest, stage: Stage, client: PublicRecord) returns (ok: bool)
    requires Qualified(job.bundle) == Some(m) && MANIFEST_NAME in job.bundle && client.Safe(m, job.bundle)
    modifies client`calls, client`assets
    ensures client.Safe(m, job.bundle) && Extends(old(client.assets), client.assets)
    ensures old(client.Orderly(m, job.bundle)) && stage.Own(client.event, m, job.bundle)
            ==> client.Orderly(m, job.bundle)
    ensures forall n | n in client.assets && n !in old(client.assets) :: n in Generated(m)
    ensures ok ==> client.published && Public(stage, m, client.assets)
    ensures ok ==> KitOk(stage.kit.value, job.bundle, stage.receipt.value)
    ensures (old(client.calls) >= 3 && client.published && Extends(job.bundle, old(client.assets))
              && |job.bundle| <= 297
             && Staged(stage, client.event, m, job.bundle) && Carries(stage, m, old(client.assets))) ==> ok
    ensures client.calls >= old(client.calls) - 3
  {
    hide Qualified, SafeAssets, OrderlyAssets, KitOk, GoodReceipt, IsReadyOf, IsKitOf, KitName;
    KitNameApart(m.version);
    ok := CheckStage(job, m, stage, client);
    if !ok { return false; }
    ok := UploadReceipt(job, m, stage, client);
    if !ok { return false; }
    ok := UploadKit(job, m, stage, client);
  }

  /** The staged receipt and kit are public. */
  ghost predicate Public(stage: Stage, m: Manifest, assets: Files)
    reads stage
  {
    && RECEIPT_NAME in assets && stage.receipt == Some(assets[RECEIPT_NAME])
    && KitName(m.version) in assets && stage.kit == Some(assets[KitName(m.version)])
  }

  lemma BundleIsCore(m: Manifest, bundle: Files)
    requires Qualified(bundle) == Some(m)
    ensures bundle.Keys == Core(m)
  {
    hide NamesOk, ManifestOk, Core;
  }

  lemma InventoryHasCore(assets: Files, m: Manifest, phase: Phase)
    requires InventoryOk(assets, m, phase) && phase != Resume
    ensures Core(m) <= assets.Keys
  {
    hide Core, Generated, Fold;
  }

  lemma PayloadsPresent(e: Event, m: Manifest, bundle: Files, assets: Files)
    requires Qualified(bundle) == Some(m) && MANIFEST_NAME in bundle && SafeAssets(e, m, bundle, assets)
    requires Core(m) <= assets.Keys
    ensures Extends(bundle, assets)
    ensures |bundle| <= 297 ==> InventoryOk(assets, m, Payloads)
  {
    hide Qualified, InventoryOk, Complete, NamesOk, ManifestOk, Core;
    BundleIsCore(m, bundle);
    PayloadsInventory(e, m, bundle, assets);
  }

  method UploadReceipt(job: Job, m: Manifest, stage: Stage, client: PublicRecord) returns (ok: bool)
    requires Qualified(job.bundle) == Some(m) && MANIFEST_NAME in job.bundle && client.Safe(m, job.bundle)
    requires client.published
    requires Extends(job.bundle, client.assets) && stage.receipt.Some?
    modifies client`calls, client`assets
    ensures client.Safe(m, job.bundle) && Extends(old(client.assets), client.assets)
    ensures old(client.Orderly(m, job.bundle)) && stage.Own(client.event, m, job.bundle)
            ==> client.Orderly(m, job.bundle)
    ensures client.assets.Keys <= old(client.assets).Keys + {RECEIPT_NAME}
    ensures ok <==>
            (old(client.calls) > 0
             && (RECEIPT_NAME in old(client.assets) ==> stage.receipt == Some(old(client.assets)[RECEIPT_NAME])))
    ensures ok ==> RECEIPT_NAME in client.assets && stage.receipt == Some(client.assets[RECEIPT_NAME])
    ensures client.calls >= old(client.calls) - 1
  {
    hide Qualified, SafeAssets, OrderlyAssets, GoodReceipt, IsKitOf, IsReadyOf;
    ghost var before := client.assets;
    if RECEIPT_NAME !in before {
      EvidenceUploadIsSafe(client.event, m, job.bundle, before, RECEIPT_NAME, stage.receipt.value);
      if client.Orderly(m, job.bundle) && stage.Own(client.event, m, job.bundle) {
        ReceiptUploadIsOrderly(client.event, m, job.bundle, before, stage.receipt.value);
      }
    }
    ok := client.UploadOnce(RECEIPT_NAME, stage.receipt.value);
  }

  method UploadKit(job: Job, m: Manifest, stage: Stage, client: PublicRecord) returns (ok: bool)
    requires Qualified(job.bundle) == Some(m) && MANIFEST_NAME in job.bundle && client.Safe(m, job.bundle)
    requires client.published
    requires RECEIPT_NAME in client.assets && stage.receipt == Some(client.assets[RECEIPT_NAME]) && stage.kit.Some?
    modifies client`calls, client`assets
    ensures client.Safe(m, job.bundle) && Extends(old(client.assets), client.assets)
    ensures old(client.Orderly(m, job.bundle)) && stage.Own(client.event, m, job.bundle)
            ==> client.Orderly(m, job.bundle)
    ensures client.assets.Keys <= old(client.assets).Keys + {KitName(m.version)}
    ensures ok <==>
            (old(client.calls) > 0
             && (KitName(m.version) in old(client.assets) ==>
                 stage.kit == Some(old(client.assets)[KitName(m.version)])))
    ensures ok ==> Public(stage, m, client.assets)
    ensures client.calls >= old(client.calls) - 1
  {
    hide Qualified, SafeAssets, OrderlyAssets, GoodReceipt, IsKitOf, IsReadyOf, KitName;
    ghost var before := client.assets;
    if KitName(m.version) !in before {
      EvidenceUploadIsSafe(client.event, m, job.bundle, before, KitName(m.version), stage.kit.value);
      if client.Orderly(m, job.bundle) && stage.Own(client.event, m, job.bundle) {
        KitUploadIsOrderly(client.event, m, job.bundle, before, stage.kit.value);
      }
    }
    ok := client.UploadOnce(KitName(m.version), stage.kit.value);
  }

  /** Looks the release up and downloads the public evidence again. */
  method ReadEvidence(job: Job, m: Manifest, stage: Stage, client: PublicRecord) returns (ok: bool)
    requires Qualified(job.bundle) == Some(m) && MANIFEST_NAME in job.bundle && client.Safe(m, job.bundle)
    requires Public(stage, m, client.assets)
    modifies client`calls
    ensures ok ==> job.bundle.Keys <= client.assets.Keys
    ensures (old(client.calls) >= 3 && Extends(job.bundle, client.assets) && |job.bundle| <= 297) ==> ok
    ensures client.calls >= old(client.calls) - 3
  {
    hide Qualified, SafeAssets, InventoryOk, Core, Generated, KitName;
    var lookup := client.Call();
    if !lookup { return false; }
    if Extends(job.bundle, client.assets) { EvidenceInventory(client.event, m, job.bundle, client.assets); }
    if !InventoryOk(client.assets, m, Finalization) { return false; }
    InventoryHasCore(client.assets, m, Finalization);
    BundleIsCore(m, job.bundle);
    var receipt := client.Download(RECEIPT_NAME);
    if receipt != stage.receipt { return false; }
    var kit := client.Download(KitName(m.version));
    return kit == stage.kit;
  }

  /** Observes the public evidence and payloads again; nothing is written. */
  method ObserveEvidence(job: Job, m: Manifest, stage: Stage, now: int, client: PublicRecord) returns (ok: bool)
    requires JobOk(job) && Qualified(job.bundle) == Some(m) && MANIFEST_NAME in job.bundle && client.Safe(m, job.bundle)
    requires client.published && Public(stage, m, client.assets)
    modifies client`calls
    ensures ok ==> Extends(job.bundle, client.assets) && GoodReceipt(client.event, m, job.bundle, stage.receipt.value)
    ensures (old(client.calls) >= |job.names| + 4 && client.tagCommit == m.commit && Extends(job.bundle, client.assets)
             && Viable(client.event, m, job.bundle, job.title, now)
             && GoodReceipt(client.event, m, job.bundle, stage.receipt.value)) ==> ok
    ensures client.calls >= old(client.calls) - |job.names| - 4
  {
    hide Qualified, SafeAssets, GoodReceipt, ReceiptOk, CreateReceipt, ReleaseFits, KitName, Core;
    var read := ReadEvidence(job, m, stage, client);
    if !read { return false; }
    var resolved := client.ResolveTag();
    if resolved.None? { return false; }
    var same := CompareBundle(job, client);
    if !same { return false; }
    var created := CreateReceipt(client.event, client.assets, job.bundle, resolved.value, now, stage.receipt);
    if resolved == Some(m.commit) && Viable(client.event, m, job.bundle, job.title, now)
       && GoodReceipt(client.event, m, job.bundle, stage.receipt.value) {
      ReceiptIsCreated(client.event, m, client.assets, job.bundle, job.title, now, stage.receipt);
    }
    if created.None? { return false; }
    CreatedReceiptIsGood(client.event, m, client.assets, job.bundle, resolved.value, now, stage.receipt);
    return true;
  }

  lemma EvidenceInventory(e: Event, m: Manifest, bundle: Files, assets: Files)
    requires Qualified(bundle) == Some(m) && MANIFEST_NAME in bundle && SafeAssets(e, m, bundle, assets)
    requires Extends(bundle, assets) && RECEIPT_NAME in assets && KitName(m.version) in assets
    ensures |bundle| <= 297 ==> InventoryOk(assets, m, Finalization)
    ensures |bundle| <= 297 && READY_NAME in assets ==> InventoryOk(assets, m, ReadyPhase)
  {
    hide Qualified, InventoryOk, SafeAssets, NamesOk, ManifestOk, KitName, Core;
    BundleIsCore(m, bundle);
    if |bundle| <= 297 {
      SafeInventory(e, m, bundle, assets, Finalization);
      if READY_NAME in assets { SafeInventory(e, m, bundle, assets, ReadyPhase); }
    }
  }

  /** Builds the marker from the observed evidence, uploads it once and reads it back. */
  method PublishMarker(job: Job, m: Manifest, stage: Stage, client: PublicRecord) returns (ok: bool)
    requires Qualified(job.bundle) == Some(m) && MANIFEST_NAME in job.bundle && client.Safe(m, job.bundle)
    requires client.published
    requires Public(stage, m, client.assets) && Extends(job.bundle, client.assets)
    requires GoodReceipt(client.event, m, job.bundle, stage.receipt.value)
    requires KitOk(stage.kit.value, job.bundle, stage.receipt.value)
    modifies client`calls, client`assets, stage`ready
    ensures client.Safe(m, job.bundle) && Extends(old(client.assets), client.assets)
    ensures old(client.Orderly(m, job.bundle)) ==> client.Orderly(m, job.bundle)
    ensures client.assets.Keys <= old(client.assets).Keys + {READY_NAME}
    ensures old(stage.Own(client.event, m, job.bundle)) ==> stage.Own(client.event, m, job.bundle)
    ensures ok ==> READY_NAME in client.assets
    ensures (old(client.calls) >= 3 && |job.bundle| <= 297 && old(stage.Own(client.event, m, job.bundle))) ==> ok
  {
    hide Qualified, SafeAssets, OrderlyAssets, GoodReceipt, KitName, KitOk, IsReadyOf;
    ok := StageMarker(job, m, stage, client.event);
    if !ok { return false; }
    ok := UploadMarker(job, m, stage.ready.value, client);
  }

  /** Writes the marker into the stage unless another one is there. */
  method StageMarker(job: Job, m: Manifest, stage: Stage, ghost event: Event) returns (ok: bool)
    requires MANIFEST_NAME in job.bundle && stage.receipt.Some? && stage.kit.Some?
    requires GoodReceipt(event, m, job.bundle, stage.receipt.value)
    requires KitOk(stage.kit.value, job.bundle, stage.receipt.value)
    modifies stage`ready
    ensures ok ==>
            (stage.ready.Some?
             && IsReadyOf(stage.ready.value, m, job.bundle, stage.receipt.value, stage.kit.value))
    ensures old(stage.Own(event, m, job.bundle)) ==> ok && stage.Own(event, m, job.bundle)
  {
    hide GoodReceipt, KitOk, IsKitOf;
    GoodReceiptParses(event, m, job.bundle, stage.receipt.value);
    var ready := ReadinessOf(m, job.bundle, stage.receipt.value, stage.kit.value);
    var marker := ReadyBytes(ready.value, 0);
    hide ReadinessOf;
    if stage.ready.Some? && stage.ready.value != marker { return false; }
    stage.ready := Some(marker);
    return true;
  }

  method UploadMarker(job: Job, m: Manifest, marker: Blob, client: PublicRecord) returns (ok: bool)
    requires Qualified(job.bundle) == Some(m) && MANIFEST_NAME in job.bundle && client.Safe(m, job.bundle)
    requires client.published
    requires Extends(job.bundle, client.assets) && RECEIPT_NAME in client.assets && KitName(m.version) in client.assets
    requires GoodReceipt(client.event, m, job.bundle, client.assets[RECEIPT_NAME])
    requires IsReadyOf(marker, m, job.bundle, client.assets[RECEIPT_NAME], client.assets[KitName(m.version)])
    modifies client`calls, client`assets
    ensures client.Safe(m, job.bundle) && Extends(old(client.assets), client.assets)
    ensures old(client.Orderly(m, job.bundle)) ==> client.Orderly(m, job.bundle)
    ensures client.assets.Keys <= old(client.assets).Keys + {READY_NAME}
    ensures ok ==> READY_NAME in client.assets
    ensures (old(client.calls) >= 3 && |job.bundle| <= 297) ==> ok
  {
    hide Qualified, SafeAssets, OrderlyAssets, InventoryOk, GoodReceipt, KitName, IsReadyOf;
    ghost var before := client.assets;
    if READY_NAME !in before { ReadyUploadIsSafe(client.event, m, job.bundle, before, marker); }
    else { PublicMarkerIsThis(client.event, m, job.bundle, before, marker); }
    var uploaded := client.UploadOnce(READY_NAME, marker);
    if !uploaded { return false; }
    var lookup := client.Call();
    if !lookup { return false; }
    EvidenceInventory(client.event, m, job.bundle, client.assets);
    if !InventoryOk(client.assets, m, ReadyPhase) { return false; }
    var observed := client.Download(READY_NAME);
    return observed == Some(marker);
  }

  lemma GoodReceiptParses(e: Event, m: Manifest, bundle: Files, raw: Blob)
    requires MANIFEST_NAME in bundle && GoodReceipt(e, m, bundle, raw)
    ensures ParseReceipt(raw).Some?
  {
    hide ParseReceipt;
  }

  lemma PublicMarkerIsThis(e: Event, m: Manifest, bundle: Files, assets: Files, marker: Blob)
    requires MANIFEST_NAME in bundle && SafeAssets(e, m, bundle, assets) && READY_NAME in assets
    requires RECEIPT_NAME in assets && KitName(m.version) in assets
    requires IsReadyOf(marker, m, bundle, assets[RECEIPT_NAME], assets[KitName(m.version)])
    ensures assets[READY_NAME] == marker
  {
    hide GoodReceipt, KitOk, ReadinessOf, Exact;
  }

  /** `finalize` once the bundle is qualified. */
  method FinalizeQualified(job: Job, m: Manifest, stage: Stage, now: int, client: PublicRecord) returns (ok: bool)
    requires JobOk(job) && Qualified(job.bundle) == Some(m) && MANIFEST_NAME in job.bundle && client.Safe(m, job.bundle)
    modifies client`calls, client`assets, stage`ready
    ensures client.Safe(m, job.bundle) && Extends(old(client.assets), client.assets)
    ensures old(client.Orderly(m, job.bundle) && stage.Own(client.event, m, job.bundle))
            ==> client.Orderly(m, job.bundle) && stage.Own(client.event, m, job.bundle)
    ensures ok ==> client.published && Complete(client.event, m, job.bundle, client.assets)
    ensures ok ==> Public(stage, m, client.assets)
    ensures (old(client.calls) >= |job.names| + 10 && client.published && Extends(job.bundle, old(client.assets))
             && client.tagCommit == m.commit && Viable(client.event, m, job.bundle, job.title, now)
             && old(stage.Own(client.event, m, job.bundle)) && old(Staged(stage, client.event, m, job.bundle))
             && old(Carries(stage, m, client.assets))) ==> ok
  {
    hide Qualified, SafeAssets, OrderlyAssets, GoodReceipt, KitOk, IsReadyOf, IsKitOf, ReleaseFits, ReceiptOk;
    ok := UploadEvidence(job, m, stage, client);
    if !ok { return false; }
    ok := ObserveEvidence(job, m, stage, now, client);
    if !ok { return false; }
    ok := PublishMarker(job, m, stage, client);
    if ok { MarkerMeansComplete(client.event, m, job.bundle, client.assets); }
  }

  /** A public marker is never early. */
  lemma MarkerMeansComplete(e: Event, m: Manifest, bundle: Files, assets: Files)
    requires MANIFEST_NAME in bundle && SafeAssets(e, m, bundle, assets) && READY_NAME in assets
    ensures Complete(e, m, bundle, assets)
  {
    hide Complete;
  }

  // ------------------------------------------------ whole runs

  /**
   * One attempt: which phase, in which of the stages at hand (a fresh one when there is no such), and where it stops.
   */
  datatype Attempt = Attempt(finalizes: bool, stage: nat, calls: nat, commit: string, now: int)

  /** Once the marker is public there is nothing left that a safe run could add. */
  lemma ReadyIsFinal(e: Event, m: Manifest, bundle: Files, before: Files, after: Files)
    requires Qualified(bundle) == Some(m) && MANIFEST_NAME in bundle
    requires SafeAssets(e, m, bundle, before) && SafeAssets(e, m, bundle, after) && READY_NAME in before
    requires Extends(before, after)
    ensures after == before
  {
    hide Qualified, GoodReceipt, KitOk, IsReadyOf, Generated, Core;
    BundleIsCore(m, bundle);
    assert after.Keys == before.Keys;
  }

  /** `prepare` or `finalize` on any bundle, in any stage, stopping after any number of calls. */
  method Run(job: Job, attempt: Attempt, stage: Stage, client: PublicRecord) returns (ok: bool)
    requires JobOk(job)
    requires Qualified(job.bundle).Some?
             ==> MANIFEST_NAME in job.bundle && client.Safe(Qualified(job.bundle).value, job.bundle)
    modifies client`calls, client`published, client`assets, client`createCount, stage
    ensures Qualified(job.bundle).None?
            ==> !ok && client.assets == old(client.assets) && client.published == old(client.published)
    ensures forall m | Qualified(job.bundle) == Some(m) && MANIFEST_NAME in job.bundle ::
      && client.Safe(m, job.bundle) && Extends(old(client.assets), client.assets)
      && (READY_NAME in old(client.assets) ==> client.assets == old(client.assets))
      && (old(client.Orderly(m, job.bundle)) && old(stage.Own(client.event, m, job.bundle))
          ==> client.Orderly(m, job.bundle) && stage.Own(client.event, m, job.bundle))
  {
    var qualified := Qualified(job.bundle);
    if qualified.None? { return false; }
    hide Qualified, SafeAssets, OrderlyAssets, GoodReceipt, IsKitOf, IsReadyOf, Extends;
    client.calls := attempt.calls;
    if attempt.finalizes {
      ok := FinalizeQualified(job, qualified.value, stage, attempt.now, client);
    } else {
      ok := PrepareQualified(job, qualified.value, stage, attempt.commit, attempt.now, client);
    }
    if READY_NAME in old(client.assets) {
      ReadyIsFinal(client.event, qualified.value, job.bundle, old(client.assets), client.assets);
    }
  }

  /** Any schedule of interrupted runs, each in a fresh stage or in any stage left behind. */
  method RunSchedule(job: Job, m: Manifest, schedule: seq<Attempt>, left: seq<Stage>, client: PublicRecord)
    returns (stages: seq<Stage>)
    requires JobOk(job) && Qualified(job.bundle) == Some(m) && MANIFEST_NAME in job.bundle && client.Safe(m, job.bundle)
    modifies client`calls, client`published, client`assets, client`createCount, left
    ensures client.Safe(m, job.bundle) && client.createCount <= 1 && Extends(old(client.assets), client.assets)
    ensures READY_NAME in client.assets ==> Complete(client.event, m, job.bundle, client.assets)
    ensures READY_NAME in old(client.assets) ==> client.assets == old(client.assets)
    ensures old(client.Orderly(m, job.bundle)) && old(AllOwn(left, client.event, m, job.bundle))
            ==> client.Orderly(m, job.bundle) && AllOwn(stages, client.event, m, job.bundle)
  {
    hide Qualified, SafeAssets, OrderlyAssets, GoodReceipt, IsKitOf, IsReadyOf, Complete;
    stages := left;
    ghost var tidy := client.Orderly(m, job.bundle) && AllOwn(left, client.event, m, job.bundle);
    for i := 0 to |schedule|
      invariant client.Safe(m, job.bundle) && Extends(old(client.assets), client.assets)
      invariant READY_NAME in old(client.assets) ==> client.assets == old(client.assets)
      invariant forall s | s in stages :: s in left || fresh(s)
      invariant tidy ==> client.Orderly(m, job.bundle) && AllOwn(stages, client.event, m, job.bundle)
    {
      if schedule[i].stage >= |stages| {
        var next := new Stage();
        stages := stages + [next];
      }
      var stage := if schedule[i].stage < |stages| then stages[schedule[i].stage] else stages[|stages| - 1];
      assert stage in stages;
      var ok := Run(job, schedule[i], stage, client);
    }
    if READY_NAME in client.assets { MarkerMeansComplete(client.event, m, job.bundle, client.assets); }
  }

  ghost predicate AllOwn(stages: seq<Stage>, e: Event, m: Manifest, bundle: Files)
    requires MANIFEST_NAME in bundle
    reads stages
  {
    forall s | s in stages :: s.Own(e, m, bundle)
  }

  /**
   * An uninterrupted `prepare` in a fresh stage and `finalize` reach the marker from whatever interrupted runs left.
   */
  method Rerun(job: Job, m: Manifest, now: int, later: int, client: PublicRecord) returns (ok: bool, stage: Stage)
    requires JobOk(job) && Qualified(job.bundle) == Some(m) && MANIFEST_NAME in job.bundle && client.Safe(m, job.bundle)
    modifies client`calls, client`published, client`assets, client`createCount
    ensures client.Safe(m, job.bundle) && Extends(old(client.assets), client.assets)
    ensures ok ==> client.published && client.createCount == 1 && Complete(client.event, m, job.bundle, client.assets)
    ensures READY_NAME in old(client.assets) ==> client.assets == old(client.assets)
    ensures old(client.Orderly(m, job.bundle)) ==> client.Orderly(m, job.bundle)
    ensures (old(client.Orderly(m, job.bundle)) && old(client.calls) >= 3 * |job.names| + 17
              && client.tagCommit == m.commit
             && job.configurationOk && Viable(client.event, m, job.bundle, job.title, now)
             && Viable(client.event, m, job.bundle, job.title, later)) ==> ok
    ensures fresh(stage)
  {
    hide Qualified, SafeAssets, OrderlyAssets, GoodReceipt, IsKitOf, IsReadyOf, Complete, KitOk, ReleaseFits, ReceiptOk;
    stage := new Stage();
    ghost var tidy := client.Orderly(m, job.bundle);
    ok := PrepareQualified(job, m, stage, m.commit, now, client);
    if ok {
      if tidy { OwnStageCarries(stage, client.event, m, job.bundle, client.assets); }
      ok := FinalizeQualified(job, m, stage, later, client);
    }
    if READY_NAME in old(client.assets) {
      ReadyIsFinal(client.event, m, job.bundle, old(client.assets), client.assets);
    }
  }

  /**
   * The rehearsal: any interrupted runs from nothing, then one complete run, then a repetition that changes nothing.
   */
  method Exercise(job: Job, m: Manifest, event: Event, schedule: seq<Attempt>, now: int)
    returns (client: PublicRecord, ok: bool)
    requires JobOk(job) && Qualified(job.bundle) == Some(m) && MANIFEST_NAME in job.bundle
    requires job.configurationOk && Viable(event, m, job.bundle, job.title, now)
    ensures ok && client.event == event && client.createCount == 1 && Complete(event, m, job.bundle, client.assets)
  {
    hide Qualified, SafeAssets, OrderlyAssets, GoodReceipt, IsKitOf, IsReadyOf, Complete, KitOk, ReleaseFits, ReceiptOk;
    client := new PublicRecord(event, m.commit, 0);
    BundlePartIsSafe(event, m, job.bundle, client.assets);
    var left := RunSchedule(job, m, schedule, [], client);
    client.calls := 3 * |job.names| + 17;
    var stage;
    ok, stage := Rerun(job, m, now, now, client);
    ghost var ready := client.assets;
    CompleteHasMarker(event, m, job.bundle, ready);
    client.calls := 3 * |job.names| + 17;
    ok, stage := Rerun(job, m, now, now, client);
    assert ok && client.assets == ready;
  }

  lemma CompleteHasMarker(e: Event, m: Manifest, bundle: Files, assets: Files)
    requires MANIFEST_NAME in bundle && Complete(e, m, bundle, assets)
    ensures READY_NAME in assets
  {
    hide GoodReceipt, KitOk, IsReadyOf, Extends;
  }
}
