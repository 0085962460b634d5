/** Publication evidence: the qualified bundle, the receipt, the installation kit and the readiness marker. */
module Publication {
  import opened Basics
  import opened Text

  /** Published bytes by meaning; `layout` tells apart encodings of one value, 0 being the canonical one. */
  datatype Blob =
    | Payload(content: seq<int>)
    | ManifestBytes(manifest: Manifest, layout: nat)
    | ReceiptBytes(receipt: Receipt, layout: nat)
    | KitBytes(members: map<string, Blob>, layout: nat)
    | ReadyBytes(ready: Readiness, layout: nat)

  /** A file identity; the ideal digest in it determines the bytes. */
  datatype FileId = FileId(name: string, bytes: Blob)

  datatype Manifest = Manifest(
    version: string, tag: string, commit: string, channel: string, artifacts: seq<FileId>, sbom: FileId)
  datatype Receipt = Receipt(
    version: string, tag: string, commit: string, channel: string, publishedAt: int, observedAt: int, releaseId: int,
    url: string, manifest: FileId, artifacts: map<string, Blob>)
  datatype Readiness = Readiness(
    version: string, tag: string, commit: string, channel: string, releaseId: int, receipt: FileId, manifest: FileId,
    kit: FileId)

  /** The public release event, apart from its assets. */
  datatype Event = Event(
    id: int, draft: bool, prerelease: bool, tag: string, title: string, url: string, publishedAt: int)

  type Files = map<string, Blob>

  const MANIFEST_NAME := "release-manifest.json"
  const SUMS_NAME := "SHA256SUMS"
  const RECEIPT_NAME := "publication-receipt.json"
  const READY_NAME := "publication-ready.json"

  function KitName(version: string): string { "provelume-" + version + "-installation-kit.zip" }

  function Generated(m: Manifest): set<string> { {RECEIPT_NAME, KitName(m.version), READY_NAME} }

  function Rows(m: Manifest): seq<FileId> { m.artifacts + [m.sbom] }

  function Core(m: Manifest): set<string> { {MANIFEST_NAME, SUMS_NAME} + (set r | r in Rows(m) :: r.name) }

  function Folded(names: set<string>): set<string> { set n | n in names :: Fold(n) }

  predicate ManifestOk(m: Manifest) {
    m.tag == "v" + m.version && IsSha(m.commit) && m.channel in {"preview", "stable"}
  }

  /** No two qualified files, and no qualified and generated file, have names equal up to case. */
  predicate NamesOk(m: Manifest) {
    var rows := Rows(m);
    && (forall i | 0 <= i < |rows| :: Fold(rows[i].name) !in Folded({MANIFEST_NAME, SUMS_NAME} + Generated(m)))
    && forall i, j | 0 <= i < j < |rows| :: Fold(rows[i].name) != Fold(rows[j].name)
  }

  /** The manifest of an exact, already qualified bundle. */
  function Qualified(bundle: Files): Option<Manifest> {
    if MANIFEST_NAME !in bundle || !bundle[MANIFEST_NAME].ManifestBytes? then None
    else
      var m := bundle[MANIFEST_NAME].manifest;
      if ManifestOk(m) && NamesOk(m) && bundle.Keys == Core(m)
         && forall r | r in Rows(m) :: r.name in bundle && bundle[r.name] == r.bytes
      then Some(m) else None
  }

  datatype Phase = Resume | Payloads | Finalization | ReadyPhase

  function Required(m: Manifest, phase: Phase): set<string> {
    match phase
    case Resume => {}
    case Payloads => Core(m)
    case Finalization => Core(m) + (Generated(m) - {READY_NAME})
    case ReadyPhase => Core(m) + Generated(m)
  }

  /** The closed inventory check of one phase. */
  predicate InventoryOk(assets: Files, m: Manifest, phase: Phase) {
    && |assets| <= 300 && assets.Keys <= Core(m) + Generated(m) && Required(m, phase) <= assets.Keys
    && forall a, b | a in assets && b in assets && Fold(a) == Fold(b) :: a == b
  }

  // ------------------------------------------------ the receipt

  function UrlOf(tag: string): string { "https://github.com/gabned/provelume/releases/tag/" + tag }

  predicate ReceiptOk(r: Receipt) {
    && r.tag == "v" + r.version && IsSha(r.commit) && r.channel in {"preview", "stable"}
    && r.publishedAt <= r.observedAt && r.releaseId > 0 && r.url == UrlOf(r.tag)
    && r.manifest.name == MANIFEST_NAME && 1 <= |r.artifacts| <= 256
    && (forall n | n in r.artifacts :: Fold(n) != Fold(MANIFEST_NAME))
    && forall a, b | a in r.artifacts && b in r.artifacts && Fold(a) == Fold(b) :: a == b
  }

  function ParseReceipt(b: Blob): Option<Receipt> {
    if b.ReceiptBytes? && ReceiptOk(b.receipt) then Some(b.receipt) else None
  }

  predicate EventFits(e: Event, m: Manifest) {
    !e.draft && e.tag == m.tag && (e.prerelease <==> m.channel == "preview")
  }

  /** The receipt an event and a bundle determine, except for the time of observation. */
  function ReceiptOf(e: Event, m: Manifest, bundle: Files, observedAt: int): Receipt
    requires MANIFEST_NAME in bundle
  {
    Receipt(m.version, m.tag, m.commit, m.channel, e.publishedAt, observedAt, e.id, e.url,
            FileId(MANIFEST_NAME, bundle[MANIFEST_NAME]), bundle - {MANIFEST_NAME})
  }

  function CreateReceipt(e: Event, assets: Files, bundle: Files, resolved: string, now: int,
        existing: Option<Blob>): Option<Blob> {
    match Qualified(bundle)
    case None => None
    case Some(m) =>
      if !EventFits(e, m) || m.commit != resolved || !InventoryOk(assets, m, Payloads)
         || !(forall n | n in bundle :: n in assets && assets[n] == bundle[n]) then None
      else
        var value := ReceiptOf(e, m, bundle, now);
        if !ReceiptOk(value) then None
        else
          match existing
          case None => Some(ReceiptBytes(value, 0))
          case Some(raw) =>
            var previous := ParseReceipt(raw);
            if previous.Some? && previous.value == value.(observedAt := previous.value.observedAt) then Some(raw)
            else None
  }

  // ------------------------------------------------ the kit and the marker

  function KitMembers(bundle: Files, raw: Blob): Option<Files> {
    match ParseReceipt(raw)
    case None => None
    case Some(r) =>
      if bundle == r.artifacts[MANIFEST_NAME := r.manifest.bytes]
      then Some(Under(bundle)["publication/" + RECEIPT_NAME := raw]) else None
  }

  /** The archive members of the bundle's files. */
  function Under(bundle: Files): Files {
    assert forall a: string, b: string | "release/" + a == "release/" + b :: a == b by {
      forall a: string, b: string | "release/" + a == "release/" + b ensures a == b {
        assert ("release/" + a)[8..] == a && ("release/" + b)[8..] == b;
      }
    }
    map n | n in bundle :: "release/" + n := bundle[n]
  }

  predicate KitOk(kit: Blob, bundle: Files, raw: Blob) {
    kit.KitBytes? && KitMembers(bundle, raw) == Some(kit.members)
  }

  function ReadinessOf(m: Manifest, bundle: Files, raw: Blob, kit: Blob): Option<Readiness>
    requires MANIFEST_NAME in bundle
  {
    var r := ParseReceipt(raw);
    if r.None? || !KitOk(kit, bundle, raw) then None
    else
      Some(Readiness(r.value.version, r.value.tag, r.value.commit, r.value.channel, r.value.releaseId,
                     FileId(RECEIPT_NAME, raw), r.value.manifest, FileId(KitName(m.version), kit)))
  }

  // ------------------------------------------------ what a public record may hold

  predicate Extends(a: Files, b: Files) { a.Keys <= b.Keys && forall n | n in a :: b[n] == a[n] }

  /** Only qualified and generated names are public, and qualified names carry the qualified bytes. */
  predicate Exact(assets: Files, m: Manifest, bundle: Files) {
    assets.Keys <= Core(m) + Generated(m) && forall n | n in assets && n in bundle :: assets[n] == bundle[n]
  }

  predicate GoodReceipt(e: Event, m: Manifest, bundle: Files, raw: Blob)
    requires MANIFEST_NAME in bundle
  {
    ParseReceipt(raw).Some? && ParseReceipt(raw).value == ReceiptOf(e, m, bundle, ParseReceipt(raw).value.observedAt)
  }

  /** The canonical kit of a receipt. */
  predicate IsKitOf(kit: Blob, bundle: Files, raw: Blob) { KitOk(kit, bundle, raw) && kit.layout == 0 }

  predicate IsReadyOf(ready: Blob, m: Manifest, bundle: Files, raw: Blob, kit: Blob)
    requires MANIFEST_NAME in bundle
  {
    ReadinessOf(m, bundle, raw, kit).Some? && ready == ReadyBytes(ReadinessOf(m, bundle, raw, kit).value, 0)
  }

  /** Everything the marker promises is public, with exactly the bytes it and the receipt identify. */
  predicate Complete(e: Event, m: Manifest, bundle: Files, assets: Files)
    requires MANIFEST_NAME in bundle
  {
    && Extends(bundle, assets) && Generated(m) <= assets.Keys
    && GoodReceipt(e, m, bundle, assets[RECEIPT_NAME])
    && KitOk(assets[KitName(m.version)], bundle, assets[RECEIPT_NAME])
    && IsReadyOf(assets[READY_NAME], m, bundle, assets[RECEIPT_NAME], assets[KitName(m.version)])
  }

  /** Safety: nothing foreign or altered is public, and the marker is never early. */
  predicate SafeAssets(e: Event, m: Manifest, bundle: Files, assets: Files)
    requires MANIFEST_NAME in bundle
  {
    Exact(assets, m, bundle) && (READY_NAME in assets ==> Complete(e, m, bundle, assets))
  }

  /** What runs with their own stages keep in addition: each generated asset fits the ones before it. */
  predicate OrderlyAssets(e: Event, m: Manifest, bundle: Files, assets: Files)
    requires MANIFEST_NAME in bundle
  {
    && (RECEIPT_NAME in assets ==> Extends(bundle, assets) && GoodReceipt(e, m, bundle, assets[RECEIPT_NAME]))
    && (KitName(m.version) in assets ==>
          RECEIPT_NAME in assets && IsKitOf(assets[KitName(m.version)], bundle, assets[RECEIPT_NAME]))
    && (READY_NAME in assets ==> KitName(m.version) in assets)
  }

  lemma QualifiedParts(bundle: Files, m: Manifest)
    requires Qualified(bundle) == Some(m)
    ensures MANIFEST_NAME in bundle && bundle.Keys == Core(m) && NamesOk(m) && ManifestOk(m)
    ensures SUMS_NAME in bundle && m == bundle[MANIFEST_NAME].manifest
  {
    hide ManifestOk, NamesOk;
  }

  lemma FixedNamesDiffer(version: string)
    ensures forall a, b | a in [MANIFEST_NAME, SUMS_NAME, RECEIPT_NAME, READY_NAME, KitName(version)]
                       && b in [MANIFEST_NAME, SUMS_NAME, RECEIPT_NAME, READY_NAME, KitName(version)]
                       && Fold(a) == Fold(b) :: a == b
  {
    var k := KitName(version);
    assert Fold(MANIFEST_NAME)[0] == 'r' && Fold(SUMS_NAME)[0] == 's' && Fold(RECEIPT_NAME)[0] == 'p'
           && Fold(READY_NAME)[0] == 'p';
    assert k[..10] == "provelume-" && k[0] == 'p' && k[1] == 'r' && Fold(k)[1] == 'r' && Fold(k)[0] == 'p';
    assert Fold(RECEIPT_NAME)[1] == 'u' && Fold(READY_NAME)[1] == 'u';
    assert |RECEIPT_NAME| != |READY_NAME|;
  }

  /** The qualified and generated names are distinct even up to case. */
  lemma NamesDistinct(m: Manifest)
    requires NamesOk(m)
    ensures forall a, b | a in Core(m) + Generated(m) && b in Core(m) + Generated(m) && Fold(a) == Fold(b) :: a == b
    ensures Core(m) !! Generated(m)
  {
    hide Fold;
    FixedNamesDiffer(m.version);
    var fixed := {MANIFEST_NAME, SUMS_NAME} + Generated(m);
    forall a, b | a in Core(m) + Generated(m) && b in Core(m) + Generated(m) && Fold(a) == Fold(b) ensures a == b {
      if a in fixed && b in fixed {
      } else if a !in fixed && b !in fixed {
        var i :| 0 <= i < |Rows(m)| && Rows(m)[i].name == a;
        var j :| 0 <= j < |Rows(m)| && Rows(m)[j].name == b;
        assert i == j;
      } else {
        RowsApart(m);
      }
    }
    FixedNamesApart(m);
  }

  lemma RowsApart(m: Manifest)
    requires NamesOk(m)
    ensures forall r, f | r in Rows(m) && f in {MANIFEST_NAME, SUMS_NAME} + Generated(m) :: Fold(r.name) != Fold(f)
  {
    var fixed := {MANIFEST_NAME, SUMS_NAME} + Generated(m);
    forall r, f | r in Rows(m) && f in fixed ensures Fold(r.name) != Fold(f) {
      assert Fold(f) in Folded(fixed);
    }
  }

  lemma FixedNamesApart(m: Manifest)
    requires NamesOk(m)
    ensures Core(m) !! Generated(m)
  {
    hide Fold;
    RowsApart(m);
    KitNameApart(m.version);
    forall n | n in Core(m) ensures n !in Generated(m) {
      assert n in {MANIFEST_NAME, SUMS_NAME} || exists r | r in Rows(m) :: r.name == n;
    }
  }

  lemma KitNameApart(version: string)
    ensures KitName(version) !in {MANIFEST_NAME, SUMS_NAME, RECEIPT_NAME, READY_NAME}
  {
    var k := KitName(version);
    assert k[..10] == "provelume-" && k[0] == 'p' && k[1] == 'r';
    assert MANIFEST_NAME[0] == 'r' && SUMS_NAME[0] == 'S' && RECEIPT_NAME[1] == 'u' && READY_NAME[1] == 'u';
  }
}
