/** The transfer of an exact file inventory: the manifest's path discipline and its two-phase materialisation. */
module Transfer {
  import opened Basics
  import opened Text

  type Bytes = seq<int>

  /** A repository path by its components. */
  type Path = seq<string>

  /** One inventory row. The ideal digests in it determine its bytes; an authored row also carries them. */
  datatype Row = Row(source: Option<Path>, path: Path, identity: Bytes, executable: bool, authored: Option<Bytes>)

  /** One accepted commit of the bootstrap. */
  datatype Link = Link(commit: string, parent: string, tree: string, qualifiedBy: string, manifest: string)

  // ------------------------------------------------ paths

  /** A map on names that ignores some of their differences, like case. */
  type Folding = string -> string

  function FoldPath(fold: Folding, p: Path): (q: Path)
    ensures |q| == |p| && forall i | 0 <= i < |p| :: q[i] == fold(p[i])
  {
    seq(|p|, i requires 0 <= i < |p| => fold(p[i]))
  }

  /** On a file system that ignores case, one of the paths is the other or a directory above it. */
  predicate Clash(fold: Folding, p: Path, q: Path) {
    FoldPath(fold, p) <= FoldPath(fold, q) || FoldPath(fold, q) <= FoldPath(fold, p)
  }

  /** No two paths clash. */
  predicate ConflictFree(fold: Folding, paths: seq<Path>) {
    forall i, j | 0 <= i < j < |paths| :: !Clash(fold, paths[i], paths[j])
  }

  predicate Above(fold: Folding, folded: set<Path>, p: Path) {
    exists k | 0 < k < |p| :: FoldPath(fold, p[..k]) in folded
  }

  function FoldedPaths(fold: Folding, paths: seq<Path>): set<Path> { set p | p in paths :: FoldPath(fold, p) }

  lemma FoldPrefix(fold: Folding, p: Path, k: nat)
    requires k <= |p|
    ensures FoldPath(fold, p[..k]) == FoldPath(fold, p)[..k]
  {
  }

  predicate NoRepeats(fold: Folding, paths: seq<Path>) {
    forall i, j | 0 <= i < j < |paths| :: FoldPath(fold, paths[i]) != FoldPath(fold, paths[j])
  }

  /** The two checks of the inventory: no repeated folded path, and no folded path among another's parents. */
  predicate Accepted(fold: Folding, paths: seq<Path>) {
    NoRepeats(fold, paths) && forall i | 0 <= i < |paths| :: !Above(fold, FoldedPaths(fold, paths), paths[i])
  }

  lemma ClashIsShared(fold: Folding, p: Path, q: Path)
    requires p != [] && q != [] && FoldPath(fold, p) <= FoldPath(fold, q)
    ensures FoldPath(fold, p) == FoldPath(fold, q)
            || exists k | 0 < k < |q| :: FoldPath(fold, q[..k]) == FoldPath(fold, p)
  {
    if |p| < |q| {
      FoldPrefix(fold, q, |p|);
      assert FoldPath(fold, q)[..|p|] == FoldPath(fold, p);
    }
  }

  lemma AboveClashes(fold: Folding, paths: seq<Path>, i: nat)
    requires i < |paths| && Above(fold, FoldedPaths(fold, paths), paths[i])
    ensures exists j | 0 <= j < |paths| :: j != i && FoldPath(fold, paths[j]) <= FoldPath(fold, paths[i])
  {
    var k :| 0 < k < |paths[i]| && FoldPath(fold, paths[i][..k]) in FoldedPaths(fold, paths);
    var p :| p in paths && FoldPath(fold, p) == FoldPath(fold, paths[i][..k]);
    var j :| 0 <= j < |paths| && paths[j] == p;
    FoldPrefix(fold, paths[i], k);
  }

  /** The checks are exactly conflict freedom: no duplicate and no file above another file, whatever the case. */
  lemma AcceptedIsConflictFree(fold: Folding, paths: seq<Path>)
    requires forall i | 0 <= i < |paths| :: paths[i] != []
    ensures Accepted(fold, paths) <==> ConflictFree(fold, paths)
  {
    hide FoldPath;
    if Accepted(fold, paths) {
      forall i, j | 0 <= i < j < |paths| ensures !Clash(fold, paths[i], paths[j]) {
        if FoldPath(fold, paths[i]) <= FoldPath(fold, paths[j]) {
          AcceptedApart(fold, paths, i, j);
        } else if FoldPath(fold, paths[j]) <= FoldPath(fold, paths[i]) {
          AcceptedApart(fold, paths, j, i);
        }
      }
    }
    if ConflictFree(fold, paths) {
      forall i | 0 <= i < |paths| ensures !Above(fold, FoldedPaths(fold, paths), paths[i]) {
        if Above(fold, FoldedPaths(fold, paths), paths[i]) { AboveClashes(fold, paths, i); }
      }
      forall i, j | 0 <= i < j < |paths| ensures FoldPath(fold, paths[i]) != FoldPath(fold, paths[j]) {
        assert !Clash(fold, paths[i], paths[j]);
      }
    }
  }

  lemma AcceptedApart(fold: Folding, paths: seq<Path>, i: nat, j: nat)
    requires i < |paths| && j < |paths| && i != j && paths[i] != [] && paths[j] != [] && Accepted(fold, paths)
    ensures !(FoldPath(fold, paths[i]) <= FoldPath(fold, paths[j]))
  {
    hide FoldPath;
    assert paths[i] in paths && FoldPath(fold, paths[i]) in FoldedPaths(fold, paths);
    assert !Above(fold, FoldedPaths(fold, paths), paths[j]);
    if FoldPath(fold, paths[i]) <= FoldPath(fold, paths[j]) { ClashIsShared(fold, paths[i], paths[j]); }
  }

  /** The inventory loops: folded paths first, then every parent of every path. */
  method CheckPaths(fold: Folding, paths: seq<Path>) returns (ok: bool)
    requires forall i | 0 <= i < |paths| :: paths[i] != []
    ensures ok <==> ConflictFree(fold, paths)
  {
    hide FoldPath, ConflictFree;
    AcceptedIsConflictFree(fold, paths);
    var folded: set<Path> := {};
    for i := 0 to |paths|
      invariant folded == FoldedPaths(fold, paths[..i])
      invariant NoRepeats(fold, paths[..i])
    {
      assert paths[..i + 1] == paths[..i] + [paths[i]];
      if FoldPath(fold, paths[i]) in folded {
        var p :| p in paths[..i] && FoldPath(fold, p) == FoldPath(fold, paths[i]);
        return false;
      }
      folded := folded + {FoldPath(fold, paths[i])};
    }
    assert paths[..|paths|] == paths;
    for i := 0 to |paths|
      invariant forall k | 0 <= k < i :: !Above(fold, folded, paths[k])
    {
      for k := 1 to |paths[i]|
        invariant forall l | 0 < l < k :: FoldPath(fold, paths[i][..l]) !in folded
      {
        if FoldPath(fold, paths[i][..k]) in folded { return false; }
      }
    }
    return true;
  }

  // ------------------------------------------------ bootstrap history

  predicate Chained(links: seq<Link>, i: nat)
    requires i + 1 < |links|
  {
    links[i + 1].parent == links[i].commit
  }

  /** Exact identities: four commits or trees and the digest of the qualifying manifest. */
  predicate LinkOk(link: Link) {
    && IsSha(link.commit) && IsSha(link.parent) && IsSha(link.tree) && IsSha(link.qualifiedBy)
    && |link.manifest| == 64 && forall c | c in link.manifest :: IsHexDigit(c)
  }

  /** A path of distinct commits on a root outside it. */
  predicate SimpleHistory(links: seq<Link>) {
    && 0 < |links| <= 16 && (forall i | 0 <= i < |links| :: LinkOk(links[i]))
    && (forall i | 0 <= i < |links| - 1 :: Chained(links, i))
    && (forall i, j | 0 <= i < j < |links| :: links[i].commit != links[j].commit)
    && forall i | 0 <= i < |links| :: links[i].commit != links[0].parent
  }

  /** The history loop, with the commits seen so far, accepts exactly the simple histories. */
  method CheckHistory(links: seq<Link>) returns (ok: bool)
    ensures ok <==> SimpleHistory(links)
  {
    hide LinkOk;
    if !(0 < |links| <= 16) { return false; }
    var seen: set<string> := {};
    var previous: Option<string> := None;
    for n := 0 to |links|
      invariant forall c :: c in seen <==> exists i | 0 <= i < n :: links[i].commit == c
      invariant previous == if n == 0 then None else Some(links[n - 1].commit)
      invariant forall i | 0 <= i < n :: LinkOk(links[i])
      invariant forall i | 0 <= i < n - 1 :: Chained(links, i)
      invariant forall i, j | 0 <= i < j < n :: links[i].commit != links[j].commit
    {
      var link := links[n];
      if SimpleHistory(links) { NextLink(links, n); }
      if !LinkOk(link) { return false; }
      if link.commit in seen || link.commit == link.parent || !(previous.None? || previous.value == link.parent) {
        return false;
      }
      if n > 0 { assert Chained(links, n - 1); }
      seen := seen + {link.commit};
      previous := Some(link.commit);
    }
    return links[0].parent !in seen;
  }

  lemma NextLink(links: seq<Link>, n: nat)
    requires SimpleHistory(links) && n < |links|
    ensures links[n].commit != links[n].parent && (n > 0 ==> links[n].parent == links[n - 1].commit)
  {
    if n > 0 { assert Chained(links, n - 1); }
  }

  // ------------------------------------------------ materialisation

  datatype SourceFile = SourceFile(data: Bytes, executable: bool)

  /** A directory, a symbolic link, or a file under the path it was created with. */
  datatype Node = Directory | SymbolicLink | File(path: Path, data: Bytes, executable: bool)

  type Nodes = map<Path, Node>

  /** The manifest's case folding, upper case, and the file system's own notion of one name. */
  datatype Host = Host(fold: Folding, upper: Folding, key: Folding)

  /** Names that the file system takes for one are equal up to the manifest's folding. */
  ghost predicate HostOk(host: Host) { forall a, b :: host.key(a) == host.key(b) ==> host.fold(a) == host.fold(b) }

  /** Where the file system keeps a path. */
  function Key(host: Host, p: Path): (q: Path)
    ensures |q| == |p|
  {
    FoldPath(host.key, p)
  }

  function Paths(rows: seq<Row>): (paths: seq<Path>)
    ensures |paths| == |rows| && forall i | 0 <= i < |rows| :: paths[i] == rows[i].path
  {
    seq(|rows|, i requires 0 <= i < |rows| => rows[i].path)
  }

  /** What the manifest check says about conflicts: real paths, none of which clash. */
  predicate ManifestOk(fold: Folding, rows: seq<Row>) {
    rows != [] && (forall i | 0 <= i < |rows| :: rows[i].path != []) && ConflictFree(fold, Paths(rows))
  }

  /** The inventory and the paths registered for later. */
  datatype Manifest = Manifest(rows: seq<Row>, future: seq<Path>)

  const NOTICES := ["LICENSE", "COMMERCIAL-LICENSE.md", "THIRD_PARTY_NOTICES.md"]
  const DEVICES := {
    "CON", "PRN", "AUX", "NUL", "COM1", "COM2", "COM3", "COM4", "COM5", "COM6", "COM7", "COM8", "COM9",
    "LPT1", "LPT2", "LPT3", "LPT4", "LPT5", "LPT6", "LPT7", "LPT8", "LPT9"}

  predicate PortableChar(c: char) { ' ' <= c && c !in {'\\', ':', '<', '>', '"', '|', '?', '*', '/'} }

  /** One component that every supported system can hold. */
  predicate PortableName(host: Host, name: string) {
    && name != "" && name != "." && name != ".." && (forall c | c in name :: PortableChar(c))
    && host.fold(name) !in {".git", ".agent"}
    && name[|name| - 1] != ' ' && name[|name| - 1] != '.' && host.upper(Split(name)[0]) !in DEVICES
  }

  predicate PortablePath(host: Host, p: Path) { p != [] && forall i | 0 <= i < |p| :: PortableName(host, p[i]) }

  function Joined(p: Path): string { if p == [] then "" else if |p| == 1 then p[0] else p[0] + "/" + Joined(p[1..]) }

  function JoinedAll(paths: seq<Path>): (names: seq<string>)
    ensures |names| == |paths|
  {
    seq(|paths|, i requires 0 <= i < |paths| => Joined(paths[i]))
  }

  /** A row is a portable path, either authored with its own bytes or copied from a portable source path. */
  predicate RowOk(host: Host, row: Row) {
    && PortablePath(host, row.path)
    && if row.source.None? then row.authored == Some(row.identity)
      else PortablePath(host, row.source.value) && row.authored.None?
  }

  predicate NoticeKept(rows: seq<Row>, notice: string) {
    exists i | 0 <= i < |rows| :: rows[i].path == [notice] && rows[i].source == Some([notice])
  }

  /** The registered later paths that are not in the inventory already, behind it. */
  function Combined(paths: seq<Path>, future: seq<Path>): seq<Path> {
    if future == [] then paths
    else
      var front, last := Combined(paths, future[..|future| - 1]), future[|future| - 1];
      if last in paths then front else front + [last]
  }

  /** The rest of the manifest check: order, copies, notices and later paths. */
  predicate ManifestRest(host: Host, m: Manifest) {
    && Ascending(JoinedAll(Paths(m.rows))) && Ascending(JoinedAll(m.future))
    && (forall i, j | 0 <= i < j < |m.rows| && m.rows[i].source.Some? :: m.rows[i].source != m.rows[j].source)
    && (forall n | n in NOTICES :: NoticeKept(m.rows, n))
    && (forall i | 0 <= i < |m.future| :: PortablePath(host, m.future[i]))
    && ConflictFree(host.fold, Combined(Paths(m.rows), m.future))
  }

  /** The verified bytes of a row, authored or from the source commit. */
  function Payload(row: Row, source: map<Path, SourceFile>): Option<Bytes> {
    if row.authored.Some? then
      if row.authored.value == row.identity then row.authored else None
    else if row.source.Some? && row.source.value in source
            && source[row.source.value] == SourceFile(row.identity, row.executable)
    then Some(row.identity)
    else None
  }

  predicate Listed(rows: seq<Row>, p: Path) { exists i | 0 <= i < |rows| :: rows[i].path == p }

  /** Every file on disk is one of the manifest's, under its own path, and nothing is a symbolic link. */
  ghost predicate OnlyListed(host: Host, nodes: Nodes, rows: seq<Row>) {
    && (forall k | k in nodes :: !nodes[k].SymbolicLink?)
    && forall k | k in nodes && nodes[k].File? :: Key(host, nodes[k].path) == k && Listed(rows, nodes[k].path)
  }

  /** A tree in which every file is stored under the key of its path. */
  ghost predicate Stored(host: Host, nodes: Nodes) {
    forall k | k in nodes && nodes[k].File? :: Key(host, nodes[k].path) == k
  }

  predicate TargetOk(host: Host, nodes: Nodes, row: Row) {
    var k := Key(host, row.path);
    k in nodes ==> nodes[k].File? && nodes[k].data == row.identity && nodes[k].executable == row.executable
  }

  predicate ManifestAccepted(host: Host, m: Manifest) {
    && ManifestOk(host.fold, m.rows) && (forall i | 0 <= i < |m.rows| :: RowOk(host, m.rows[i]))
    && ManifestRest(host, m)
  }

  /** The whole check phase, for a destination root that is a directory or absent and apart from the source. */
  ghost predicate Ready(host: Host, nodes: Nodes, m: Manifest, source: map<Path, SourceFile>, rootOk: bool) {
    && ManifestAccepted(host, m) && rootOk && OnlyListed(host, nodes, m.rows)
    && forall i | 0 <= i < |m.rows| :: Payload(m.rows[i], source).Some? && TargetOk(host, nodes, m.rows[i])
  }

  predicate Placed(host: Host, nodes: Nodes, row: Row) {
    Key(host, row.path) in nodes && nodes[Key(host, row.path)] == File(row.path, row.identity, row.executable)
  }

  /** Exactly the manifest's files, with exactly its bytes and modes. */
  ghost predicate Materialized(host: Host, nodes: Nodes, rows: seq<Row>) {
    OnlyListed(host, nodes, rows) && forall i | 0 <= i < |rows| :: Placed(host, nodes, rows[i])
  }

  lemma KeysMeet(host: Host, p: Path, q: Path)
    requires HostOk(host) && Key(host, p) == Key(host, q)
    ensures FoldPath(host.fold, p) == FoldPath(host.fold, q)
  {
    forall i | 0 <= i < |p| ensures FoldPath(host.fold, p)[i] == FoldPath(host.fold, q)[i] {
      assert Key(host, p)[i] == Key(host, q)[i];
      assert host.key(p[i]) == host.key(q[i]);
    }
  }

  lemma PathsApart(host: Host, rows: seq<Row>, i: nat, j: nat)
    requires ManifestOk(host.fold, rows) && i < |rows| && j < |rows| && i != j
    ensures !(FoldPath(host.fold, rows[i].path) <= FoldPath(host.fold, rows[j].path))
  {
    hide FoldPath;
    assert !Clash(host.fold, Paths(rows)[if i < j then i else j], Paths(rows)[if i < j then j else i]);
  }

  /** A file of the manifest is never a directory above another, and never another file. */
  lemma KeysApart(host: Host, rows: seq<Row>, i: nat, j: nat, k: nat)
    requires HostOk(host) && ManifestOk(host.fold, rows) && i < |rows| && j < |rows| && 0 < k <= |rows[j].path|
    requires Key(host, rows[i].path) == Key(host, rows[j].path[..k])
    ensures i == j && k == |rows[j].path|
  {
    hide FoldPath;
    KeysMeet(host, rows[i].path, rows[j].path[..k]);
    FoldPrefix(host.fold, rows[j].path, k);
    if i != j { PathsApart(host, rows, i, j); }
  }

  /** Where a file of the manifest already stands, it is the row's own. */
  lemma StandingFileIsItsOwn(host: Host, nodes: Nodes, rows: seq<Row>, i: nat)
    requires HostOk(host) && ManifestOk(host.fold, rows) && OnlyListed(host, nodes, rows) && i < |rows|
    requires TargetOk(host, nodes, rows[i])
    requires Key(host, rows[i].path) in nodes
    ensures Placed(host, nodes, rows[i])
  {
    var node := nodes[Key(host, rows[i].path)];
    var j :| 0 <= j < |rows| && rows[j].path == node.path;
    assert rows[i].path[..|rows[i].path|] == rows[i].path;
    KeysApart(host, rows, j, i, |rows[i].path|);
  }

  class Tree {
    const host: Host
    var nodes: Nodes

    constructor (host: Host, nodes: Nodes)
      ensures this.host == host && this.nodes == nodes
    {
      this.host, this.nodes := host, nodes;
    }

    /** The check phase; it writes nothing. */
    method Check(m: Manifest, source: map<Path, SourceFile>, rootOk: bool) returns (ok: bool)
      requires Stored(host, nodes)
      ensures ok <==> Ready(host, nodes, m, source, rootOk)
    {
      hide FoldPath, Clash, Payload, Key, ConflictFree, RowOk, ManifestRest;
      var rows := m.rows;
      if rows == [] || exists i | 0 <= i < |rows| :: rows[i].path == [] { return false; }
      var free := CheckPaths(host.fold, Paths(rows));
      if !free || !ManifestAccepted(host, m) || !rootOk { return false; }
      if exists k | k in nodes :: nodes[k].SymbolicLink? { return false; }
      var expected := set i | 0 <= i < |rows| :: rows[i].path;
      var actual := set k | k in nodes && nodes[k].File? :: nodes[k].path;
      if !(actual <= expected) {
        var p :| p in actual && p !in expected;
        return false;
      }
      assert OnlyListed(host, nodes, rows) by {
        forall k | k in nodes && nodes[k].File? ensures Listed(rows, nodes[k].path) { assert nodes[k].path in actual; }
      }
      for i := 0 to |rows|
        invariant forall j | 0 <= j < i :: Payload(rows[j], source).Some? && TargetOk(host, nodes, rows[j])
      {
        if Payload(rows[i], source).None? || !TargetOk(host, nodes, rows[i]) { return false; }
      }
      return true;
    }

    /** Makes the missing directories above a path; it fails where something else stands. */
    method MakeParents(p: Path) returns (ok: bool)
      requires p != []
      modifies this
      ensures ok
              <==> forall k | 0 < k < |p| && Key(host, p[..k]) in old(nodes) :: old(nodes)[Key(host, p[..k])].Directory?
      ensures Grown(old(nodes), nodes)
      ensures forall q | q in nodes && q !in old(nodes) :: nodes[q].Directory? && ParentKey(host, p, q)
      ensures forall k | 0 < k < |p| :: Key(host, p[..k]) in nodes
    {
      hide Key;
      ok := true;
      for k := 1 to |p|
        invariant ok
          <==> forall l | 0 < l < k && Key(host, p[..l]) in old(nodes) :: old(nodes)[Key(host, p[..l])].Directory?
        invariant Grown(old(nodes), nodes)
        invariant forall q | q in nodes && q !in old(nodes) :: nodes[q].Directory? && ParentKey(host, p, q)
        invariant forall l | 0 < l < k :: Key(host, p[..l]) in nodes
      {
        var key := Key(host, p[..k]);
        if key !in nodes {
          nodes := nodes[key := Directory];
          assert ParentKey(host, p, key);
        } else if !nodes[key].Directory? {
          ok := false;
        }
      }
    }

    /** Writes one row after its parents. In a tree of listed files this never meets a conflict. */
    method WriteRow(rows: seq<Row>, i: nat) returns (ok: bool)
      requires HostOk(host) && ManifestOk(host.fold, rows) && OnlyListed(host, nodes, rows) && i < |rows|
      requires forall j | 0 <= j < |rows| :: TargetOk(host, nodes, rows[j])
      modifies this
      ensures ok && Placed(host, nodes, rows[i]) && OnlyListed(host, nodes, rows)
      ensures forall j | 0 <= j < |rows| :: TargetOk(host, nodes, rows[j])
      ensures Grown(old(nodes), nodes)
      ensures HasParents(host, nodes, rows[i].path)
      ensures old(Key(host, rows[i].path) in nodes && HasParents(host, nodes, rows[i].path)) ==> nodes == old(nodes)
    {
      hide FoldPath, ManifestOk, Key;
      var row := rows[i];
      NonEmpty(host, rows, i);
      FilesAreNotAbove(host, nodes, rows, i);
      ok := MakeParents(row.path);
      ghost var ready := nodes;
      ParentsAreNoTargets(host, old(nodes), ready, rows, i);
      if Key(host, row.path) !in nodes {
        nodes := nodes[Key(host, row.path) := File(row.path, row.identity, row.executable)];
        NewFileIsItsOwn(host, ready, nodes, rows, i);
      } else {
        StandingFileIsItsOwn(host, nodes, rows, i);
      }
    }

    /** Checks everything, then writes; the write phase meets no conflict. */
    method Materialize(m: Manifest, source: map<Path, SourceFile>, rootOk: bool) returns (ok: bool)
      requires HostOk(host) && Stored(host, nodes)
      modifies this
      ensures ok <==> Ready(host, old(nodes), m, source, rootOk)
      ensures !ok ==> nodes == old(nodes)
      ensures ok ==> Materialized(host, nodes, m.rows) && ParentsExist(host, nodes, m.rows)
      ensures ok ==> Ready(host, nodes, m, source, rootOk)
      ensures Grown(old(nodes), nodes)
      ensures old(Materialized(host, nodes, m.rows) && ParentsExist(host, nodes, m.rows)) ==> nodes == old(nodes)
    {
      ok := Check(m, source, rootOk);
      if ok {
        hide ManifestRest, RowOk, Payload;
        WriteAll(m.rows);
      }
    }

    /** The write phase over a checked tree: row after row, none of which disturbs another. */
    method WriteAll(rows: seq<Row>)
      requires HostOk(host) && ManifestOk(host.fold, rows) && OnlyListed(host, nodes, rows)
      requires forall j | 0 <= j < |rows| :: TargetOk(host, nodes, rows[j])
      modifies this
      ensures Materialized(host, nodes, rows) && ParentsExist(host, nodes, rows)
      ensures forall j | 0 <= j < |rows| :: TargetOk(host, nodes, rows[j])
      ensures Grown(old(nodes), nodes)
      ensures old(Materialized(host, nodes, rows) && ParentsExist(host, nodes, rows)) ==> nodes == old(nodes)
    {
      hide OnlyListed, ManifestOk, TargetOk, Placed, HasParents;
      for i := 0 to |rows|
        invariant OnlyListed(host, nodes, rows) && forall j | 0 <= j < |rows| :: TargetOk(host, nodes, rows[j])
        invariant forall j | 0 <= j < i :: Placed(host, nodes, rows[j]) && HasParents(host, nodes, rows[j].path)
        invariant Grown(old(nodes), nodes)
        invariant old(Materialized(host, nodes, rows) && ParentsExist(host, nodes, rows)) ==> nodes == old(nodes)
      {
        ghost var before := nodes;
        if Placed(host, nodes, rows[i]) { PlacedHasKey(host, nodes, rows[i]); }
        var ok := WriteRow(rows, i);
        forall j | 0 <= j < i ensures Placed(host, nodes, rows[j]) && HasParents(host, nodes, rows[j].path) {
          Persists(host, before, nodes, rows[j]);
        }
      }
    }
  }

  /** Nothing that was there is gone or changed. */
  predicate Grown(before: Nodes, after: Nodes) {
    before.Keys <= after.Keys && forall q | q in before :: after[q] == before[q]
  }

  predicate ParentKey(host: Host, p: Path, key: Path) { exists k | 0 < k < |p| :: Key(host, p[..k]) == key }

  predicate HasParents(host: Host, nodes: Nodes, p: Path) { forall k | 0 < k < |p| :: Key(host, p[..k]) in nodes }

  /** Every directory above a file of the manifest exists. */
  predicate ParentsExist(host: Host, nodes: Nodes, rows: seq<Row>) {
    forall i | 0 <= i < |rows| :: HasParents(host, nodes, rows[i].path)
  }

  lemma NonEmpty(host: Host, rows: seq<Row>, i: nat)
    requires ManifestOk(host.fold, rows) && i < |rows|
    ensures rows[i].path != []
  {
  }

  lemma PlacedHasKey(host: Host, nodes: Nodes, row: Row)
    requires Placed(host, nodes, row)
    ensures Key(host, row.path) in nodes
  {
  }

  lemma Persists(host: Host, before: Nodes, after: Nodes, row: Row)
    requires Grown(before, after)
    requires Placed(host, before, row) && HasParents(host, before, row.path)
    ensures Placed(host, after, row) && HasParents(host, after, row.path)
  {
  }

  lemma FilesAreNotAbove(host: Host, nodes: Nodes, rows: seq<Row>, i: nat)
    requires HostOk(host) && ManifestOk(host.fold, rows) && OnlyListed(host, nodes, rows) && i < |rows|
    ensures forall k | 0 < k < |rows[i].path| ::
              Key(host, rows[i].path[..k]) in nodes ==> nodes[Key(host, rows[i].path[..k])].Directory?
  {
    hide Key, ManifestOk;
    forall k | 0 < k < |rows[i].path| && Key(host, rows[i].path[..k]) in nodes
      ensures nodes[Key(host, rows[i].path[..k])].Directory?
    {
      var node := nodes[Key(host, rows[i].path[..k])];
      if node.File? {
        var j :| 0 <= j < |rows| && rows[j].path == node.path;
        KeysApart(host, rows, j, i, k);
      }
    }
  }

  lemma ParentsAreNoTargets(host: Host, before: Nodes, after: Nodes, rows: seq<Row>, i: nat)
    requires HostOk(host) && ManifestOk(host.fold, rows) && i < |rows| && OnlyListed(host, before, rows)
    requires forall j | 0 <= j < |rows| :: TargetOk(host, before, rows[j])
    requires Grown(before, after)
    requires forall q | q in after && q !in before :: after[q].Directory? && ParentKey(host, rows[i].path, q)
    ensures OnlyListed(host, after, rows) && forall j | 0 <= j < |rows| :: TargetOk(host, after, rows[j])
    ensures HasParents(host, before, rows[i].path) ==> after == before
  {
    hide Key, ManifestOk;
    forall j | 0 <= j < |rows| ensures TargetOk(host, after, rows[j]) {
      assert TargetOk(host, before, rows[j]);
      var q := Key(host, rows[j].path);
      if q in after && q !in before {
        var k :| 0 < k < |rows[i].path| && Key(host, rows[i].path[..k]) == q;
        KeysApart(host, rows, j, i, k);
      }
    }
    if HasParents(host, before, rows[i].path) {
      assert forall q | ParentKey(host, rows[i].path, q) :: q in before;
      assert after.Keys == before.Keys;
    }
  }

  lemma NewFileIsItsOwn(host: Host, before: Nodes, after: Nodes, rows: seq<Row>, i: nat)
    requires HostOk(host) && ManifestOk(host.fold, rows) && i < |rows| && OnlyListed(host, before, rows)
    requires forall j | 0 <= j < |rows| :: TargetOk(host, before, rows[j])
    requires after == before[Key(host, rows[i].path) := File(rows[i].path, rows[i].identity, rows[i].executable)]
    ensures OnlyListed(host, after, rows) && forall j | 0 <= j < |rows| :: TargetOk(host, after, rows[j])
  {
    hide Key, ManifestOk;
    assert Listed(rows, rows[i].path);
    forall j | 0 <= j < |rows| ensures TargetOk(host, after, rows[j]) {
      assert TargetOk(host, before, rows[j]);
      if Key(host, rows[j].path) == Key(host, rows[i].path) {
        NonEmpty(host, rows, i);
        assert rows[i].path[..|rows[i].path|] == rows[i].path;
        KeysApart(host, rows, j, i, |rows[i].path|);
      }
    }
  }
}
