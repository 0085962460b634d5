/** The structural JSON difference that limits what one receipt may change. */
module StructuralDiff {
  import opened Text

  datatype Json<A> =
    | Leaf(value: A)
    | Obj(fields: map<string, Json<A>>)
    | Arr(items: seq<Json<A>>)

  /** A position: the object keys and decimal indices that lead from the root to a value. */
  type Position = seq<string>

  function Child(prefix: string, key: string): string {
    if prefix == "" then key else prefix + "." + key
  }

  function Max(m: nat, n: nat): (r: nat)
    ensures r == m || r == n
    ensures m <= r && n <= r
  {
    if m < n then n else m
  }

  function Range(n: nat): (r: set<nat>)
    ensures forall i: nat :: i in r <==> i < n
  {
    if n == 0 then {} else Range(n - 1) + {n - 1}
  }

  /** The dotted paths at which two values differ, as the tool computes them. */
  function ChangedPaths<A(==)>(before: Json<A>, after: Json<A>, prefix: string): set<string>
    decreases before, 1
  {
    if before == after then {}
    else
      match (before, after)
      case (Obj(b), Obj(a)) =>
        set key, path | key in b.Keys + a.Keys && path in ChangedField(before, after, prefix, key) :: path
      case (Arr(b), Arr(a)) =>
        set i, path | i in Range(Max(|b|, |a|)) && path in ChangedItem(before, after, prefix, i) :: path
      case _ => {prefix}
  }

  function ChangedField<A(==)>(before: Json<A>, after: Json<A>, prefix: string, key: string): set<string>
    requires before.Obj? && after.Obj?
    decreases before, 0
  {
    var child := Child(prefix, key);
    if key !in before.fields || key !in after.fields then {child}
    else ChangedPaths(before.fields[key], after.fields[key], child)
  }

  function ChangedItem<A(==)>(before: Json<A>, after: Json<A>, prefix: string, i: nat): set<string>
    requires before.Arr? && after.Arr?
    decreases before, 0
  {
    var child := Child(prefix, Decimal(i));
    if i >= |before.items| || i >= |after.items| then {child}
    else ChangedPaths(before.items[i], after.items[i], child)
  }

  predicate PathIsAllowed(path: string, allowed: set<string>) {
    exists item | item in allowed :: path == item || StartsWith(path, item + ".")
  }

  // ---------------------------------------------------------------- positions

  predicate CleanKey(key: string) { key != "" && '.' !in key }

  predicate CleanPosition(pos: Position) { forall key | key in pos :: CleanKey(key) }

  ghost predicate CleanJson<A(!new)>(j: Json<A>) {
    match j
    case Leaf(_) => true
    case Obj(fields) => forall key | key in fields :: CleanKey(key) && CleanJson(fields[key])
    case Arr(items) => forall i | 0 <= i < |items| :: CleanJson(items[i])
  }

  /** The dotted path of a position below `prefix`. */
  function PathFrom(prefix: string, pos: Position): string
    decreases |pos|
  {
    if pos == [] then prefix else PathFrom(Child(prefix, pos[0]), pos[1..])
  }

  /** The path components below a value; an array's components are its indices. */
  predicate HasChild<A>(j: Json<A>, key: string) {
    match j
    case Leaf(_) => false
    case Obj(fields) => key in fields
    case Arr(items) => Numeral(key) < |items| && Decimal(Numeral(key)) == key
  }

  function Get<A>(j: Json<A>, key: string): (child: Json<A>)
    requires HasChild(j, key)
    ensures child < j
  {
    match j
    case Obj(fields) => fields[key]
    case Arr(items) => items[Numeral(key)]
  }

  predicate SameKind<A>(b: Json<A>, a: Json<A>) { (b.Obj? && a.Obj?) || (b.Arr? && a.Arr?) }

  /** The value at a position, if the position exists. */
  ghost function At<A>(j: Json<A>, pos: Position): seq<Json<A>>
    decreases |pos|
  {
    if pos == [] then [j]
    else if HasChild(j, pos[0]) then At(Get(j, pos[0]), pos[1..])
    else []
  }

  /**
   * A topmost difference: every proper ancestor is a pair of containers of one kind, and at the
   * position itself either only one side has a value or the two values differ and cannot be
   * compared child by child.
   */
  ghost predicate Topmost<A(!new)>(b: Json<A>, a: Json<A>, pos: Position)
    decreases |pos|
  {
    if pos == [] then b != a && !SameKind(b, a)
    else
      && SameKind(b, a)
      && var inB, inA := HasChild(b, pos[0]), HasChild(a, pos[0]);
      if inB && inA then Topmost(Get(b, pos[0]), Get(a, pos[0]), pos[1..])
      else |pos| == 1 && (inB || inA)
  }

  /** A topmost difference whose dotted path below `prefix` is `path`. */
  ghost predicate Differs<A(!new)>(b: Json<A>, a: Json<A>, pos: Position, prefix: string, path: string) {
    Topmost(b, a, pos) && PathFrom(prefix, pos) == path
  }

  /** The changed paths one component contributes, for objects and arrays alike. */
  function ChildChange<A(==)>(b: Json<A>, a: Json<A>, prefix: string, key: string): set<string> {
    if HasChild(b, key) && HasChild(a, key) then ChangedPaths(Get(b, key), Get(a, key), Child(prefix, key))
    else {Child(prefix, key)}
  }

  /** Objects and arrays are compared alike: child by child over the components of both. */
  lemma ChangedByChild<A(!new)>(b: Json<A>, a: Json<A>, prefix: string, path: string)
    requires SameKind(b, a) && b != a
    ensures path in ChangedPaths(b, a, prefix) <==>
      exists key :: (HasChild(b, key) || HasChild(a, key)) && path in ChildChange(b, a, prefix, key)
  {
    if path in ChangedPaths(b, a, prefix) {
      if b.Arr? {
        var i :| i in Range(Max(|b.items|, |a.items|)) && path in ChangedItem(b, a, prefix, i);
        NumeralDecimal(i);
        assert path in ChildChange(b, a, prefix, Decimal(i));
      } else {
        var key :| key in b.fields.Keys + a.fields.Keys && path in ChangedField(b, a, prefix, key);
        assert path in ChildChange(b, a, prefix, key);
      }
    }
    forall key | (HasChild(b, key) || HasChild(a, key)) && path in ChildChange(b, a, prefix, key)
      ensures path in ChangedPaths(b, a, prefix)
    {
      if b.Arr? { assert path in ChangedItem(b, a, prefix, Numeral(key)); }
      else { assert path in ChangedField(b, a, prefix, key); }
    }
  }

  /** The difference is exact: it lists the path of every topmost difference and nothing else. */
  lemma {:induction false} ChangedPathsExact<A(!new)>(b: Json<A>, a: Json<A>, prefix: string, path: string)
    ensures path in ChangedPaths(b, a, prefix) <==>
      exists pos :: Differs(b, a, pos, prefix, path)
    decreases b
  {
    if b == a {
      forall pos { EqualHasNoDifference(b, pos); }
    } else if SameKind(b, a) {
      ChangedByChild(b, a, prefix, path);
      if path in ChangedPaths(b, a, prefix) {
        var key :| (HasChild(b, key) || HasChild(a, key)) && path in ChildChange(b, a, prefix, key);
        if HasChild(b, key) && HasChild(a, key) {
          ChangedPathsExact(Get(b, key), Get(a, key), Child(prefix, key), path);
          var rest :| Differs(Get(b, key), Get(a, key), rest, Child(prefix, key), path);
          var pos := [key] + rest;
          assert pos[1..] == rest;
          assert Differs(b, a, pos, prefix, path);
        } else {
          assert [key][1..] == [];
          assert Differs(b, a, [key], prefix, path);
        }
      }
      forall pos | Differs(b, a, pos, prefix, path)
        ensures path in ChangedPaths(b, a, prefix)
      {
        var key := pos[0];
        if HasChild(b, key) && HasChild(a, key) {
          var rest: Position := pos[1..];
          assert Differs(Get(b, key), Get(a, key), rest, Child(prefix, key), path);
          ChangedPathsExact(Get(b, key), Get(a, key), Child(prefix, key), path);
        } else {
          assert pos[1..] == [];
          assert PathFrom(Child(prefix, key), []) == Child(prefix, key);
        }
        assert path in ChildChange(b, a, prefix, key);
      }
    } else {
      var root: Position := [];
      assert Differs(b, a, root, prefix, prefix);
    }
  }

  lemma {:induction false} EqualHasNoDifference<A(!new)>(j: Json<A>, pos: Position)
    ensures !Topmost(j, j, pos)
    decreases |pos|
  {
    if pos != [] && HasChild(j, pos[0]) { EqualHasNoDifference(Get(j, pos[0]), pos[1..]); }
  }

  /** Two values that disagree at a position have a topmost difference above or below it. */
  lemma {:induction false} DisagreementHasTopmost<A(!new)>(b: Json<A>, a: Json<A>, pos: Position)
    returns (top: Position)
    requires At(b, pos) != At(a, pos)
    ensures Topmost(b, a, top) && (top <= pos || pos <= top)
    decreases b, |pos|
  {
    if !SameKind(b, a) {
      top := [];
    } else {
      var key;
      if pos == [] {
        key := DifferingChild(b, a);
      } else {
        key := pos[0];
      }
      if HasChild(b, key) && HasChild(a, key) {
        var rest := DisagreementHasTopmost(Get(b, key), Get(a, key), if pos == [] then [] else pos[1..]);
        top := [key] + rest;
        assert top[1..] == rest;
      } else {
        top := [key];
      }
    }
  }

  lemma DifferingChild<A(!new)>(b: Json<A>, a: Json<A>) returns (key: string)
    requires SameKind(b, a) && b != a
    ensures HasChild(b, key) || HasChild(a, key)
    ensures HasChild(b, key) && HasChild(a, key) ==> Get(b, key) != Get(a, key)
  {
    match (b, a)
    case (Obj(before), Obj(after)) =>
      if before.Keys == after.Keys {
        key :| key in before && before[key] != after[key];
      } else {
        key :| key in before.Keys + after.Keys && !(key in before && key in after);
      }
      assert HasChild(b, key) <==> key in before;
      assert HasChild(a, key) <==> key in after;
    case (Arr(before), Arr(after)) =>
      var i: nat :| i < Max(|before|, |after|) && (i < |before| && i < |after| ==> before[i] != after[i]);
      assert i < Max(|before|, |after|);
      NumeralDecimal(i);
      key := Decimal(i);
      assert HasChild(b, key) <==> i < |before|;
      assert HasChild(a, key) <==> i < |after|;
  }

  /** `changed_paths` is empty exactly on equal values. */
  lemma ChangedPathsEmpty<A(!new)>(b: Json<A>, a: Json<A>)
    ensures ChangedPaths(b, a, "") == {} <==> b == a
  {
    if b != a {
      var top := DisagreementHasTopmost(b, a, []);
      assert Differs(b, a, top, "", PathFrom("", top));
      ChangedPathsExact(b, a, "", PathFrom("", top));
    }
  }

  // ---------------------------------------------------------------- dotted paths

  lemma SplitClean(key: string)
    requires CleanKey(key)
    ensures Split(key) == [key]
  {
  }

  lemma {:induction false} SplitPathFrom(prefix: string, pos: Position)
    requires CleanPosition(pos) && prefix != ""
    ensures Split(PathFrom(prefix, pos)) == Split(prefix) + pos
    decreases |pos|
  {
    hide Split, Find;
    if pos == [] {
      assert PathFrom(prefix, pos) == prefix;
    } else {
      var deeper := Child(prefix, pos[0]);
      assert deeper == prefix + "." + pos[0] && deeper != "";
      SplitConcat(prefix, pos[0]);
      SplitClean(pos[0]);
      SplitPathFrom(deeper, pos[1..]);
      assert (Split(prefix) + [pos[0]]) + pos[1..] == Split(prefix) + pos;
    }
  }

  /** A dotted path determines its clean position. */
  lemma SplitPath(pos: Position)
    requires CleanPosition(pos) && pos != []
    ensures Split(PathFrom("", pos)) == pos && PathFrom("", pos) != ""
  {
    SplitClean(pos[0]);
    SplitPathFrom(pos[0], pos[1..]);
    assert pos == [pos[0]] + pos[1..];
  }

  lemma {:induction false} PathFromConcat(prefix: string, pos: Position, rest: Position)
    requires prefix != ""
    ensures exists tail ::
              PathFrom(prefix, pos + rest) == PathFrom(prefix, pos) + tail && (tail == "" || tail[0] == '.')
                && (rest == [] <==> tail == "")
    decreases |pos| + |rest|
  {
    if pos != [] {
      assert (pos + rest)[1..] == pos[1..] + rest;
      PathFromConcat(Child(prefix, pos[0]), pos[1..], rest);
    } else if rest != [] {
      assert pos + rest == rest;
      assert (pos + rest)[1..] == [] + rest[1..];
      PathFromConcat(Child(prefix, rest[0]), [], rest[1..]);
      assert PathFrom(Child(prefix, rest[0]), []) == prefix + ("." + rest[0]);
      var tail :| PathFrom(Child(prefix, rest[0]), rest[1..]) == PathFrom(Child(prefix, rest[0]), []) + tail;
      assert PathFrom(prefix, pos + rest) == PathFrom(prefix, pos) + (("." + rest[0]) + tail);
    } else {
      assert PathFrom(prefix, pos + rest) == PathFrom(prefix, pos) + "";
    }
  }

  lemma AllowedGivesPrefix(item: Position, pos: Position)
    requires CleanPosition(item) && CleanPosition(pos) && item != [] && pos != []
    requires StartsWith(PathFrom("", pos), PathFrom("", item) + ".")
    ensures item <= pos
  {
    var path, top := PathFrom("", pos), PathFrom("", item);
    SplitPath(item);
    SplitPath(pos);
    var rest := path[|top| + 1..];
    assert path == top + "." + rest;
    SplitConcat(top, rest);
  }

  lemma PrefixIsAllowed(item: Position, pos: Position)
    requires item != [] && item[0] != "" && item <= pos
    ensures PathFrom("", pos) == PathFrom("", item) || StartsWith(PathFrom("", pos), PathFrom("", item) + ".")
  {
    var rest := pos[|item|..];
    assert pos == item + rest;
    assert pos[1..] == item[1..] + rest;
    PathFromConcat(item[0], item[1..], rest);
    var path, top := PathFrom(item[0], pos[1..]), PathFrom(item[0], item[1..]);
    var tail :| path == top + tail && (tail == "" || tail[0] == '.');
    if tail != "" { assert path[..|top| + 1] == top + "."; }
  }

  /** The string test of `path_is_allowed` is the prefix order on clean positions. */
  lemma AllowedIsPrefix(item: Position, pos: Position)
    requires CleanPosition(item) && CleanPosition(pos) && item != [] && pos != []
    ensures var path, top := PathFrom("", pos), PathFrom("", item);
      (path == top || StartsWith(path, top + ".")) <==> item <= pos
  {
    if PathFrom("", pos) == PathFrom("", item) {
      SplitPath(item);
      SplitPath(pos);
    } else if StartsWith(PathFrom("", pos), PathFrom("", item) + ".") {
      AllowedGivesPrefix(item, pos);
    }
    assert item[0] in item;
    if item <= pos { PrefixIsAllowed(item, pos); }
  }

  lemma {:induction false} TopmostIsClean<A(!new)>(b: Json<A>, a: Json<A>, pos: Position)
    requires CleanJson(b) && CleanJson(a) && Topmost(b, a, pos)
    ensures CleanPosition(pos)
    decreases |pos|
  {
    if pos != [] {
      var key := pos[0];
      ChildIsClean(b, key);
      ChildIsClean(a, key);
      if HasChild(b, key) && HasChild(a, key) {
        TopmostIsClean(Get(b, key), Get(a, key), pos[1..]);
      }
      assert pos == [key] + pos[1..];
    }
  }

  lemma ChildIsClean<A(!new)>(j: Json<A>, key: string)
    requires CleanJson(j)
    ensures HasChild(j, key) ==> CleanKey(key) && CleanJson(Get(j, key))
  {
  }

  // ---------------------------------------------------------------- the frame check

  predicate FrameHolds<A(==)>(before: Json<A>, after: Json<A>, allowed: set<string>) {
    forall path | path in ChangedPaths(before, after, "") :: PathIsAllowed(path, allowed)
  }

  /** The allowed paths of a set of clean positions. */
  function Paths(items: set<Position>): set<string> { set item | item in items :: PathFrom("", item) }

  ghost predicate CleanItems(items: set<Position>) {
    forall item | item in items :: item != [] && CleanPosition(item)
  }

  /** The position is an allowed one or lies below one. */
  ghost predicate Covered(items: set<Position>, pos: Position) {
    exists item | item in items :: item <= pos
  }

  lemma AllowedExact(items: set<Position>, pos: Position)
    requires CleanItems(items) && CleanPosition(pos)
    ensures PathIsAllowed(PathFrom("", pos), Paths(items)) <==> Covered(items, pos)
  {
    if pos == [] {
      forall item | item in items ensures PathFrom("", item) != "" { SplitPath(item); }
      return;
    }
    var path := PathFrom("", pos);
    if PathIsAllowed(path, Paths(items)) {
      var top :| top in Paths(items) && (path == top || StartsWith(path, top + "."));
      var item :| item in items && PathFrom("", item) == top;
      AllowedIsPrefix(item, pos);
    }
    forall item | item in items && item <= pos ensures PathIsAllowed(path, Paths(items)) {
      AllowedIsPrefix(item, pos);
      assert PathFrom("", item) in Paths(items);
    }
  }

  /** The frame check accepts exactly when every topmost difference lies at or below an allowed position. */
  lemma FrameExact<A(!new)>(b: Json<A>, a: Json<A>, items: set<Position>)
    requires CleanJson(b) && CleanJson(a) && CleanItems(items)
    ensures FrameHolds(b, a, Paths(items)) <==>
      forall pos :: Topmost(b, a, pos) ==> Covered(items, pos)
  {
    forall pos | Topmost(b, a, pos)
      ensures PathIsAllowed(PathFrom("", pos), Paths(items)) <==> Covered(items, pos)
    {
      TopmostIsClean(b, a, pos);
      AllowedExact(items, pos);
    }
    if FrameHolds(b, a, Paths(items)) {
      forall pos | Topmost(b, a, pos) ensures Covered(items, pos) {
        assert Differs(b, a, pos, "", PathFrom("", pos));
        ChangedPathsExact(b, a, "", PathFrom("", pos));
      }
    }
    if forall pos :: Topmost(b, a, pos) ==> Covered(items, pos) {
      forall path | path in ChangedPaths(b, a, "") ensures PathIsAllowed(path, Paths(items)) {
        ChangedPathsExact(b, a, "", path);
        var pos :| Differs(b, a, pos, "", path);
        assert Covered(items, pos);
      }
    }
  }

  lemma TopmostNearAllowed<A(!new)>(b: Json<A>, a: Json<A>, items: set<Position>, top: Position, pos: Position)
    requires CleanJson(b) && CleanJson(a) && CleanItems(items)
    requires FrameHolds(b, a, Paths(items)) && Topmost(b, a, top)
    requires top <= pos || pos <= top
    ensures exists item | item in items :: item <= pos || pos <= item
  {
    FrameExact(b, a, items);
    assert Covered(items, top);
  }

  /** After an accepted frame check the values agree wherever no allowed position is above, at or below. */
  lemma FrameAgrees<A(!new)>(b: Json<A>, a: Json<A>, items: set<Position>, pos: Position)
    requires CleanJson(b) && CleanJson(a) && CleanItems(items)
    requires FrameHolds(b, a, Paths(items))
    requires forall item | item in items :: !(item <= pos) && !(pos <= item)
    ensures At(b, pos) == At(a, pos)
  {
    if At(b, pos) != At(a, pos) {
      var top := DisagreementHasTopmost(b, a, pos);
      TopmostNearAllowed(b, a, items, top, pos);
      assert false;
    }
  }
}
