/** The vendor synchronizer: several files installed together, and rolled back together. */
module VendorSync {
  import opened Basics

  /** Permission bits: the owner's execute bit and all the others. */
  datatype Mode = Mode(executable: bool, rest: int)
  datatype File = File(data: seq<int>, mode: Mode)

  /** A path inside the checkout, by its components. */
  type Path = seq<string>

  datatype Plan = Plan(name: Path, data: seq<int>, executable: bool)

  type Files = map<Path, File>

  /**
   * Where an installation stops: nowhere, or at item `index`, before its directories are made, before it is replaced,
   * or when it is verified after that.
   */
  datatype Fault = NoFault | BeforeDirectories(index: nat) | BeforeReplace(index: nat) | AfterReplace(index: nat)

  datatype Outcome = Installed(changed: seq<Path>) | Drift(changed: seq<Path>) | RolledBack | HalfRolledBack

  /** Whether the fault strikes an installation of `n` items. */
  predicate Strikes(fault: Fault, n: nat) { !fault.NoFault? && fault.index < n }

  /** How many of `n` items are replaced. */
  function Applied(fault: Fault, n: nat): nat {
    if !Strikes(fault, n) then n else if fault.AfterReplace? then fault.index + 1 else fault.index
  }

  /** For how many of `n` items the directories above them are made. */
  function Attempted(fault: Fault, n: nat): nat {
    if !Strikes(fault, n) then n else if fault.BeforeDirectories? then fault.index else fault.index + 1
  }

  /** The directories above a path. */
  function Above(name: Path): set<Path> { set k | k in Lengths(|name|) :: name[..k] }

  /** The lengths of the proper, non-empty prefixes of a path of `n` components. */
  function Lengths(n: nat): (s: set<nat>)
    ensures forall k :: k in s <==> 0 < k < n
  {
    if n <= 1 then {} else Lengths(n - 1) + {n - 1}
  }

  /** The directories above all of some items. */
  function AllAbove(plans: seq<Plan>): set<Path> {
    if plans == [] then {} else AllAbove(plans[..|plans| - 1]) + Above(plans[|plans| - 1].name)
  }

  /** What a host with or without permission bits lets one compare. */
  predicate Settled(posix: bool, files: Files, p: Plan) {
    p.name in files && files[p.name].data == p.data && (posix ==> files[p.name].mode.executable == p.executable)
  }

  predicate Synced(posix: bool, files: Files, plans: seq<Plan>) { forall p | p in plans :: Settled(posix, files, p) }

  predicate DistinctNames(plans: seq<Plan>) { forall i, j | 0 <= i < j < |plans| :: plans[i].name != plans[j].name }

  function Names(plans: seq<Plan>): set<Path> { set p | p in plans :: p.name }

  /** The plans that are not settled, in order. */
  function Drifted(posix: bool, files: Files, plans: seq<Plan>): (d: seq<Plan>)
    ensures forall p :: p in d <==> p in plans && !Settled(posix, files, p)
  {
    if plans == [] then []
    else
      var front, last := Drifted(posix, files, plans[..|plans| - 1]), plans[|plans| - 1];
      assert plans == plans[..|plans| - 1] + [last];
      if Settled(posix, files, last) then front else front + [last]
  }

  lemma {:induction false} DriftedDistinct(posix: bool, files: Files, plans: seq<Plan>)
    requires DistinctNames(plans)
    ensures DistinctNames(Drifted(posix, files, plans))
  {
    if plans != [] {
      var front, last := plans[..|plans| - 1], plans[|plans| - 1];
      DriftedDistinct(posix, files, front);
      forall p | p in Drifted(posix, files, front) ensures p.name != last.name { assert p in front; }
    }
  }

  /** No drift is the same as being in sync. */
  lemma SyncedMeansNoDrift(posix: bool, files: Files, plans: seq<Plan>)
    ensures Drifted(posix, files, plans) == [] <==> Synced(posix, files, plans)
  {
    var drifted := Drifted(posix, files, plans);
    if drifted != [] { assert drifted[0] in drifted; }
  }

  function NamesOf(plans: seq<Plan>): (names: seq<Path>)
    ensures |names| == |plans| && forall i | 0 <= i < |plans| :: names[i] == plans[i].name
  {
    seq(|plans|, i requires 0 <= i < |plans| => plans[i].name)
  }

  /**
   * The mode an item is installed with: the present one, or a new file's, with the owner's execute bit set as planned.
   */
  function StagedMode(posix: bool, before: Files, p: Plan, newMode: Mode): Mode {
    if !posix then newMode else (if p.name in before then before[p.name].mode else newMode).(executable := p.executable)
  }

  function StagedFile(posix: bool, before: Files, p: Plan, newMode: Mode): File {
    File(p.data, StagedMode(posix, before, p, newMode))
  }

  /** What a rolled-back file is: its bytes, and its mode where the host keeps modes. */
  function RestoredFile(posix: bool, original: File, newMode: Mode): File {
    if posix then original else File(original.data, newMode)
  }

  /** What a rollback leaves of a file: where the host keeps no modes, the replaced ones have a new file's. */
  function Returned(posix: bool, before: Files, replaced: set<Path>, newMode: Mode): Files {
    map n | n in before :: if n in replaced then RestoredFile(posix, before[n], newMode) else before[n]
  }

  /** A rollback that stopped early: the first `left` items are still installed, the rest of the replaced are back. */
  ghost predicate PartlyReturned(posix: bool, before: Files, after: Files, changed: seq<Plan>, left: nat, applied: nat,
                                 newMode: Mode)
    requires left <= applied <= |changed|
  {
    && after.Keys == before.Keys + Names(changed[..left])
    && (forall i | 0 <= i < left :: changed[i].name in after
          && after[changed[i].name] == StagedFile(posix, before, changed[i], newMode))
    && forall n | n in before && n !in Names(changed[..left]) ::
         after[n] == Returned(posix, before, Names(changed[..applied]), newMode)[n]
  }

  /** Whether a rollback of `n` items ends by itself. */
  predicate Finishes(stop: Option<nat>, n: nat) { stop == None || stop.value >= n }

  class Checkout {
    var files: Files
    var directories: set<Path>

    constructor (files: Files, directories: set<Path>)
      ensures this.files == files && this.directories == directories
    {
      this.files, this.directories := files, directories;
    }

    /** The loop that looks for drift. */
    method FindDrift(posix: bool, plans: seq<Plan>) returns (changed: seq<Plan>)
      ensures changed == Drifted(posix, files, plans)
    {
      changed := [];
      for i := 0 to |plans|
        invariant changed == Drifted(posix, files, plans[..i])
      {
        assert plans[..i + 1][..i] == plans[..i];
        var p := plans[i];
        if p.name !in files || files[p.name].data != p.data
           || (posix && files[p.name].mode.executable != p.executable) {
          changed := changed + [p];
        }
      }
      assert plans[..|plans|] == plans;
    }

    /** Makes the directories of one changed file after the other and replaces it, until the fault. */
    method Install(posix: bool, changed: seq<Plan>, originals: Files, newMode: Mode, fault: Fault)
      returns (applied: nat, ok: bool)
      requires DistinctNames(changed) && originals == files
      modifies this
      ensures ok <==> !Strikes(fault, |changed|)
      ensures applied == Applied(fault, |changed|) <= |changed|
      ensures directories == old(directories) + AllAbove(changed[..Attempted(fault, |changed|)])
      ensures files.Keys == originals.Keys + Names(changed[..applied])
      ensures forall i | 0 <= i < applied :: changed[i].name in files
                && files[changed[i].name] == StagedFile(posix, originals, changed[i], newMode)
      ensures forall n | n in originals && n !in Names(changed[..applied]) :: files[n] == originals[n]
    {
      hide Names, Above, StagedFile, AllAbove, DistinctNames;
      NoNames(changed);
      applied := 0;
      while applied < |changed|
        invariant applied <= |changed| && (fault.NoFault? || applied <= fault.index)
        invariant directories == old(directories) + AllAbove(changed[..applied])
        invariant files.Keys == originals.Keys + Names(changed[..applied])
        invariant forall i | 0 <= i < applied :: changed[i].name in files
                    && files[changed[i].name] == StagedFile(posix, originals, changed[i], newMode)
        invariant forall n | n in originals && n !in Names(changed[..applied]) :: files[n] == originals[n]
      {
        if fault == BeforeDirectories(applied) { return applied, false; }
        var p := changed[applied];
        NotYet(changed, applied);
        directories := directories + Above(p.name);
        if fault == BeforeReplace(applied) { return applied, false; }
        files := files[p.name := StagedFile(posix, originals, p, newMode)];
        applied := applied + 1;
        if fault == AfterReplace(applied - 1) { return applied, false; }
      }
      return applied, true;
    }

    /** Undoes the replacements in reverse order, unless it stops early itself; directories stay. */
    method Rollback(posix: bool, changed: seq<Plan>, applied: nat, originals: Files, newMode: Mode, stop: Option<nat>)
      returns (ok: bool)
      requires applied <= |changed| && DistinctNames(changed)
      requires files.Keys == originals.Keys + Names(changed[..applied])
      requires forall i | 0 <= i < applied :: changed[i].name in files
                && files[changed[i].name] == StagedFile(posix, originals, changed[i], newMode)
      requires forall n | n in originals && n !in Names(changed[..applied]) :: files[n] == originals[n]
      modifies this`files
      ensures ok <==> Finishes(stop, applied)
      ensures ok ==> files == Returned(posix, originals, Names(changed[..applied]), newMode)
      ensures !ok ==> PartlyReturned(posix, originals, files, changed, applied - stop.value, applied, newMode)
    {
      hide Names, RestoredFile, StagedFile, DistinctNames, AllAbove;
      ghost var replaced := Names(changed[..applied]);
      var left := applied;
      while left > 0
        invariant 0 <= left <= applied <= |changed|
        invariant stop.Some? ==> applied - left <= stop.value
        invariant files.Keys == originals.Keys + Names(changed[..left]) && Names(changed[..left]) <= replaced
        invariant forall i | 0 <= i < left :: changed[i].name in files
                    && files[changed[i].name] == StagedFile(posix, originals, changed[i], newMode)
        invariant forall n | n in originals && n !in Names(changed[..left]) ::
                    files[n] == Returned(posix, originals, replaced, newMode)[n]
      {
        if stop == Some(applied - left) { return false; }
        left := left - 1;
        var name := changed[left].name;
        NotYet(changed, left);
        if name in originals {
          files := files[name := RestoredFile(posix, originals[name], newMode)];
        } else {
          files := files - {name};
        }
      }
      NoNames(changed);
      return true;
    }

    /** All or nothing once the canonical files are read, and nothing at all in check mode. */
    method Sync(posix: bool, plans: seq<Plan>, check: bool, newMode: Mode, fault: Fault, stop: Option<nat>)
      returns (r: Outcome)
      requires DistinctNames(plans)
      modifies this
      ensures var drift := Drifted(posix, old(files), plans);
        if check then
          && r == (if Synced(posix, old(files), plans) then Installed([]) else Drift(NamesOf(drift)))
          && files == old(files) && directories == old(directories)
        else if !Strikes(fault, |drift|) then
          && r == Installed(NamesOf(drift)) && InSync(posix, old(files), files, plans)
          && directories == old(directories) + AllAbove(drift)
        else
          var applied := Applied(fault, |drift|);
          && r == (if Finishes(stop, applied) then RolledBack else HalfRolledBack)
          && (r.RolledBack? ==> files == Returned(posix, old(files), Names(drift[..applied]), newMode))
          && (r.HalfRolledBack? ==>
              PartlyReturned(posix, old(files), files, drift, applied - stop.value, applied, newMode))
          && directories == old(directories) + AllAbove(drift[..Attempted(fault, |drift|)])
      ensures Synced(posix, old(files), plans)
              ==> r == Installed([]) && files == old(files) && directories == old(directories)
    {
      hide Drifted, Synced, InSync, Returned, PartlyReturned, StagedFile, AllAbove, Names, DistinctNames;
      var changed := FindDrift(posix, plans);
      SyncedMeansNoDrift(posix, files, plans);
      DriftedDistinct(posix, files, plans);
      NothingToDo(posix, files, plans);
      if check {
        return if changed == [] then Installed([]) else Drift(NamesOf(changed));
      }
      if changed == [] { return Installed([]); }
      var originals := files;
      var applied, ok := Install(posix, changed, originals, newMode, fault);
      if ok {
        assert changed[..|changed|] == changed;
        InstalledIsSynced(posix, originals, files, plans, changed, newMode);
        return Installed(NamesOf(changed));
      }
      var undone := Rollback(posix, changed, applied, originals, newMode, stop);
      return if undone then RolledBack else HalfRolledBack;
    }
  }

  /** Every plan is settled, every other file is untouched, and modes keep all but the execute bit. */
  ghost predicate InSync(posix: bool, before: Files, after: Files, plans: seq<Plan>) {
    && Synced(posix, after, plans) && after.Keys == before.Keys + Names(plans)
    && (forall n | n in before && n !in NamesOf(Drifted(posix, before, plans)) :: after[n] == before[n])
    && (posix ==> forall n | n in before :: after[n].mode.rest == before[n].mode.rest)
  }

  lemma NothingToDo(posix: bool, files: Files, plans: seq<Plan>)
    requires DistinctNames(plans)
    ensures Synced(posix, files, plans) ==> InSync(posix, files, files, plans)
    ensures AllAbove([]) == {} && NamesOf([]) == []
  {
    if Synced(posix, files, plans) { AllPresent(posix, files, plans); }
  }

  /** On a host with permission bits a rollback restores everything, files and modes. */
  lemma RollbackRestores(before: Files, replaced: set<Path>, newMode: Mode)
    ensures Returned(true, before, replaced, newMode) == before
  {
  }

  /**
   * On a host without them it restores every file's bytes, and all modes exactly when none of the replaced differ from
   * a new file's.
   */
  lemma RollbackKeepsBytes(before: Files, replaced: set<Path>, newMode: Mode)
    ensures var after := Returned(false, before, replaced, newMode);
      && after.Keys == before.Keys && (forall n | n in before :: after[n].data == before[n].data)
      && (after == before <==> forall n | n in before && n in replaced :: before[n].mode == newMode)
  {
    var after := Returned(false, before, replaced, newMode);
    if after == before {
      forall n | n in before && n in replaced ensures before[n].mode == newMode { assert after[n] == before[n]; }
    }
  }

  lemma {:induction false} AllAboveOf(plans: seq<Plan>, d: Path)
    ensures d in AllAbove(plans) <==> exists i | 0 <= i < |plans| :: d in Above(plans[i].name)
  {
    if plans != [] { AllAboveOf(plans[..|plans| - 1], d); }
  }

  /** A run leaves a directory it made exactly when some attempted item's directory was absent before. */
  lemma LeavesDirectories(before: set<Path>, attempted: seq<Plan>)
    ensures before + AllAbove(attempted) != before
       <==> exists i, d | 0 <= i < |attempted| && d in Above(attempted[i].name) :: d !in before
  {
    forall d { AllAboveOf(attempted, d); }
    if i, d :| 0 <= i < |attempted| && d in Above(attempted[i].name) && d !in before {
      assert d in before + AllAbove(attempted);
    }
  }

  /** A rolled-back installation of one new file leaves the directory made for it behind. */
  method LeftoverDirectory() returns (checkout: Checkout, r: Outcome)
    ensures r == RolledBack && checkout.files == map[] && checkout.directories == {["tools"]}
  {
    hide Drifted, AllAbove, Returned, Names, Synced;
    var plan := Plan(["tools", "agent.py"], [1], false);
    checkout := new Checkout(map[], {});
    SingleDrift(plan);
    r := checkout.Sync(true, [plan], false, Mode(false, 6), AfterReplace(0), None);
    RollbackRestores(map[], Names([plan]), Mode(false, 6));
    assert [plan][..1] == [plan];
  }

  lemma SingleDrift(plan: Plan)
    requires plan.name == ["tools", "agent.py"]
    ensures Drifted(true, map[], [plan]) == [plan] && AllAbove([plan]) == {["tools"]}
  {
    assert [plan][..0] == [];
    assert Lengths(2) == {1};
    assert plan.name[..1] == ["tools"];
    assert Above(plan.name) == {["tools"]};
  }

  lemma NoNames(plans: seq<Plan>)
    ensures Names(plans[..0]) == {} && AllAbove(plans[..0]) == {}
  {
  }

  lemma NotYet(plans: seq<Plan>, i: nat)
    requires DistinctNames(plans) && i < |plans|
    ensures plans[i].name !in Names(plans[..i]) && forall j | 0 <= j < i :: plans[j].name != plans[i].name
    ensures Names(plans[..i + 1]) == Names(plans[..i]) + {plans[i].name}
    ensures AllAbove(plans[..i + 1]) == AllAbove(plans[..i]) + Above(plans[i].name)
  {
    assert plans[..i + 1] == plans[..i] + [plans[i]];
    assert plans[..i + 1][..i] == plans[..i];
  }

  lemma AllPresent(posix: bool, files: Files, plans: seq<Plan>)
    requires Synced(posix, files, plans)
    ensures files.Keys == files.Keys + Names(plans)
  {
  }

  lemma OnePlan(plans: seq<Plan>, p: Plan, q: Plan)
    requires DistinctNames(plans) && p in plans && q in plans && p.name == q.name
    ensures p == q
  {
  }

  lemma SettledApart(posix: bool, files: Files, plans: seq<Plan>, p: Plan)
    requires DistinctNames(plans) && p in plans && Settled(posix, files, p)
    ensures p.name !in Names(Drifted(posix, files, plans))
  {
    forall q | q in Drifted(posix, files, plans) ensures q.name != p.name {
      if q.name == p.name { OnePlan(plans, p, q); }
    }
  }

  /** After an installation of all drift, the changed files are as staged and the others as before. */
  ghost predicate AllReplaced(posix: bool, before: Files, after: Files, changed: seq<Plan>, newMode: Mode) {
    && after.Keys == before.Keys + Names(changed)
    && (forall i | 0 <= i < |changed| :: changed[i].name in after
          && after[changed[i].name] == StagedFile(posix, before, changed[i], newMode))
    && forall n | n in before && n !in Names(changed) :: after[n] == before[n]
  }

  lemma InstalledIsSynced(posix: bool, before: Files, after: Files, plans: seq<Plan>, changed: seq<Plan>, newMode: Mode)
    requires changed == Drifted(posix, before, plans) && DistinctNames(plans)
    requires AllReplaced(posix, before, after, changed, newMode)
    ensures InSync(posix, before, after, plans)
  {
    hide AllReplaced, Settled, Names, DistinctNames, Drifted;
    forall p | p in plans ensures Settled(posix, after, p) { PlanIsSettled(posix, before, after, plans, p, newMode); }
    InstalledKeys(posix, before, after, plans, newMode);
    forall n | n in before
      ensures n !in NamesOf(changed) ==> after[n] == before[n]
      ensures posix ==> after[n].mode.rest == before[n].mode.rest
    {
      OtherIsKept(posix, before, after, changed, n, newMode);
    }
  }

  lemma PlanIsSettled(posix: bool, before: Files, after: Files, plans: seq<Plan>, p: Plan, newMode: Mode)
    requires DistinctNames(plans) && p in plans
    requires AllReplaced(posix, before, after, Drifted(posix, before, plans), newMode)
    ensures Settled(posix, after, p)
  {
    hide DistinctNames, StagedFile;
    var changed := Drifted(posix, before, plans);
    if Settled(posix, before, p) {
      SettledApart(posix, before, plans, p);
    } else {
      var i :| 0 <= i < |changed| && changed[i] == p;
      StagedIsSettled(posix, before, p, newMode);
    }
  }

  lemma InstalledKeys(posix: bool, before: Files, after: Files, plans: seq<Plan>, newMode: Mode)
    requires AllReplaced(posix, before, after, Drifted(posix, before, plans), newMode)
    ensures after.Keys == before.Keys + Names(plans)
  {
    hide StagedFile;
    var changed := Drifted(posix, before, plans);
    forall n | n in Names(plans) ensures n in before.Keys + Names(changed) {
      var p :| p in plans && p.name == n;
      if !Settled(posix, before, p) { assert p in changed; }
    }
    forall n | n in Names(changed) ensures n in Names(plans) {
      var p :| p in changed && p.name == n;
    }
  }

  lemma OtherIsKept(posix: bool, before: Files, after: Files, changed: seq<Plan>, n: Path, newMode: Mode)
    requires AllReplaced(posix, before, after, changed, newMode) && n in before
    ensures n in after && (n !in NamesOf(changed) ==> after[n] == before[n])
    ensures posix ==> after[n].mode.rest == before[n].mode.rest
  {
    hide StagedFile;
    if n in Names(changed) {
      var q :| q in changed && q.name == n;
      var i :| 0 <= i < |changed| && changed[i] == q;
      assert NamesOf(changed)[i] == n;
      StagedIsSettled(posix, before, q, newMode);
    }
  }

  lemma StagedIsSettled(posix: bool, before: Files, p: Plan, newMode: Mode)
    ensures var f := StagedFile(posix, before, p, newMode);
      && f.data == p.data && (posix ==> f.mode.executable == p.executable)
      && (posix && p.name in before ==> f.mode.rest == before[p.name].mode.rest)
  {
  }
}
