/** Observed workflow runs: what one observation must satisfy and what a sequence of observations cannot lose. */
module CiHistory {
  import opened Text

  datatype Status = Queued | InProgress | Completed

  datatype Job = Job(id: int, name: string, status: Status, conclusion: string)
  datatype Attempt = Attempt(number: int, status: Status, conclusion: string, jobsComplete: bool, jobs: seq<Job>)
  datatype Run = Run(
    id: int, workflow: string, event: string, head: string, latestAttempt: int, attempts: seq<Attempt>)
  datatype Observation = Observation(
    repository: string, head: string, fromConnector: bool, observedAt: int, applicable: bool, policyRef: string,
    required: seq<string>, runs: seq<Run>, runsComplete: bool)

  const NEXUS := "gabned/nexus"
  const EVENTS := {
    "pull_request", "pull_request_target", "push", "merge_group", "workflow_dispatch", "workflow_run", "schedule",
    "release", "dynamic", "pull_request_review"}
  const TERMINAL := {
    "SUCCESS", "FAILURE", "CANCELLED", "TIMED_OUT", "ACTION_REQUIRED", "NEUTRAL", "SKIPPED", "STALE", "STARTUP_FAILURE"}

  // ------------------------------------------------ one observation

  predicate JobOk(j: Job) {
    j.id > 0 && IsText(j.name) && if j.status == Completed then j.conclusion in TERMINAL else j.conclusion == "NONE"
  }

  predicate JobsOk(jobs: seq<Job>) {
    && (forall k | 0 <= k < |jobs| :: JobOk(jobs[k]))
    && forall k, l | 0 <= k < l < |jobs| :: jobs[k].id != jobs[l].id
  }

  predicate AllDone(jobs: seq<Job>) { forall k | 0 <= k < |jobs| :: jobs[k].status == Completed }

  predicate Succeeded(j: Job) { j.conclusion in {"SUCCESS", "SKIPPED", "NEUTRAL"} }

  /** Attempt `i` of `count`. */
  predicate AttemptOk(a: Attempt, i: nat, count: nat) {
    && a.number == i + 1 && (i + 1 < count ==> a.status == Completed)
    && (if a.status == Completed then a.conclusion in TERMINAL else a.conclusion == "NONE")
    && a.jobsComplete && JobsOk(a.jobs)
    && (a.status == Completed ==> AllDone(a.jobs))
    && (a.conclusion == "SUCCESS" ==>
        a.jobs != [] && AllDone(a.jobs) && forall k | 0 <= k < |a.jobs| :: Succeeded(a.jobs[k]))
  }

  predicate RunOk(r: Run, head: string) {
    && r.id > 0 && r.head == head && IsText(r.workflow) && '@' !in r.workflow && r.event in EVENTS
    && (r.event == "dynamic" <==> StartsWith(r.workflow, "dynamic/"))
    && (r.event == "dynamic" ==> IsRepositoryPath(r.workflow))
    && r.latestAttempt == |r.attempts| > 0
    && forall i | 0 <= i < |r.attempts| :: AttemptOk(r.attempts[i], i, |r.attempts|)
  }

  function Key(r: Run): string { r.workflow + "@" + r.event }

  predicate UniqueRuns(runs: seq<Run>) { forall k, l | 0 <= k < l < |runs| :: runs[k].id != runs[l].id }

  predicate NamesTrigger(name: string) {
    exists i | 0 <= i < |name| :: name[i] == '@' && '@' !in name[i + 1..] && name[i + 1..] in EVENTS
  }

  /** No run of the same workflow and trigger has a larger id. */
  predicate Latest(runs: seq<Run>, r: Run) { forall s | s in runs && Key(s) == Key(r) :: s.id <= r.id }

  predicate Current(now: int, observedAt: int) { -30 <= now - observedAt <= 900 }

  predicate Passing(r: Run)
    requires r.attempts != []
  {
    r.attempts[|r.attempts| - 1].conclusion == "SUCCESS"
  }

  predicate Evidence(c: Observation, requireSuccess: bool) {
    && c.required != [] && c.runs != [] && (forall k | 0 <= k < |c.runs| :: RunOk(c.runs[k], c.head))
    && UniqueRuns(c.runs)
    && (forall name | name in c.required :: exists r | r in c.runs :: Key(r) == name)
    && (requireSuccess ==> forall r | r in c.runs && Latest(c.runs, r) :: Passing(r))
  }

  predicate Framed(c: Observation, repository: string, head: string, now: int) {
    && c.fromConnector && Current(now, c.observedAt) && c.repository == repository && c.head == head && c.runsComplete
    && IsSha(c.head) && IsSha(c.policyRef)
    && (forall name | name in c.required :: IsText(name) && NamesTrigger(name))
    && Ascending(c.required)
  }

  predicate ValidCi(c: Observation, repository: string, head: string, now: int, requireSuccess: bool) {
    && Framed(c, repository, head, now)
    && if c.applicable then Evidence(c, requireSuccess) else repository == NEXUS && c.runs == [] && c.required == []
  }

  /** The latest run of each workflow and trigger among the first ones. */
  ghost predicate IsLatestMap(latest: map<string, Run>, runs: seq<Run>) {
    && (forall r | r in runs :: Key(r) in latest)
    && forall key | key in latest :: latest[key] in runs && Key(latest[key]) == key && Latest(runs, latest[key])
  }

  lemma LatestGrows(latest: map<string, Run>, runs: seq<Run>, r: Run, grown: map<string, Run>)
    requires IsLatestMap(latest, runs)
    requires grown == if Key(r) in latest && latest[Key(r)].id >= r.id then latest else latest[Key(r) := r]
    ensures IsLatestMap(grown, runs + [r])
  {
    hide Key;
    forall key | key in grown
      ensures grown[key] in runs + [r] && Key(grown[key]) == key && Latest(runs + [r], grown[key])
    {
      if key in latest { assert Latest(runs, latest[key]); }
    }
  }

  /** The check of the run list: the map of latest runs decides exactly the stated evidence. */
  method CheckRuns(c: Observation, requireSuccess: bool) returns (ok: bool)
    requires c.required != [] && c.runs != []
    ensures ok <==> Evidence(c, requireSuccess)
  {
    hide RunOk, Key, Latest, Passing, Evidence, IsLatestMap, UniqueRuns;
    LatestStarts(c.runs);
    var ids: set<int> := {};
    var latest: map<string, Run> := map[];
    for i := 0 to |c.runs|
      invariant forall k | 0 <= k < i :: RunOk(c.runs[k], c.head) && c.runs[k].attempts != []
      invariant ids == Ids(c.runs[..i]) && UniqueRuns(c.runs[..i]) && IsLatestMap(latest, c.runs[..i])
    {
      var r := c.runs[i];
      assert c.runs[..i + 1] == c.runs[..i] + [r];
      if Evidence(c, requireSuccess) { EvidenceAt(c, requireSuccess, i); }
      if r.id in ids || !RunOk(r, c.head) { return false; }
      RunHasAttempts(r, c.head);
      IdsGrow(c.runs[..i], r);
      ids := ids + {r.id};
      ghost var before := latest;
      if Key(r) !in latest || latest[Key(r)].id < r.id { latest := latest[Key(r) := r]; }
      LatestGrows(before, c.runs[..i], r, latest);
    }
    assert c.runs[..|c.runs|] == c.runs;
    LatestDecides(c, latest, requireSuccess);
    return (forall name | name in c.required :: name in latest)
        && (requireSuccess ==> forall key | key in latest :: latest[key].attempts != [] && Passing(latest[key]));
  }

  function Ids(runs: seq<Run>): set<int> { set r | r in runs :: r.id }

  lemma IdsGrow(runs: seq<Run>, r: Run)
    ensures Ids(runs + [r]) == Ids(runs) + {r.id}
    ensures UniqueRuns(runs) && r.id !in Ids(runs) ==> UniqueRuns(runs + [r])
  {
    if UniqueRuns(runs) && r.id !in Ids(runs) {
      forall k | 0 <= k < |runs| ensures runs[k].id in Ids(runs) { assert runs[k] in runs; }
    }
  }

  lemma LatestStarts(runs: seq<Run>)
    ensures IsLatestMap(map[], runs[..0]) && UniqueRuns(runs[..0]) && Ids(runs[..0]) == {}
  {
  }

  lemma EvidenceAt(c: Observation, requireSuccess: bool, i: nat)
    requires Evidence(c, requireSuccess) && i < |c.runs|
    ensures RunOk(c.runs[i], c.head) && c.runs[i].id !in Ids(c.runs[..i])
  {
    hide RunOk, Key;
  }

  /** The whole check of one observation. */
  method ValidateCi(c: Observation, repository: string, head: string, now: int, requireSuccess: bool) returns (ok: bool)
    ensures ok <==> ValidCi(c, repository, head, now, requireSuccess)
  {
    hide Framed, RunOk, Key, Latest, Passing;
    if !Framed(c, repository, head, now) { return false; }
    if !c.applicable { return repository == NEXUS && c.runs == [] && c.required == []; }
    if c.required == [] || c.runs == [] { return false; }
    ok := CheckRuns(c, requireSuccess);
  }

  lemma RunHasAttempts(r: Run, head: string)
    requires RunOk(r, head)
    ensures r.attempts != []
  {
  }

  lemma LatestDecides(c: Observation, latest: map<string, Run>, requireSuccess: bool)
    requires c.required != [] && c.runs != [] && UniqueRuns(c.runs) && IsLatestMap(latest, c.runs)
    requires forall k | 0 <= k < |c.runs| :: RunOk(c.runs[k], c.head) && c.runs[k].attempts != []
    ensures Evidence(c, requireSuccess)
        <==> (forall name | name in c.required :: name in latest)
             && (requireSuccess ==> forall key | key in latest :: latest[key].attempts != [] && Passing(latest[key]))
  {
    hide RunOk, Key, Passing;
    forall r | r in c.runs && Latest(c.runs, r) ensures Key(r) in latest && latest[Key(r)] == r {
      var best := latest[Key(r)];
      assert Latest(c.runs, best) && best in c.runs;
      var k :| 0 <= k < |c.runs| && c.runs[k] == r;
      var l :| 0 <= l < |c.runs| && c.runs[l] == best;
      assert r.id <= best.id <= r.id;
    }
  }

  // ------------------------------------------------ one observation after another

  predicate HasJob(jobs: seq<Job>, id: int) { exists k | 0 <= k < |jobs| :: jobs[k].id == id }

  /** A job is still there, and unchanged once it has completed. */
  predicate KeepsJob(job: Job, after: seq<Job>) { HasJob(after, job.id) && (job.status == Completed ==> job in after) }

  /** A completed attempt is frozen; a live one keeps its number and its jobs. */
  predicate KeepsAttempt(before: Attempt, after: Attempt) {
    if before.status == Completed then after == before
    else after.number == before.number && forall k | 0 <= k < |before.jobs| :: KeepsJob(before.jobs[k], after.jobs)
  }

  predicate KeepsRun(before: Run, after: Run) {
    && after.id == before.id && after.workflow == before.workflow && after.event == before.event
    && |after.attempts| >= |before.attempts|
    && forall i | 0 <= i < |before.attempts| :: KeepsAttempt(before.attempts[i], after.attempts[i])
  }

  predicate Retained(before: Run, runs: seq<Run>) { exists r | r in runs :: KeepsRun(before, r) }

  predicate KeepsRuns(before: seq<Run>, after: seq<Run>) { forall r | r in before :: Retained(r, after) }

  predicate SameIdentity(p: Observation, s: Observation) {
    p.repository == s.repository && p.head == s.head && p.applicable == s.applicable && p.policyRef == s.policyRef
    && p.required == s.required
  }

  predicate AppendOnly(p: Observation, s: Observation, now: int) {
    && ValidCi(p, p.repository, p.head, p.observedAt, false) && ValidCi(s, s.repository, s.head, now, false)
    && s.observedAt >= p.observedAt && SameIdentity(p, s) && KeepsRuns(p.runs, s.runs)
  }

  /** The comparison of one live attempt with its successor, by a table of jobs. */
  method CheckJobs(before: seq<Job>, after: seq<Job>) returns (ok: bool)
    requires JobsOk(after)
    ensures ok <==> forall k | 0 <= k < |before| :: KeepsJob(before[k], after)
  {
    var jobs: map<int, Job> := map[];
    for i := 0 to |after|
      invariant forall k | 0 <= k < i :: after[k].id in jobs && jobs[after[k].id] == after[k]
      invariant forall id | id in jobs :: exists k | 0 <= k < i :: after[k] == jobs[id] && after[k].id == id
    {
      jobs := jobs[after[i].id := after[i]];
    }
    for i := 0 to |before|
      invariant forall k | 0 <= k < i :: KeepsJob(before[k], after)
    {
      var job := before[i];
      if job.id !in jobs { return false; }
      if job.status == Completed && jobs[job.id] != job {
        assert job !in after;
        return false;
      }
    }
    return true;
  }

  method CheckRun(before: Run, after: Run, head: string) returns (ok: bool)
    requires RunOk(after, head) && after.id == before.id
    ensures ok <==> KeepsRun(before, after)
  {
    hide KeepsJob;
    if after.workflow != before.workflow || after.event != before.event || |after.attempts| < |before.attempts| {
      return false;
    }
    for i := 0 to |before.attempts|
      invariant forall k | 0 <= k < i :: KeepsAttempt(before.attempts[k], after.attempts[k])
    {
      var was, now := before.attempts[i], after.attempts[i];
      assert AttemptOk(now, i, |after.attempts|);
      if was.status == Completed {
        if now != was { return false; }
      } else {
        if now.number != was.number { return false; }
        var kept := CheckJobs(was.jobs, now.jobs);
        if !kept { return false; }
      }
    }
    return true;
  }

  /** `validate_ci_append_only` on the run lists of two valid observations. */
  method CheckAppendOnly(before: seq<Run>, after: seq<Run>, head: string) returns (ok: bool)
    requires UniqueRuns(after) && forall k | 0 <= k < |after| :: RunOk(after[k], head)
    ensures ok <==> KeepsRuns(before, after)
  {
    hide KeepsRun, RunOk;
    var table: map<int, Run> := map[];
    for i := 0 to |after|
      invariant forall k | 0 <= k < i :: after[k].id in table && table[after[k].id] == after[k]
      invariant forall id | id in table :: exists k | 0 <= k < i :: after[k] == table[id] && after[k].id == id
    {
      table := table[after[i].id := after[i]];
    }
    for i := 0 to |before|
      invariant forall k | 0 <= k < i :: Retained(before[k], after)
    {
      var r := before[i];
      if r.id !in table {
        NotRetained(r, after);
        return false;
      }
      var kept := CheckRun(r, table[r.id], head);
      if !kept {
        OnlyItsOwn(r, table[r.id], after);
        return false;
      }
    }
    return true;
  }

  lemma NotRetained(r: Run, after: seq<Run>)
    requires forall k | 0 <= k < |after| :: after[k].id != r.id
    ensures !Retained(r, after)
  {
  }

  lemma OnlyItsOwn(r: Run, own: Run, after: seq<Run>)
    requires UniqueRuns(after) && own in after && own.id == r.id && !KeepsRun(r, own)
    ensures !Retained(r, after)
  {
    forall s | s in after ensures !KeepsRun(r, s) {
      if s.id == r.id {
        var k :| 0 <= k < |after| && after[k] == s;
        var l :| 0 <= l < |after| && after[l] == own;
        assert k == l;
      }
    }
  }

  // ------------------------------------------------ sequences of observations

  lemma KeepsAttemptTwice(a: Attempt, b: Attempt, c: Attempt)
    requires KeepsAttempt(a, b) && KeepsAttempt(b, c)
    ensures KeepsAttempt(a, c)
  {
    if a.status != Completed && b.status != Completed {
      forall k | 0 <= k < |a.jobs| ensures KeepsJob(a.jobs[k], c.jobs) {
        assert KeepsJob(a.jobs[k], b.jobs);
        var l :| 0 <= l < |b.jobs| && b.jobs[l].id == a.jobs[k].id;
        assert KeepsJob(b.jobs[l], c.jobs);
        if a.jobs[k].status == Completed {
          var n :| 0 <= n < |b.jobs| && b.jobs[n] == a.jobs[k];
          assert KeepsJob(b.jobs[n], c.jobs);
        }
      }
    }
  }

  lemma KeepsRunTwice(a: Run, b: Run, c: Run)
    requires KeepsRun(a, b) && KeepsRun(b, c)
    ensures KeepsRun(a, c)
  {
    hide KeepsAttempt;
    forall i | 0 <= i < |a.attempts| ensures KeepsAttempt(a.attempts[i], c.attempts[i]) {
      KeepsAttemptTwice(a.attempts[i], b.attempts[i], c.attempts[i]);
    }
  }

  lemma KeepsRunsTwice(a: seq<Run>, b: seq<Run>, c: seq<Run>)
    requires KeepsRuns(a, b) && KeepsRuns(b, c)
    ensures KeepsRuns(a, c)
  {
    hide KeepsRun;
    forall r | r in a ensures Retained(r, c) {
      assert Retained(r, b);
      var s :| s in b && KeepsRun(r, s);
      assert Retained(s, c);
      var t :| t in c && KeepsRun(s, t);
      KeepsRunTwice(r, s, t);
    }
  }

  /** Each observation was accepted as the successor of the one before it, at its own time. */
  predicate Accepted(trace: seq<Observation>, times: seq<int>) {
    |times| == |trace| && forall i | 0 < i < |trace| :: AppendOnly(trace[i - 1], trace[i], times[i])
  }

  /** Nothing that was ever observed is lost or rewritten later, however many observations lie between. */
  lemma {:induction false} HistoryIsKept(trace: seq<Observation>, times: seq<int>, i: nat, j: nat)
    requires Accepted(trace, times) && i < j < |trace|
    ensures SameIdentity(trace[i], trace[j]) && trace[i].observedAt <= trace[j].observedAt
    ensures KeepsRuns(trace[i].runs, trace[j].runs)
    decreases j
  {
    hide KeepsRuns, ValidCi;
    assert AppendOnly(trace[j - 1], trace[j], times[j]);
    if i < j - 1 {
      HistoryIsKept(trace, times, i, j - 1);
      KeepsRunsTwice(trace[i].runs, trace[j - 1].runs, trace[j].runs);
    }
  }

  /** In particular a completed attempt and a completed job stay what they were. */
  lemma CompletedStays(trace: seq<Observation>, times: seq<int>, i: nat, j: nat, r: Run, n: nat) returns (s: Run)
    requires Accepted(trace, times) && i < j < |trace| && r in trace[i].runs && n < |r.attempts|
    ensures s in trace[j].runs && s.id == r.id && Key(s) == Key(r) && n < |s.attempts|
    ensures r.attempts[n].status == Completed ==> s.attempts[n] == r.attempts[n]
    ensures forall job | job in r.attempts[n].jobs && job.status == Completed :: job in s.attempts[n].jobs
    ensures forall job | job in r.attempts[n].jobs :: HasJob(s.attempts[n].jobs, job.id)
  {
    hide ValidCi;
    HistoryIsKept(trace, times, i, j);
    assert Retained(r, trace[j].runs);
    s :| s in trace[j].runs && KeepsRun(r, s);
    assert KeepsAttempt(r.attempts[n], s.attempts[n]);
    forall job | job in r.attempts[n].jobs
      ensures HasJob(s.attempts[n].jobs, job.id) && (job.status == Completed ==> job in s.attempts[n].jobs)
    {
      var k :| 0 <= k < |r.attempts[n].jobs| && r.attempts[n].jobs[k] == job;
      assert r.attempts[n].status != Completed ==> KeepsJob(r.attempts[n].jobs[k], s.attempts[n].jobs);
    }
  }

  // ------------------------------------------------ the merge on the default branch

  datatype Commit = Commit(sha: string, tree: string, parents: seq<string>)

  datatype Method = Squash | Merge
  datatype MergeEvidence = MergeEvidence(
    fromConnector: bool, observedAt: int, merged: bool, closed: bool, sha: string, strategy: Method, commit: Commit,
    defaultSha: string, ancestry: seq<Commit>)

  /** The accepted content: base, head and tree of the pull request. */
  datatype Content = Content(base: string, head: string, tree: string)

  predicate FollowsFirstParent(chain: seq<Commit>, i: nat)
    requires i + 1 < |chain|
  {
    chain[i].parents != [] && chain[i + 1].sha == chain[i].parents[0]
  }

  predicate ExactCommit(c: Commit) { IsSha(c.sha) && IsSha(c.tree) && forall p | p in c.parents :: IsSha(p) }

  /** The first-parent walk from the default branch that ends at the merge commit and never repeats. */
  predicate FirstParentWalk(m: MergeEvidence) {
    var chain := m.ancestry;
    && chain != [] && chain[0].sha == m.defaultSha && chain[|chain| - 1] == m.commit
    && (forall i | 0 <= i < |chain| :: ExactCommit(chain[i]))
    && (forall i | 0 <= i < |chain| - 1 :: FollowsFirstParent(chain, i))
    && forall i, j | 0 <= i < j < |chain| :: chain[i].sha != chain[j].sha
  }

  predicate BindsContent(m: MergeEvidence, accepted: Content, now: int) {
    && m.fromConnector && Current(now, m.observedAt) && IsSha(m.sha) && IsSha(m.defaultSha)
    && m.merged && m.closed && m.commit.sha == m.sha && m.commit.tree == accepted.tree
    && m.commit.parents == if m.strategy == Squash then [accepted.base] else [accepted.base, accepted.head]
  }

  /** `validate_merge`: the ancestry loop accepts exactly the first-parent walks to the merge. */
  method ValidateMerge(m: MergeEvidence, accepted: Content, now: int) returns (ok: bool)
    ensures ok <==> BindsContent(m, accepted, now) && FirstParentWalk(m)
  {
    hide FirstParentWalk, WalkSoFar, IsSha, ExactCommit;
    if !BindsContent(m, accepted, now) { return false; }
    var chain := m.ancestry;
    var expected := m.defaultSha;
    var seen: set<string> := {};
    WalkStarts(m);
    for i := 0 to |chain|
      invariant WalkSoFar(m, i, expected, seen)
    {
      var item := chain[i];
      if FirstParentWalk(m) { WalkStep(m, i, expected, seen); }
      if !ExactCommit(item) || item.sha != expected || item.sha in seen { return false; }
      if item.sha == m.sha {
        if item != m.commit || item != chain[|chain| - 1] { return false; }
        WalkGrows(m, i, expected, seen, expected);
      } else {
        if item.parents == [] { return false; }
        WalkGrows(m, i, expected, seen, item.parents[0]);
        expected := item.parents[0];
      }
      seen := seen + {item.sha};
    }
    WalkDone(m, expected, seen);
    return chain != [] && chain[|chain| - 1] == m.commit;
  }

  /** What the loop leaves behind a commit it accepted. */
  predicate StepOk(m: MergeEvidence, item: Commit, expected: string) {
    if item.sha == m.sha then item == m.commit && expected == item.sha
    else item.parents != [] && expected == item.parents[0]
  }

  /** What the loop knows after `i` commits. */
  ghost predicate WalkSoFar(m: MergeEvidence, i: nat, expected: string, seen: set<string>)
    requires i <= |m.ancestry|
  {
    var chain := m.ancestry;
    && (forall k | 0 <= k < i :: chain[k].sha in seen && ExactCommit(chain[k]))
    && (forall s | s in seen :: exists k | 0 <= k < i :: chain[k].sha == s)
    && (forall k, l | 0 <= k < l < i :: chain[k].sha != chain[l].sha)
    && (forall k | 0 <= k < i - 1 :: FollowsFirstParent(chain, k))
    && (if i == 0 then expected == m.defaultSha else chain[0].sha == m.defaultSha && StepOk(m, chain[i - 1], expected))
  }

  lemma WalkStarts(m: MergeEvidence)
    ensures WalkSoFar(m, 0, m.defaultSha, {})
  {
  }

  lemma WalkGrows(m: MergeEvidence, i: nat, expected: string, seen: set<string>, next: string)
    requires i < |m.ancestry| && WalkSoFar(m, i, expected, seen)
    requires ExactCommit(m.ancestry[i]) && m.ancestry[i].sha == expected && m.ancestry[i].sha !in seen
    requires StepOk(m, m.ancestry[i], next)
    ensures WalkSoFar(m, i + 1, next, seen + {m.ancestry[i].sha})
  {
    if i > 0 {
      assert m.ancestry[i - 1].sha in seen;
      assert FollowsFirstParent(m.ancestry, i - 1);
    }
  }

  lemma WalkDone(m: MergeEvidence, expected: string, seen: set<string>)
    requires WalkSoFar(m, |m.ancestry|, expected, seen)
    ensures FirstParentWalk(m) <==> m.ancestry != [] && m.ancestry[|m.ancestry| - 1] == m.commit
  {
  }

  lemma WalkStep(m: MergeEvidence, i: nat, expected: string, seen: set<string>)
    requires FirstParentWalk(m) && i < |m.ancestry| && m.commit.sha == m.sha && WalkSoFar(m, i, expected, seen)
    ensures ExactCommit(m.ancestry[i]) && m.ancestry[i].sha == expected && m.ancestry[i].sha !in seen
    ensures
      var item := m.ancestry[i];
      if item.sha == m.sha then item == m.commit == m.ancestry[|m.ancestry| - 1] else item.parents != []
  {
    if i > 0 {
      assert FollowsFirstParent(m.ancestry, i - 1);
      assert m.ancestry[i - 1].sha != m.ancestry[|m.ancestry| - 1].sha;
    }
    if i < |m.ancestry| - 1 { assert FollowsFirstParent(m.ancestry, i); }
  }
}
