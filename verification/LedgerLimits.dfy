/** Where the ledger's bounds end: exact conditions, and runs from the empty ledger that pass them. */
module LedgerLimits {
  import opened Prelude
  import opened Ledger
  import opened LedgerRun
  import LedgerTheorems

  // ---------- attempts ----------

  predicate AttemptsBounded(s: State) { forall id :: id in s.jobs ==> s.jobs[id].attempts <= s.jobs[id].maxAttempts }

  /** A claim of a running job that has used up its attempts: the expired lease alone decides. */
  predicate Overclaims(s: State, step: Step) {
    step.Claim? && exists id ::
      id in step.jobs && id in s.jobs && s.jobs[id].status.Running? && s.jobs[id].attempts >= s.jobs[id].maxAttempts
  }

  lemma ClaimsOfJob(s: State, grants: map<JobId, Token>, owner: string, duration: int, limit: nat, now: int, id: JobId)
    requires MayClaim(s, grants, limit, now) && id in s.jobs && s.jobs[id].attempts <= s.jobs[id].maxAttempts
    ensures var row := ClaimJobs(s, grants, owner, duration, now).jobs[id];
      row.attempts > row.maxAttempts <==> id in grants && s.jobs[id].status.Running? && s.jobs[id].attempts == s.jobs[id].maxAttempts
  {
    assert id in grants ==> Claimable(s, id, now);
  }

  predicate SameCount(a: Job, b: Job) { a.attempts == b.attempts && a.maxAttempts == b.maxAttempts }

  lemma FinishWritesOneJob(s: State, job: JobId, token: Token, attempt: nat, outcome: Outcome, scan: Option<Scan>, at: int)
    ensures Finish(s, job, token, attempt, outcome, scan, at).jobs == LandCompletion(s, job, token, outcome, at).jobs
  {
    hide LandCompletion, Advanced;
  }

  lemma FinishKeepsCounts(s: State, job: JobId, token: Token, attempt: nat, outcome: Outcome, scan: Option<Scan>, at: int, id: JobId)
    requires id in Finish(s, job, token, attempt, outcome, scan, at).jobs
    ensures id in s.jobs && SameCount(Finish(s, job, token, attempt, outcome, scan, at).jobs[id], s.jobs[id])
  {
    FinishWritesOneJob(s, job, token, attempt, outcome, scan, at);
    hide Finish, Released;
  }

  lemma MaintainKeepsCounts(s: State, sweep: Sweep, now: int, id: JobId)
    requires id in Maintain(s, sweep, now).jobs
    ensures id in s.jobs && SameCount(Maintain(s, sweep, now).jobs[id], s.jobs[id])
  {
    hide CutLeases;
  }

  predicate WritesNoJob(step: Step) { step.Register? || step.Switch? || step.Dispatch? || step.Record? }

  lemma KeepsJobs(s: State, step: Step)
    requires WritesNoJob(step)
    ensures Next(s, step).jobs == s.jobs
  {
    hide Finish, Maintain, ClaimJobs, RenewLease, EnsureJob;
  }

  lemma EnqueueKeepsCounts(s: State, due: DueSite, token: Token, maxAttempts: nat, now: int, id: JobId)
    requires id in EnsureJob(s, due, token, maxAttempts, now).jobs
    ensures var row := EnsureJob(s, due, token, maxAttempts, now).jobs[id]; row.attempts == 0 || (id in s.jobs && row == s.jobs[id])
  {
  }

  lemma RenewKeepsCounts(s: State, job: JobId, token: Token, owner: string, duration: int, now: int, id: JobId)
    requires id in RenewLease(s, job, token, owner, duration, now).jobs
    ensures id in s.jobs && SameCount(RenewLease(s, job, token, owner, duration, now).jobs[id], s.jobs[id])
  {
  }

  /** No other statement raises the count. */
  lemma OnlyClaimsCount(s: State, step: Step, id: JobId)
    requires !step.Claim? && id in Next(s, step).jobs
    ensures var row := Next(s, step).jobs[id]; row.attempts == 0 || (id in s.jobs && SameCount(row, s.jobs[id]))
  {
    hide Finish, Maintain, ClaimJobs, ClaimDueSites, RenewLease, EnsureSite, SetSiteStatus, EnsureJob, RecordRun;
    if WritesNoJob(step) { KeepsJobs(s, step); }
    match step
    case Complete(job, token, attempt, outcome, scan, now) => FinishKeepsCounts(s, job, token, attempt, outcome, scan, now, id);
    case Sweeping(sweep, _, _, now) => MaintainKeepsCounts(s, sweep, now, id);
    case Renew(job, token, owner, duration, now) => RenewKeepsCounts(s, job, token, owner, duration, now, id);
    case Enqueue(token, maxAttempts, now) =>
      if token in s.dispatched { EnqueueKeepsCounts(s, s.dispatched[token], token, maxAttempts, now, id); }
    case _ =>
  }

  /** A step passes the attempt bound if and only if it claims a running job that has reached it. */
  lemma BoundBreaksOnReclaims(s: State, step: Step)
    requires Allowed(s, step) && AttemptsBounded(s)
    ensures AttemptsBounded(Next(s, step)) <==> !Overclaims(s, step)
  {
    if step.Claim? {
      var jobs := ClaimJobs(s, step.jobs, step.owner, step.duration, step.now).jobs;
      assert Next(s, step).jobs == jobs && jobs.Keys == s.jobs.Keys;
      forall id | id in s.jobs
        ensures jobs[id].attempts > jobs[id].maxAttempts <==>
          id in step.jobs && s.jobs[id].status.Running? && s.jobs[id].attempts >= s.jobs[id].maxAttempts
      {
        ClaimsOfJob(s, step.jobs, step.owner, step.duration, step.limit, step.now, id);
      }
      hide Next, ClaimJobs, Allowed;
    } else {
      forall id | id in Next(s, step).jobs ensures Next(s, step).jobs[id].attempts <= Next(s, step).jobs[id].maxAttempts {
        OnlyClaimsCount(s, step, id);
      }
    }
  }

  /** Over a run: no claim of a running job at its bound, or at some point one. */
  ghost predicate NeverOverclaims(s: State, steps: seq<Step>)
    decreases steps
  {
    steps == [] || (!Overclaims(s, steps[0]) && NeverOverclaims(Next(s, steps[0]), steps[1..]))
  }

  ghost predicate AlwaysBounded(s: State, steps: seq<Step>)
    decreases steps
  {
    AttemptsBounded(s) && (steps == [] || AlwaysBounded(Next(s, steps[0]), steps[1..]))
  }

  /** Attempts stay bounded throughout a run if and only if no step claims a running job that has reached its bound. */
  lemma {:induction false} AttemptsBoundedWithoutReclaims(s: State, steps: seq<Step>)
    requires Legal(s, steps) && AttemptsBounded(s)
    ensures AlwaysBounded(s, steps) <==> NeverOverclaims(s, steps)
    decreases steps
  {
    if steps != [] {
      hide Next, AttemptsBounded, Overclaims, Allowed;
      BoundBreaksOnReclaims(s, steps[0]);
      if !Overclaims(s, steps[0]) {
        AttemptsBoundedWithoutReclaims(Next(s, steps[0]), steps[1..]);
      } else {
        NotBounded(Next(s, steps[0]), steps[1..]);
      }
    }
  }

  lemma NotBounded(s: State, steps: seq<Step>)
    requires !AttemptsBounded(s)
    ensures !AlwaysBounded(s, steps)
  {
  }

  // ---------- runs from the empty ledger ----------

  /** A legal run grows by a legal step. */
  lemma {:induction false} Extended(s: State, steps: seq<Step>, step: Step)
    requires Legal(s, steps) && Allowed(After(s, steps), step) && !Repeats(After(s, steps), step)
    ensures Legal(s, steps + [step]) && After(s, steps + [step]) == Next(After(s, steps), step)
    decreases steps
  {
    hide Next, Allowed, Repeats;
    if steps == [] {
      assert [] + [step] == [step] && [step][1..] == [];
      assert Legal(Next(s, step), []) && After(Next(s, step), []) == Next(s, step);
    } else {
      assert (steps + [step])[1..] == steps[1..] + [step];
      Extended(Next(s, steps[0]), steps[1..], step);
    }
  }

  lemma OneGrant<K>(k: K, token: Token)
    ensures |map[k := token]| == 1 && map[k := token].Values == {token}
  {
    var grants := map[k := token];
    assert grants.Keys == {k};
    assert grants[k] == token && k in grants;
  }

  lemma OneDispatchRecord(sites: map<SiteId, Site>, id: SiteId, token: Token)
    requires id in sites
    ensures DispatchRecords(sites, map[id := token]) == map[token := DueSiteOf(id, sites[id])]
  {
    OneGrant(id, token);
    var grants := map[id := token];
    assert id in grants && grants[id] == token;
  }

  /** Dispatching one due site. */
  lemma DispatchOne(s: State, id: SiteId, token: Token, now: int)
    requires id in s.sites && Due(s.sites[id], now) && token !in s.dispatched && token !in s.leases
    ensures Allowed(s, Dispatch(map[id := token], "d", 10, 1, now))
    ensures Next(s, Dispatch(map[id := token], "d", 10, 1, now))
         == s.(sites := s.sites[id := Dispatched(s.sites[id], token, "d", now + 10, now)],
               dispatched := s.dispatched[token := DueSiteOf(id, s.sites[id])], clock := Max(s.clock, now))
  {
    MayDispatchOne(s, id, token, now);
    DispatchesOne(s, id, token, now);
    hide MayDispatch, ClaimDueSites, Due, EnsureSite, SetSiteStatus, EnsureJob, ClaimJobs, RenewLease, Finish, RecordRun, Maintain,
      Dispatched, DueSiteOf;
  }

  lemma MayDispatchOne(s: State, id: SiteId, token: Token, now: int)
    requires id in s.sites && Due(s.sites[id], now) && token !in s.dispatched && token !in s.leases
    ensures MayDispatch(s, map[id := token], 1, now)
  {
    OneGrant(id, token);
    hide Due;
  }

  lemma DispatchesOne(s: State, id: SiteId, token: Token, now: int)
    requires id in s.sites
    ensures ClaimDueSites(s, map[id := token], "d", 10, now)
         == s.(sites := s.sites[id := Dispatched(s.sites[id], token, "d", now + 10, now)],
               dispatched := s.dispatched[token := DueSiteOf(id, s.sites[id])])
  {
    OneDispatchRecord(s.sites, id, token);
    hide DispatchRecords, Dispatched, DueSiteOf;
    var grants := map[id := token];
    assert DispatchedRows(s.sites, grants, "d", now + 10, now) == s.sites[id := Dispatched(s.sites[id], token, "d", now + 10, now)];
    assert s.dispatched + map[token := DueSiteOf(id, s.sites[id])] == s.dispatched[token := DueSiteOf(id, s.sites[id])];
  }

  lemma OneLeaseRecord(id: JobId, token: Token, from: int, until: int)
    ensures LeaseRecords(map[id := token], from, until) == map[token := Lease(id, from, until)]
  {
    OneGrant(id, token);
    var grants := map[id := token];
    assert id in grants && grants[id] == token;
  }

  /** Claiming one claimable job. */
  lemma ClaimOne(s: State, id: JobId, token: Token, duration: int, now: int)
    requires Claimable(s, id, now) && token !in s.dispatched && token !in s.leases && duration > 0
    ensures Allowed(s, Claim(map[id := token], "w", duration, 1, now))
    ensures Next(s, Claim(map[id := token], "w", duration, 1, now))
         == s.(jobs := s.jobs[id := Claimed(s.jobs[id], token, "w", now + duration, now)],
               leases := s.leases[token := Lease(id, now, now + duration)], clock := Max(s.clock, now))
  {
    MayClaimOne(s, id, token, now);
    ClaimsOne(s, id, token, duration, now);
    hide MayClaim, ClaimJobs, ClaimDueSites, EnsureSite, SetSiteStatus, EnsureJob, RenewLease, Finish, RecordRun, Maintain, Claimed;
  }

  lemma MayClaimOne(s: State, id: JobId, token: Token, now: int)
    requires Claimable(s, id, now) && token !in s.dispatched && token !in s.leases
    ensures MayClaim(s, map[id := token], 1, now)
  {
    OneGrant(id, token);
    hide Claimable;
  }

  lemma ClaimsOne(s: State, id: JobId, token: Token, duration: int, now: int)
    requires id in s.jobs
    ensures ClaimJobs(s, map[id := token], "w", duration, now)
         == s.(jobs := s.jobs[id := Claimed(s.jobs[id], token, "w", now + duration, now)],
               leases := s.leases[token := Lease(id, now, now + duration)])
  {
    OneLeaseRecord(id, token, now, now + duration);
    hide LeaseRecords, Claimed;
    var grants := map[id := token];
    assert ClaimedRows(s.jobs, grants, "w", now + duration, now) == s.jobs[id := Claimed(s.jobs[id], token, "w", now + duration, now)];
    assert s.leases + map[token := Lease(id, now, now + duration)] == s.leases[token := Lease(id, now, now + duration)];
  }

  ghost predicate RunsTo(start: State, steps: seq<Step>, s: State) { Legal(start, steps) && After(start, steps) == s }

  lemma Then(start: State, steps: seq<Step>, s: State, step: Step)
    requires RunsTo(start, steps, s) && Allowed(s, step) && !Repeats(s, step)
    ensures RunsTo(start, steps + [step], Next(s, step))
  {
    hide Next, Allowed, Repeats;
    Extended(start, steps, step);
  }

  function SlotOf(site: Site): JobId { JobId("a", site.nextCheck, site.version) }

  /** The next check of the site is due, and its tokens are new. */
  predicate ReadyFor(s: State, d: Token, w: Token, now: int) {
    && "a" in s.sites && Due(s.sites["a"], now) && SlotOf(s.sites["a"]) !in s.jobs
    && d != w && d !in s.dispatched && d !in s.leases && w !in s.dispatched && w !in s.leases
  }

  function AfterDispatch(s: State, d: Token, now: int): State
    requires "a" in s.sites
  {
    s.(sites := s.sites["a" := Dispatched(s.sites["a"], d, "d", now + 10, now)],
       dispatched := s.dispatched[d := DueSiteOf("a", s.sites["a"])], clock := Max(s.clock, now))
  }

  function AfterEnqueue(s: State, maxAttempts: nat, now: int): State
    requires "a" in s.sites
  {
    s.(jobs := s.jobs[SlotOf(s.sites["a"]) := NewJob(s.sites["a"], maxAttempts, now)])
  }

  function AfterClaim(s: State, id: JobId, w: Token, duration: int, now: int): State
    requires id in s.jobs
  {
    s.(jobs := s.jobs[id := Claimed(s.jobs[id], w, "w", now + duration, now)],
       leases := s.leases[w := Lease(id, now, now + duration)], clock := Max(s.clock, now))
  }

  /** Dispatched, enqueued and claimed at one instant. */
  function AfterCycle(s: State, d: Token, w: Token, maxAttempts: nat, duration: int, now: int): State
    requires "a" in s.sites
  {
    AfterClaim(AfterEnqueue(AfterDispatch(s, d, now), maxAttempts, now), SlotOf(s.sites["a"]), w, duration, now)
  }

  lemma EnqueueOne(s: State, d: Token, maxAttempts: nat, now: int)
    requires "a" in s.sites && Dispatches(s.sites["a"], d) && SlotOf(s.sites["a"]) !in s.jobs && now <= s.clock
    requires d in s.dispatched && s.dispatched[d] == DueSiteOf("a", s.sites["a"]) && maxAttempts > 0
    ensures Allowed(s, Enqueue(d, maxAttempts, now)) && Next(s, Enqueue(d, maxAttempts, now)) == AfterEnqueue(s, maxAttempts, now)
  {
    hide NewJob, ClaimJobs, ClaimDueSites, EnsureSite, SetSiteStatus, RenewLease, Finish, RecordRun, Maintain;
  }

  lemma OpensSlot(start: State, steps: seq<Step>, s: State, d: Token, w: Token, maxAttempts: nat, now: int)
    returns (more: seq<Step>)
    requires RunsTo(start, steps, s) && ReadyFor(s, d, w, now) && maxAttempts > 0
    ensures RunsTo(start, more, AfterEnqueue(AfterDispatch(s, d, now), maxAttempts, now))
  {
    var s1 := AfterDispatch(s, d, now);
    var dispatch, enqueue := Dispatch(map["a" := d], "d", 10, 1, now), Enqueue(d, maxAttempts, now);
    DispatchOne(s, "a", d, now);
    EnqueueOne(s1, d, maxAttempts, now);
    hide Next, Allowed, RunsTo;
    Then(start, steps, s, dispatch);
    Then(start, steps + [dispatch], s1, enqueue);
    more := steps + [dispatch] + [enqueue];
  }

  lemma Cycle(start: State, steps: seq<Step>, s: State, d: Token, w: Token, maxAttempts: nat, duration: int, now: int)
    returns (more: seq<Step>)
    requires RunsTo(start, steps, s) && ReadyFor(s, d, w, now) && maxAttempts > 0 && duration > 0
    ensures RunsTo(start, more, AfterCycle(s, d, w, maxAttempts, duration, now))
  {
    var slot, open := SlotOf(s.sites["a"]), AfterEnqueue(AfterDispatch(s, d, now), maxAttempts, now);
    var claim := Claim(map[slot := w], "w", duration, 1, now);
    more := OpensSlot(start, steps, s, d, w, maxAttempts, now);
    assert Claimable(open, slot, now);
    hide Next, Allowed, RunsTo, Claimable;
    ClaimOne(open, slot, w, duration, now);
    Then(start, more, open, claim);
    more := more + [claim];
  }

  function Registered(): State { State(map["a" := NewSite("h", None, 0)], map[], map[], map[], map[], map[], 0) }

  lemma Registers()
    ensures RunsTo(EmptyState(), [Register("a", "h", None, 0)], Registered())
  {
    var register := Register("a", "h", None, 0);
    assert Next(EmptyState(), register) == Registered();
    assert RunsTo(EmptyState(), [], EmptyState());
    hide Next, RunsTo;
    Then(EmptyState(), [], EmptyState(), register);
    assert [] + [register] == [register];
  }

  const SLOT := JobId("a", 0, 1)

  /** Claimed for an instant at 0, and again at 5 by the holder of token 3. */
  function Reclaimed(maxAttempts: nat): State {
    AfterClaim(AfterCycle(Registered(), 1, 2, maxAttempts, 1, 0), SLOT, 3, 100, 5)
  }

  lemma Reclaims(maxAttempts: nat) returns (steps: seq<Step>)
    requires maxAttempts > 0
    ensures RunsTo(EmptyState(), steps, Reclaimed(maxAttempts))
  {
    Registers();
    var s := AfterCycle(Registered(), 1, 2, maxAttempts, 1, 0);
    var again := Claim(map[SLOT := 3], "w", 100, 1, 5);
    assert ReadyFor(Registered(), 1, 2, 0);
    steps := Cycle(EmptyState(), [Register("a", "h", None, 0)], Registered(), 1, 2, maxAttempts, 1, 0);
    assert Claimable(s, SLOT, 5);
    ClaimOne(s, SLOT, 3, 100, 5);
    hide Next, RunsTo, Allowed, Claimable;
    Then(EmptyState(), steps, s, again);
    steps := steps + [again];
  }

  /** The job of SLOT was claimed `n` times and may be claimed again; tokens from `token` on are new. */
  ghost predicate Expires(s: State, n: nat, maxAttempts: nat, token: Token, now: int) {
    && Claimable(s, SLOT, now) && s.jobs[SLOT].attempts == n && s.jobs[SLOT].maxAttempts == maxAttempts
    && forall t :: t in s.dispatched || t in s.leases ==> t < token
  }

  /** Claimed for an instant, it may be claimed at the next one. */
  lemma ExpiresAgain(s: State, n: nat, maxAttempts: nat, token: Token, now: int)
    requires Expires(s, n, maxAttempts, token, now)
    ensures var claim := Claim(map[SLOT := token], "w", 1, 1, now);
      Allowed(s, claim) && !Repeats(s, claim) && Expires(Next(s, claim), n + 1, maxAttempts, token + 1, now + 1)
  {
    ClaimOne(s, SLOT, token, 1, now);
    hide Next, Allowed;
  }

  lemma {:induction false} ExpiresOn(steps: seq<Step>, s: State, n: nat, maxAttempts: nat, token: Token, now: int, goal: nat)
    returns (more: seq<Step>)
    requires RunsTo(EmptyState(), steps, s) && Expires(s, n, maxAttempts, token, now) && n <= goal
    ensures Legal(EmptyState(), more)
    ensures var t := After(EmptyState(), more); SLOT in t.jobs && t.jobs[SLOT].attempts == goal && t.jobs[SLOT].maxAttempts == maxAttempts
    decreases goal - n
  {
    more := steps;
    if n < goal {
      var claim := Claim(map[SLOT := token], "w", 1, 1, now);
      ExpiresAgain(s, n, maxAttempts, token, now);
      hide Next, Allowed, Repeats, RunsTo, Expires;
      Then(EmptyState(), steps, s, claim);
      more := ExpiresOn(steps + [claim], Next(s, claim), n + 1, maxAttempts, token + 1, now + 1, goal);
    }
  }

  lemma ReclaimedExpires(maxAttempts: nat)
    requires maxAttempts > 0
    ensures Expires(Reclaimed(maxAttempts), 2, maxAttempts, 4, 105)
  {
  }

  /** For every bound, and every number of attempts beyond it, a legal run from the empty ledger that gets there. */
  lemma AttemptsPassTheirBound(maxAttempts: nat, attempts: nat) returns (steps: seq<Step>)
    requires 0 < maxAttempts < attempts
    ensures Legal(EmptyState(), steps) && !AttemptsBounded(After(EmptyState(), steps))
    ensures var t := After(EmptyState(), steps); SLOT in t.jobs && t.jobs[SLOT].attempts == attempts && t.jobs[SLOT].maxAttempts == maxAttempts
  {
    steps := Reclaims(maxAttempts);
    ReclaimedExpires(maxAttempts);
    hide Reclaimed, Expires, RunsTo;
    steps := ExpiresOn(steps, Reclaimed(maxAttempts), 2, maxAttempts, 4, 105, attempts);
  }

  // ---------- two completions at one instant ----------

  /** The lease of token 3 succeeds at 10. */
  function Succeeded(): State { Finish(Reclaimed(5), SLOT, 3, 2, Success(20), None, 10).(clock := 10) }

  /** The job of time 20 is then started by token 5. */
  function Restarted(): State { AfterCycle(Succeeded(), 4, 5, 5, 100, 20) }

  function Stale(): Step { Complete(SLOT, 2, 1, Success(30), None, 10) }

  lemma Completes(maxAttempts: nat)
    requires maxAttempts > 0
    ensures var s := Reclaimed(maxAttempts); var done := Finish(s, SLOT, 3, 2, Success(20), None, 10);
      && Holds(s, SLOT, 3) && s.jobs[SLOT].finishedAt.None? && s.clock == 5
      && done.jobs == map[SLOT := Finished(s.jobs[SLOT], Success(20), 10)]
      && done.sites == map["a" := Advanced(s.sites["a"], SLOT, s.jobs[SLOT], 2, Success(20), None, 10)]
      && done.scans == map[] && done.dispatched.Keys == {1} && done.leases.Keys == {2, 3}
  {
  }

  lemma SuccessLands()
    ensures var s, complete := Reclaimed(5), Complete(SLOT, 3, 2, Success(20), None, 10);
      Allowed(s, complete) && !Repeats(s, complete) && Next(s, complete) == Succeeded() && ReadyFor(Succeeded(), 4, 5, 20)
  {
    Completes(5);
    hide Finish, Reclaimed, EnsureSite, SetSiteStatus, ClaimDueSites, EnsureJob, ClaimJobs, RenewLease, RecordRun, Maintain;
  }

  /** Register, claim, lose the lease, succeed by the second claim, and start the next job. */
  lemma Restarts() returns (steps: seq<Step>)
    ensures RunsTo(EmptyState(), steps, Restarted())
  {
    var s, done := Reclaimed(5), Succeeded();
    var complete := Complete(SLOT, 3, 2, Success(20), None, 10);
    steps := Reclaims(5);
    SuccessLands();
    hide Next, Allowed, Repeats, RunsTo, Finish, ReadyFor, Reclaimed;
    Then(EmptyState(), steps, s, complete);
    steps := Cycle(EmptyState(), steps + [complete], done, 4, 5, 5, 100, 20);
  }

  ghost function Broken(): State { Next(Restarted(), Stale()) }

  lemma RestartedIs()
    ensures var s := Restarted(); var b := JobId("a", 20, 1);
      && s.jobs.Keys == {SLOT, b} && s.jobs[SLOT].status.Succeeded? && s.jobs[SLOT].finishedAt == Some(10)
      && s.jobs[b].status.Running? && s.jobs[b].lease.Some? && s.jobs[b].lease.value.expires == 120
      && s.sites.Keys == {"a"} && s.sites["a"].status.Active? && s.sites["a"].version == 1
      && s.scans == map[] && s.dispatched.Keys == {1, 4} && s.leases.Keys == {2, 3, 5} && s.clock == 20
  {
    Completes(5);
  }

  /** The stale success at 10 moves the next check to 30, under the running job of time 20. */
  lemma StaleSuccessLands()
    ensures var s := Restarted();
      && Allowed(s, Stale()) && Repeats(s, Stale()) && !Holds(s, SLOT, 2)
      && Broken() == s.(sites := s.sites["a" := Advanced(s.sites["a"], SLOT, s.jobs[SLOT], 1, Success(30), None, 10)])
      && ReadyFor(Broken(), 6, 7, 30)
  {
    RestartedIs();
    hide Restarted, Succeeded, EnsureSite, SetSiteStatus, ClaimDueSites, EnsureJob, ClaimJobs, RenewLease, RecordRun, Maintain;
  }

  lemma BrokenIs()
    ensures Broken() == Next(Restarted(), Stale()) && Stale().job == SLOT && Stale().token == 2
  {
  }

  lemma TwoRun()
    ensures var t := AfterCycle(Broken(), 6, 7, 5, 100, 30); var a, b := JobId("a", 20, 1), JobId("a", 30, 1);
      && LedgerTheorems.Current(t, a) && LedgerTheorems.Current(t, b)
      && LedgerTheorems.UnexpiredLease(t, a, 31) && LedgerTheorems.UnexpiredLease(t, b, 31)
  {
    RestartedIs();
    StaleSuccessLands();
    hide Restarted, Broken;
  }

  /**
   Without distinct finish instants the ledger's promise fails: a run, legal but for one stale
   completion that repeats the winner's instant, in which two jobs of one site's current schedule
   run at once, each with an unexpired lease.
   */
  lemma RepeatedInstantBreaksSchedule() returns (steps: seq<Step>, stale: Step, more: seq<Step>, a: JobId, b: JobId, now: int)
    ensures Legal(EmptyState(), steps)
    ensures var s := After(EmptyState(), steps); Allowed(s, stale) && Repeats(s, stale) && !Holds(s, stale.job, stale.token)
    ensures var broken := Next(After(EmptyState(), steps), stale); Legal(broken, more) && var t := After(broken, more);
      && a != b && a.site == b.site && LedgerTheorems.Current(t, a) && LedgerTheorems.Current(t, b)
      && LedgerTheorems.UnexpiredLease(t, a, now) && LedgerTheorems.UnexpiredLease(t, b, now)
  {
    steps := Restarts();
    stale := Stale();
    StaleSuccessLands();
    TwoRun();
    BrokenIs();
    hide Broken, Restarted, Reclaimed, AfterCycle, Repeats, Allowed, Holds, ReadyFor, Stale, Next;
    assert RunsTo(Broken(), [], Broken());
    more := Cycle(Broken(), [], Broken(), 6, 7, 5, 100, 30);
    a, b, now := JobId("a", 20, 1), JobId("a", 30, 1), 31;
  }
}
