/** Leases on one job never overlap, and slots lie in the past, while the clock is monotone. */
module LedgerLeases {
  import opened Prelude
  import opened Ledger
  import opened LedgerRun
  import opened LedgerSafety

  type Jobs = map<JobId, Job>
  type Leases = map<Token, Lease>

  predicate Apart(a: Lease, b: Lease) { a.job == b.job ==> a.until <= b.from || b.until <= a.from }

  /** The token a row names is a lease on that job, already begun, ending when the row says. */
  predicate CurrentLeaseFits(id: JobId, row: Job, leases: Leases, clock: int) {
    (row.lease.Some? <==> row.status.Running?) &&
    (row.lease.Some? ==>
      var token := row.lease.value.token;
      && token in leases && leases[token].job == id
      && row.lease.value.expires == leases[token].until
      && leases[token].from <= clock)
  }

  predicate InForce(token: Token, lease: Lease, jobs: Jobs) {
    lease.job in jobs && jobs[lease.job].lease.Some? && jobs[lease.job].lease.value.token == token
  }

  /** A lease no longer in force ended before the present and before its job's current one began. */
  predicate PastLeaseFits(token: Token, lease: Lease, jobs: Jobs, leases: Leases, clock: int) {
    !InForce(token, lease, jobs) ==>
      && lease.until <= clock
      && (lease.job in jobs && jobs[lease.job].lease.Some? && jobs[lease.job].lease.value.token in leases ==>
            lease.until <= leases[jobs[lease.job].lease.value.token].from)
  }

  ghost predicate CurrentFit(jobs: Jobs, leases: Leases, clock: int) {
    forall id :: id in jobs ==> CurrentLeaseFits(id, jobs[id], leases, clock)
  }

  ghost predicate PastFit(jobs: Jobs, leases: Leases, clock: int) {
    forall token :: token in leases ==> PastLeaseFits(token, leases[token], jobs, leases, clock)
  }

  ghost predicate RowsFit(jobs: Jobs, leases: Leases, clock: int) {
    CurrentFit(jobs, leases, clock) && PastFit(jobs, leases, clock)
  }

  ghost predicate LeasesApart(leases: Leases) {
    forall a, b :: a in leases && b in leases && a != b ==> Apart(leases[a], leases[b])
  }

  /** Old leases keep their start and, unless in force, do not grow; new ones are in force. */
  ghost predicate Settles(before: Leases, after: Leases, jobs: Jobs) {
    && (forall token :: token in before ==>
          && token in after
          && after[token].job == before[token].job && after[token].from == before[token].from
          && (InForce(token, after[token], jobs) || after[token].until <= before[token].until))
    && (forall token :: token in after && token !in before ==> InForce(token, after[token], jobs))
  }

  lemma SettledLeasesStayApart(before: Leases, after: Leases, jobs: Jobs, clock: int)
    requires LeasesApart(before) && RowsFit(jobs, after, clock) && Settles(before, after, jobs)
    ensures LeasesApart(after)
  {
    forall a, b | a in after && b in after && a != b ensures Apart(after[a], after[b]) {
      assert PastLeaseFits(a, after[a], jobs, after, clock) && PastLeaseFits(b, after[b], jobs, after, clock);
      assert a in before && b in before ==> Apart(before[a], before[b]);
    }
  }

  /** What a step owes the rows and leases it leaves behind. */
  ghost predicate Keeps(before: Leases, jobs: Jobs, after: Leases, clock: int) {
    RowsFit(jobs, after, clock) && Settles(before, after, jobs)
  }

  // ---------- claims ----------

  ghost predicate GrantsFresh(jobs: Jobs, leases: Leases, grants: map<JobId, Token>) {
    Injective(grants) && forall id :: id in grants ==> id in jobs && grants[id] !in leases
  }

  /** What a claim writes: the granted rows run under their new token, and only they change. */
  ghost predicate ClaimWrites(jobs: Jobs, leases: Leases, rows: Jobs, after: Leases,
                              grants: map<JobId, Token>, from: int, until: int) {
    && rows.Keys == jobs.Keys
    && (forall id :: id in jobs && id !in grants ==> rows[id] == jobs[id])
    && (forall id :: id in grants && id in rows ==>
          && rows[id].status.Running? && rows[id].lease.Some?
          && rows[id].lease.value.token == grants[id] && rows[id].lease.value.expires == until)
    && (forall token :: token in leases ==> token in after && after[token] == leases[token])
    && (forall id :: id in grants ==> grants[id] in after && after[grants[id]] == Lease(id, from, until))
    && (forall token :: token in after && token !in leases ==>
          after[token].job in grants && grants[after[token].job] == token)
  }

  lemma ClaimJobsWrites(s: State, grants: map<JobId, Token>, owner: string, duration: int, now: int)
    requires GrantsFresh(s.jobs, s.leases, grants)
    ensures var t := ClaimJobs(s, grants, owner, duration, now);
      ClaimWrites(s.jobs, s.leases, t.jobs, t.leases, grants, now, now + duration)
  {
    var records := LeaseRecords(grants, now, now + duration);
    forall id | id in grants ensures grants[id] in records && records[grants[id]] == Lease(id, now, now + duration) {}
    forall token | token in s.leases ensures token !in records {}
  }

  /** A job whose lease is claimed away had let it expire. */
  ghost predicate GrantsReplaceExpired(jobs: Jobs, grants: map<JobId, Token>, now: int) {
    forall id :: id in grants && id in jobs && jobs[id].lease.Some? ==> jobs[id].lease.value.expires <= now
  }

  lemma ClaimReplacesExpired(s: State, grants: map<JobId, Token>, limit: nat, now: int)
    requires CurrentFit(s.jobs, s.leases, s.clock) && MayClaim(s, grants, limit, now)
    ensures GrantsFresh(s.jobs, s.leases, grants) && GrantsReplaceExpired(s.jobs, grants, now)
  {
    forall id | id in grants
      ensures id in s.jobs && (s.jobs[id].lease.Some? ==> s.jobs[id].lease.value.expires <= now)
    {
      assert Claimable(s, id, now) && CurrentLeaseFits(id, s.jobs[id], s.leases, s.clock);
    }
  }

  lemma ClaimKeeps(jobs: Jobs, leases: Leases, clock: int, rows: Jobs, after: Leases,
                   grants: map<JobId, Token>, until: int, now: int)
    requires RowsFit(jobs, leases, clock) && GrantsFresh(jobs, leases, grants) && now >= clock
    requires GrantsReplaceExpired(jobs, grants, now) && ClaimWrites(jobs, leases, rows, after, grants, now, until)
    ensures Keeps(leases, rows, after, now)
  {
    forall id | id in rows ensures CurrentLeaseFits(id, rows[id], after, now) {
      assert CurrentLeaseFits(id, jobs[id], leases, clock);
    }
    forall token | token in after ensures PastLeaseFits(token, after[token], rows, after, now) {
      if token in leases {
        var id := leases[token].job;
        assert PastLeaseFits(token, leases[token], jobs, leases, clock);
        assert id in jobs ==> CurrentLeaseFits(id, jobs[id], leases, clock);
      }
    }
  }

  // ---------- the other steps ----------

  /** A row let go of its token, or was rewritten by its holder; the lease follows it. */
  lemma UpdateKeeps(jobs: Jobs, leases: Leases, clock: int, id: JobId, token: Token, row: Job, lease: Lease, now: int)
    requires RowsFit(jobs, leases, clock) && now >= clock && id in jobs && token in leases
    requires InForce(token, leases[token], jobs) && leases[token].job == id
    requires lease.job == id && lease.from == leases[token].from
    requires if row.lease.Some?
             then row.status.Running? && row.lease.value.token == token && row.lease.value.expires == lease.until
             else !row.status.Running? && lease.until <= now && lease.until <= leases[token].until
    ensures Keeps(leases, jobs[id := row], leases[token := lease], now)
  {
    var rows, after := jobs[id := row], leases[token := lease];
    forall j | j in rows ensures CurrentLeaseFits(j, rows[j], after, now) {
      assert CurrentLeaseFits(j, jobs[j], leases, clock);
    }
    forall k | k in after ensures PastLeaseFits(k, after[k], rows, after, now) {
      assert PastLeaseFits(k, leases[k], jobs, leases, clock);
    }
  }

  /** Rows that never named a token come and go, and time passes. */
  lemma TimeKeeps(jobs: Jobs, rows: Jobs, leases: Leases, clock: int, now: int)
    requires RowsFit(jobs, leases, clock) && now >= clock
    requires forall id :: id in rows ==> (id in jobs && rows[id] == jobs[id]) || (rows[id].lease.None? && !rows[id].status.Running?)
    requires forall id :: id in jobs ==> id in rows && rows[id] == jobs[id]
    ensures Keeps(leases, rows, leases, now)
  {
    forall j | j in rows ensures CurrentLeaseFits(j, rows[j], leases, now) {
      assert j in jobs ==> CurrentLeaseFits(j, jobs[j], leases, clock);
    }
    forall k | k in leases ensures PastLeaseFits(k, leases[k], rows, leases, now) {
      assert PastLeaseFits(k, leases[k], jobs, leases, clock);
    }
  }

  lemma RenewKeeps(s: State, id: JobId, token: Token, owner: string, duration: int, now: int)
    requires RowsFit(s.jobs, s.leases, s.clock) && now >= s.clock
    ensures var t := RenewLease(s, id, token, owner, duration, now); Keeps(s.leases, t.jobs, t.leases, now)
  {
    if Holds(s, id, token) && s.jobs[id].lease.value.owner == owner {
      assert CurrentLeaseFits(id, s.jobs[id], s.leases, s.clock);
      UpdateKeeps(s.jobs, s.leases, s.clock, id, token,
                  s.jobs[id].(lease := Some(Holder(owner, token, now + duration)), updatedAt := now),
                  s.leases[token].(until := now + duration), now);
    } else {
      TimeKeeps(s.jobs, s.jobs, s.leases, s.clock, now);
    }
  }

  lemma AdvanceTouches(s: State, id: JobId, attempt: nat, outcome: Outcome, scan: Option<Scan>, at: int)
    requires id in s.jobs
    ensures var t := AdvanceSite(InsertScan(s, ScanId(id, attempt), scan), id, attempt, outcome, scan, at);
      t.jobs == s.jobs && t.leases == s.leases && t.dispatched == s.dispatched
  {
  }

  lemma FinishTouches(s: State, id: JobId, token: Token, attempt: nat, outcome: Outcome, scan: Option<Scan>, at: int)
    ensures var t := Finish(s, id, token, attempt, outcome, scan, at);
      && t.jobs == LandCompletion(s, id, token, outcome, at).jobs
      && t.leases == LandCompletion(s, id, token, outcome, at).leases
      && t.dispatched == s.dispatched
  {
    var landed := LandCompletion(s, id, token, outcome, at);
    if FinishedAs(landed, id, outcome, at) { AdvanceTouches(landed, id, attempt, outcome, scan, at); }
  }

  lemma CompleteKeeps(s: State, id: JobId, token: Token, attempt: nat, outcome: Outcome, scan: Option<Scan>, now: int)
    requires RowsFit(s.jobs, s.leases, s.clock) && now >= s.clock
    ensures var t := Finish(s, id, token, attempt, outcome, scan, now); Keeps(s.leases, t.jobs, t.leases, now)
  {
    FinishTouches(s, id, token, attempt, outcome, scan, now);
    if Holds(s, id, token) {
      assert CurrentLeaseFits(id, s.jobs[id], s.leases, s.clock);
      FinishedIsFinal(s.jobs[id], outcome, now);
      UpdateKeeps(s.jobs, s.leases, s.clock, id, token, Finished(s.jobs[id], outcome, now),
                  s.leases[token].(until := Min(s.leases[token].until, now)), now);
    } else {
      TimeKeeps(s.jobs, s.jobs, s.leases, s.clock, now);
    }
  }

  lemma EnqueueKeeps(s: State, due: DueSite, token: Token, maxAttempts: nat, now: int)
    requires RowsFit(s.jobs, s.leases, s.clock) && now >= s.clock
    ensures var t := EnsureJob(s, due, token, maxAttempts, now); Keeps(s.leases, t.jobs, t.leases, now)
  {
    TimeKeeps(s.jobs, EnsureJob(s, due, token, maxAttempts, now).jobs, s.leases, s.clock, now);
  }

  lemma ExpireKeeps(s: State, expire: set<JobId>, now: int)
    requires RowsFit(s.jobs, s.leases, s.clock) && now >= s.clock
    ensures var t := ExpireJobs(s, expire, now); Keeps(s.leases, t.jobs, t.leases, now)
  {
    var t := ExpireJobs(s, expire, now);
    forall j | j in t.jobs ensures CurrentLeaseFits(j, t.jobs[j], t.leases, now) {
      assert CurrentLeaseFits(j, s.jobs[j], s.leases, s.clock);
    }
    forall k | k in t.leases ensures PastLeaseFits(k, t.leases[k], t.jobs, t.leases, now) {
      assert PastLeaseFits(k, s.leases[k], s.jobs, s.leases, s.clock);
      assert s.leases[k].job in s.jobs ==> CurrentLeaseFits(s.leases[k].job, s.jobs[s.leases[k].job], s.leases, s.clock);
    }
  }

  lemma PruneKeeps(before: Leases, jobs: Jobs, leases: Leases, clock: int, gone: set<JobId>)
    requires Keeps(before, jobs, leases, clock)
    requires forall id :: id in gone && id in jobs ==> jobs[id].lease.None?
    ensures Keeps(before, jobs - gone, leases, clock)
  {
    forall k | k in leases ensures PastLeaseFits(k, leases[k], jobs - gone, leases, clock) {
      assert PastLeaseFits(k, leases[k], jobs, leases, clock);
    }
  }

  lemma SweepKeeps(s: State, sweep: Sweep, c: Cutoffs, limit: nat, now: int)
    requires RowsFit(s.jobs, s.leases, s.clock) && now >= s.clock && MaySweep(s, sweep, c, limit, now)
    ensures var t := Maintain(s, sweep, now); Keeps(s.leases, t.jobs, t.leases, now)
  {
    var expired := ExpireJobs(s, sweep.expire, now);
    var pruned := DropScans(DropRuns(expired, sweep.runs), sweep.scans);
    ExpireKeeps(s, sweep.expire, now);
    forall id | id in sweep.jobs && id in expired.jobs ensures expired.jobs[id].lease.None? {
      assert PrunableJob(pruned, id, c.job) && CurrentLeaseFits(id, expired.jobs[id], expired.leases, now);
    }
    PruneKeeps(s.leases, expired.jobs, expired.leases, now, sweep.jobs);
  }

  // ---------- over whole runs ----------

  lemma EffectKeepsRows(s: State, step: Step)
    requires RowsFit(s.jobs, s.leases, s.clock) && Allowed(s, step) && step.now >= s.clock
    ensures var t := Effect(s, step); Keeps(s.leases, t.jobs, t.leases, step.now)
  {
    match step
    case Enqueue(token, maxAttempts, now) => EnqueueKeeps(s, s.dispatched[token], token, maxAttempts, now);
    case Claim(jobs, owner, duration, limit, now) =>
      ClaimReplacesExpired(s, jobs, limit, now);
      ClaimJobsWrites(s, jobs, owner, duration, now);
      var t := ClaimJobs(s, jobs, owner, duration, now);
      ClaimKeeps(s.jobs, s.leases, s.clock, t.jobs, t.leases, jobs, now + duration, now);
    case Renew(job, token, owner, duration, now) => RenewKeeps(s, job, token, owner, duration, now);
    case Complete(job, token, attempt, outcome, scan, now) => CompleteKeeps(s, job, token, attempt, outcome, scan, now);
    case Sweeping(sweep, c, limit, now) => SweepKeeps(s, sweep, c, limit, now);
    case _ => TimeKeeps(s.jobs, s.jobs, s.leases, s.clock, step.now);
  }

  /** Slots are taken from checks that were already due. */
  ghost predicate SlotsPast(jobs: Jobs, dispatched: map<Token, DueSite>, clock: int) {
    && (forall id :: id in jobs ==> id.scheduledFor <= clock)
    && (forall token :: token in dispatched ==> dispatched[token].scheduledFor <= clock)
  }

  lemma DispatchKeepsSlotsPast(s: State, grants: map<SiteId, Token>, limit: nat, now: int)
    requires SlotsPast(s.jobs, s.dispatched, s.clock) && MayDispatch(s, grants, limit, now) && now >= s.clock
    ensures SlotsPast(s.jobs, s.dispatched + DispatchRecords(s.sites, grants), now)
  {
    var records := DispatchRecords(s.sites, grants);
    forall token | token in records ensures records[token].scheduledFor <= now {
      var id := records[token].site;
      assert id in grants && Due(s.sites[id], now);
    }
  }

  lemma EnqueueKeepsSlotsPast(s: State, token: Token, maxAttempts: nat, now: int)
    requires SlotsPast(s.jobs, s.dispatched, s.clock) && token in s.dispatched && now >= s.clock
    ensures SlotsPast(EnsureJob(s, s.dispatched[token], token, maxAttempts, now).jobs, s.dispatched, now)
  {
  }

  lemma CompleteKeepsSlotsPast(s: State, id: JobId, token: Token, attempt: nat, outcome: Outcome, scan: Option<Scan>, now: int)
    requires SlotsPast(s.jobs, s.dispatched, s.clock) && now >= s.clock
    ensures var t := Finish(s, id, token, attempt, outcome, scan, now); SlotsPast(t.jobs, t.dispatched, now)
  {
    FinishTouches(s, id, token, attempt, outcome, scan, now);
  }

  lemma FewerSlotsPast(jobs: Jobs, rows: Jobs, dispatched: map<Token, DueSite>, clock: int, now: int)
    requires SlotsPast(jobs, dispatched, clock) && now >= clock && forall id :: id in rows ==> id in jobs
    ensures SlotsPast(rows, dispatched, now)
  {
  }

  lemma EffectKeepsSlotsPast(s: State, step: Step)
    requires SlotsPast(s.jobs, s.dispatched, s.clock) && Allowed(s, step) && step.now >= s.clock
    ensures var t := Effect(s, step); SlotsPast(t.jobs, t.dispatched, step.now)
  {
    match step
    case Dispatch(sites, owner, duration, limit, now) => DispatchKeepsSlotsPast(s, sites, limit, now);
    case Enqueue(token, maxAttempts, now) => EnqueueKeepsSlotsPast(s, token, maxAttempts, now);
    case Complete(job, token, attempt, outcome, scan, now) =>
      CompleteKeepsSlotsPast(s, job, token, attempt, outcome, scan, now);
    case _ => FewerSlotsPast(s.jobs, Effect(s, step).jobs, s.dispatched, s.clock, step.now);
  }

  ghost predicate LeaseInv(s: State) {
    RowsFit(s.jobs, s.leases, s.clock) && LeasesApart(s.leases) && SlotsPast(s.jobs, s.dispatched, s.clock)
  }

  lemma StepKeepsLeaseInv(s: State, step: Step)
    requires LeaseInv(s) && Allowed(s, step) && step.now >= s.clock
    ensures LeaseInv(Next(s, step))
  {
    var t := Effect(s, step);
    EffectKeepsRows(s, step);
    SettledLeasesStayApart(s.leases, t.leases, t.jobs, step.now);
    EffectKeepsSlotsPast(s, step);
  }

  lemma {:induction false} RunKeepsLeases(s: State, steps: seq<Step>)
    requires LeaseInv(s) && Legal(s, steps) && OnTime(s, steps)
    ensures LeaseInv(After(s, steps))
    decreases steps
  {
    if steps != [] {
      StepKeepsLeaseInv(s, steps[0]);
      RunKeepsLeases(Next(s, steps[0]), steps[1..]);
    }
  }

  /** While the clock does not run backwards, two tokens never entitle to one job at one time. */
  lemma LeasesNeverOverlap(steps: seq<Step>, a: Token, b: Token)
    requires Legal(EmptyState(), steps) && OnTime(EmptyState(), steps)
    requires var s := After(EmptyState(), steps); a in s.leases && b in s.leases && a != b
    ensures var s := After(EmptyState(), steps); Apart(s.leases[a], s.leases[b])
  {
    RunKeepsLeases(EmptyState(), steps);
  }

  // ---------- the scheduler meets the precondition of a completion ----------

  /** A delay moved by up to the window either way, never below a second. */
  function Jittered(base: nat, window: int, sample: nat): int {
    if window <= 0 then base else Max(1000, base + sample % (2 * window + 1) - window)
  }

  function Window(base: nat, ratio: real): int { (base as real * ratio).Floor }

  /** SchedulerPolicy's jitter: `sample` stands for the hash of the job key. */
  function JitteredDelay(seconds: nat, ratio: real, sample: nat): int
    requires 0.0 <= ratio <= 0.5
  {
    Jittered(1000 * seconds, Window(1000 * seconds, ratio), sample)
  }

  /** The next check a scheduler computes at the present lies after the slot it finishes. */
  lemma NextCheckLiesAhead(steps: seq<Step>, id: JobId, at: int, seconds: nat, ratio: real, sample: nat)
    requires Legal(EmptyState(), steps) && OnTime(EmptyState(), steps)
    requires id in After(EmptyState(), steps).jobs && at >= After(EmptyState(), steps).clock
    requires seconds > 0 && 0.0 <= ratio <= 0.5
    ensures at + JitteredDelay(seconds, ratio, sample) > id.scheduledFor
  {
    RunKeepsLeases(EmptyState(), steps);
  }

  lemma WindowIsSmall(base: nat, ratio: real)
    requires 0.0 <= ratio <= 0.5
    ensures 0 <= Window(base, ratio) && (base == 0 ==> Window(base, ratio) == 0)
  {
    assert base as real * ratio >= 0.0;
  }

  lemma OffsetFills(window: nat, sample: nat)
    ensures 0 <= sample % (2 * window + 1) <= 2 * window && (sample <= 2 * window ==> sample % (2 * window + 1) == sample)
  {
  }

  lemma JitterFills(base: nat, window: nat, delay: int)
    requires window > 0 ==> base >= 1000
    ensures (exists sample: nat :: Jittered(base, window, sample) == delay) <==>
      if window == 0 then delay == base else delay >= 1000 && base - window <= delay <= base + window
  {
    forall sample: nat
      ensures if window == 0 then Jittered(base, window, sample) == base
              else 1000 <= Jittered(base, window, sample) && base - window <= Jittered(base, window, sample) <= base + window
    {
      OffsetFills(window, sample);
    }
    if window == 0 {
      assert Jittered(base, window, 0) == base;
    } else if delay >= 1000 && base - window <= delay <= base + window {
      OffsetFills(window, delay - (base - window));
      assert Jittered(base, window, delay - (base - window)) == delay;
    }
  }

  /** A delay is one within the ratio of its seconds, and at least a second if it is moved at all; every such delay is some sample's. */
  lemma DelaysFillTheirWindow(seconds: nat, ratio: real, delay: int)
    requires 0.0 <= ratio <= 0.5
    ensures (exists sample: nat :: JitteredDelay(seconds, ratio, sample) == delay) <==>
      var base := 1000 * seconds; var window := (base as real * ratio).Floor;
      if window == 0 then delay == base else delay >= 1000 && base - window <= delay <= base + window
  {
    var base := 1000 * seconds;
    var window := Window(base, ratio);
    WindowIsSmall(base, ratio);
    assert window == (base as real * ratio).Floor;
    hide Window, Jittered;
    JitterFills(base, window, delay);
    forall sample: nat ensures JitteredDelay(seconds, ratio, sample) == Jittered(base, window, sample) {}
  }
}
