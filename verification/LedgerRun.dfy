/** Every operation on the ledger as one kind of step, and runs as sequences of steps. */
module LedgerRun {
  import opened Prelude
  import opened Ledger

  datatype Step =
    | Register(site: SiteId, homepage: string, interval: Option<int>, now: int)
    | Switch(site: SiteId, status: SiteStatus, from: SiteStatus, now: int)
    | Dispatch(sites: map<SiteId, Token>, owner: string, duration: int, limit: nat, now: int)
    | Enqueue(dispatchToken: Token, maxAttempts: nat, now: int)
    | Claim(jobs: map<JobId, Token>, owner: string, duration: int, limit: nat, now: int)
    | Renew(job: JobId, token: Token, owner: string, duration: int, now: int)
    | Complete(job: JobId, token: Token, attempt: nat, outcome: Outcome, scan: Option<Scan>, now: int)
    | Record(runId: RunId, run: Run, now: int)
    | Sweeping(sweep: Sweep, cutoffs: Cutoffs, limit: nat, now: int)

  /**
   What the source's own callers guarantee.  Leases last a positive time; a DueSite is used only
   with the token it came with; a scan written with a completion names a baseline that still
   exists (the foreign key of sitemap_site_scans); and the next check lies after the slot.
   */
  ghost predicate Allowed(s: State, step: Step) {
    match step
    case Register(_, _, interval, _) => interval.Some? ==> interval.value >= 0
    case Switch(_, _, _, _) => true
    case Dispatch(sites, _, duration, limit, now) => duration > 0 && limit > 0 && MayDispatch(s, sites, limit, now)
    case Enqueue(token, maxAttempts, _) => maxAttempts > 0 && token in s.dispatched
    case Claim(jobs, _, duration, limit, now) => duration > 0 && limit > 0 && MayClaim(s, jobs, limit, now)
    case Renew(_, _, _, duration, _) => duration > 0
    case Complete(job, _, _, outcome, scan, _) =>
      && (outcome.Success? ==> outcome.nextCheck > job.scheduledFor)
      && (outcome.Death? ==> outcome.nextCheck > job.scheduledFor)
      && (scan.Some? && scan.value.baseline.Some? ==> scan.value.baseline.value in s.scans)
    case Record(_, _, _) => true
    case Sweeping(sweep, cutoffs, limit, now) =>
      limit > 0 && ValidCutoffs(cutoffs, now) && MaySweep(s, sweep, cutoffs, limit, now)
  }

  ghost function Effect(s: State, step: Step): State {
    match step
    case Register(site, homepage, interval, now) => EnsureSite(s, site, homepage, interval, now)
    case Switch(site, status, from, now) => SetSiteStatus(s, site, status, from, now)
    case Dispatch(sites, owner, duration, _, now) => ClaimDueSites(s, sites, owner, duration, now)
    case Enqueue(token, maxAttempts, now) =>
      if token in s.dispatched then EnsureJob(s, s.dispatched[token], token, maxAttempts, now) else s
    case Claim(jobs, owner, duration, _, now) => ClaimJobs(s, jobs, owner, duration, now)
    case Renew(job, token, owner, duration, now) => RenewLease(s, job, token, owner, duration, now)
    case Complete(job, token, attempt, outcome, scan, now) => Finish(s, job, token, attempt, outcome, scan, now)
    case Record(runId, run, _) => RecordRun(s, runId, run)
    case Sweeping(sweep, _, _, now) => Maintain(s, sweep, now)
  }

  ghost function Next(s: State, step: Step): State {
    Effect(s, step).(clock := Max(s.clock, step.now))
  }

  /** A completion whose finish instant and outcome repeat those already in the row. */
  predicate Repeats(s: State, step: Step) {
    step.Complete? && FinishedAs(s, step.job, step.outcome, step.now)
  }

  /** A run under the assumption that completions of one job carry distinct finish instants. */
  ghost predicate Legal(s: State, steps: seq<Step>)
    decreases steps
  {
    steps == [] ||
    (Allowed(s, steps[0]) && !Repeats(s, steps[0]) && Legal(Next(s, steps[0]), steps[1..]))
  }

  ghost function After(s: State, steps: seq<Step>): State
    decreases steps
  {
    if steps == [] then s else After(Next(s, steps[0]), steps[1..])
  }

  /** The clock never runs backwards. */
  ghost predicate OnTime(s: State, steps: seq<Step>)
    decreases steps
  {
    steps == [] || (steps[0].now >= s.clock && OnTime(Next(s, steps[0]), steps[1..]))
  }
}
