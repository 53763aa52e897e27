/** The promises of the job ledger, over every legal run. */
module LedgerTheorems {
  import opened Prelude
  import opened Ledger
  import opened LedgerRun
  import opened LedgerSafety

  /** The site's row entitles this job to run now. */
  predicate Current(s: State, id: JobId) {
    id in s.jobs && id.site in s.sites && s.sites[id.site].version == id.version
  }

  predicate UnexpiredLease(s: State, id: JobId, now: int) {
    id in s.jobs && s.jobs[id].status.Running? && s.jobs[id].lease.Some? && now < s.jobs[id].lease.value.expires
  }

  /**
   From the empty ledger, however registrations, reconfigurations, dispatches, claims,
   completions and maintenance interleave: the live job of the current schedule is the job of
   the next check of an active site, and it is the only one, so at most one lease is in force.
   */
  lemma OneLiveJobPerSite(steps: seq<Step>, a: JobId, b: JobId, now: int)
    requires Legal(EmptyState(), steps)
    ensures var s := After(EmptyState(), steps);
      && (Current(s, a) && s.jobs[a].Live() ==>
            s.sites[a.site].nextCheck == a.scheduledFor && s.sites[a.site].status.Active?)
      && (Current(s, a) && Current(s, b) && s.jobs[a].Live() && s.jobs[b].Live() && a.site == b.site ==> a == b)
      && (Current(s, a) && Current(s, b) && UnexpiredLease(s, a, now) && UnexpiredLease(s, b, now) && a.site == b.site ==> a == b)
  {
    RunKeepsInv(EmptyState(), steps);
    var s := After(EmptyState(), steps);
    assert Current(s, a) ==> JobFits(a, s.jobs[a], s.sites[a.site]);
    if Current(s, a) && Current(s, b) && s.jobs[a].Live() && s.jobs[b].Live() && a.site == b.site { OneLiveJob(s, a, b); }
  }

  /** No maintenance pass touches a live job of the current schedule. */
  lemma MaintenanceSparesCurrentJob(s: State, sweep: Sweep, c: Cutoffs, limit: nat, now: int, id: JobId)
    requires Inv(s) && MaySweep(s, sweep, c, limit, now)
    requires Current(s, id) && s.jobs[id].Live()
    ensures id in Maintain(s, sweep, now).jobs && Maintain(s, sweep, now).jobs[id] == s.jobs[id]
  {
    assert JobFits(id, s.jobs[id], s.sites[id.site]);
    var pruned := DropScans(DropRuns(ExpireJobs(s, sweep.expire, now), sweep.runs), sweep.scans);
    assert id in sweep.expire ==> Expirable(s, id);
    assert id in sweep.jobs ==> PrunableJob(pruned, id, c.job);
  }

  // ---------- each slot finishes once ----------

  predicate ScheduleAtMost(a: Site, b: Site) {
    a.version < b.version || (a.version == b.version && a.nextCheck <= b.nextCheck)
  }

  /** The site has moved past the slot, by a newer schedule or by a later check. */
  predicate Spent(s: State, id: JobId) {
    id.site in s.sites &&
    (s.sites[id.site].version > id.version ||
     (s.sites[id.site].version == id.version && s.sites[id.site].nextCheck > id.scheduledFor))
  }

  predicate Retired(s: State, id: JobId) { Spent(s, id) && (id !in s.jobs || s.jobs[id].Terminal()) }

  /** No site is lost, and no site's schedule goes back. */
  ghost predicate MovesOn(before: map<SiteId, Site>, after: map<SiteId, Site>) {
    forall id :: id in before ==> id in after && ScheduleAtMost(before[id], after[id])
  }

  lemma RowMovesOn(sites: map<SiteId, Site>, id: SiteId, row: Site)
    requires id in sites ==> ScheduleAtMost(sites[id], row)
    ensures MovesOn(sites, sites[id := row])
  {
  }

  lemma RegisterMovesOn(s: State, id: SiteId, homepage: string, interval: Option<int>, now: int)
    ensures MovesOn(s.sites, EnsureSite(s, id, homepage, interval, now).sites)
  {
    if id !in s.sites {
      RowMovesOn(s.sites, id, NewSite(homepage, interval, now));
    } else if Reconfigures(s.sites[id], homepage, interval) {
      RowMovesOn(s.sites, id, Reconfigured(s.sites[id], homepage, interval, now));
    }
  }

  lemma SwitchMovesOn(s: State, id: SiteId, status: SiteStatus, from: SiteStatus, now: int)
    ensures MovesOn(s.sites, SetSiteStatus(s, id, status, from, now).sites)
  {
  }

  lemma DispatchMovesOn(s: State, grants: map<SiteId, Token>, owner: string, duration: int, now: int)
    ensures MovesOn(s.sites, ClaimDueSites(s, grants, owner, duration, now).sites)
  {
  }

  lemma CompletionMovesOn(s: State, id: JobId, token: Token, attempt: nat, outcome: Outcome, scan: Option<Scan>, at: int)
    requires JobsFit(s) && !FinishedAs(s, id, outcome, at)
    requires outcome.TryAgain? || outcome.nextCheck > id.scheduledFor
    ensures MovesOn(s.sites, Finish(s, id, token, attempt, outcome, scan, at).sites)
  {
    if Holds(s, id, token) {
      CompletionLands(s, id, token, attempt, outcome, scan, at);
      AdvancedAdvances(s.sites[id.site], id, s.jobs[id], attempt, outcome, scan, at);
      assert JobFits(id, s.jobs[id], s.sites[id.site]);
    } else {
      StaleCompletionIsIdle(s, id, token, attempt, outcome, scan, at);
    }
  }

  lemma ScheduleNeverReturns(s: State, step: Step)
    requires JobsFit(s) && Allowed(s, step) && !Repeats(s, step)
    ensures MovesOn(s.sites, Effect(s, step).sites)
  {
    match step
    case Register(site, homepage, interval, now) => RegisterMovesOn(s, site, homepage, interval, now);
    case Switch(site, status, from, now) => SwitchMovesOn(s, site, status, from, now);
    case Dispatch(sites, owner, duration, _, now) => DispatchMovesOn(s, sites, owner, duration, now);
    case Complete(job, token, attempt, outcome, scan, now) => CompletionMovesOn(s, job, token, attempt, outcome, scan, now);
    case _ =>
  }

  /** What a step leaves of a finished, or never created, job of a spent slot. */
  ghost predicate StaysOver(s: State, t: State, id: JobId) {
    id in t.jobs ==> id in s.jobs && t.jobs[id].Terminal()
  }

  lemma CompletionKeepsOver(s: State, step: Step, id: JobId)
    requires Inv(s) && Allowed(s, step) && !Repeats(s, step) && Retired(s, id) && step.Complete?
    ensures StaysOver(s, Effect(s, step), id)
  {
    var Complete(job, token, attempt, outcome, scan, now) := step;
    if Holds(s, job, token) {
      CompletionLands(s, job, token, attempt, outcome, scan, now);
    } else {
      StaleCompletionIsIdle(s, job, token, attempt, outcome, scan, now);
    }
  }

  lemma EnqueueKeepsOver(s: State, token: Token, maxAttempts: nat, now: int, id: JobId)
    requires TokensFit(s) && token in s.dispatched && Retired(s, id)
    ensures StaysOver(s, EnsureJob(s, s.dispatched[token], token, maxAttempts, now), id)
  {
    assert TokenFits(id.site, s.sites[id.site], s.dispatched);
  }

  lemma ClaimKeepsOver(s: State, grants: map<JobId, Token>, owner: string, duration: int, limit: nat, now: int, id: JobId)
    requires MayClaim(s, grants, limit, now) && Retired(s, id)
    ensures StaysOver(s, ClaimJobs(s, grants, owner, duration, now), id)
  {
    assert id in grants ==> Claimable(s, id, now);
  }

  lemma SweepKeepsOver(s: State, sweep: Sweep, now: int, id: JobId)
    requires Retired(s, id)
    ensures StaysOver(s, Maintain(s, sweep, now), id)
  {
  }

  lemma RetiredRowStays(s: State, step: Step, id: JobId)
    requires Inv(s) && Allowed(s, step) && !Repeats(s, step) && Retired(s, id)
    ensures StaysOver(s, Effect(s, step), id)
  {
    match step
    case Enqueue(token, maxAttempts, now) => EnqueueKeepsOver(s, token, maxAttempts, now, id);
    case Claim(jobs, owner, duration, limit, now) => ClaimKeepsOver(s, jobs, owner, duration, limit, now, id);
    case Complete(_, _, _, _, _, _) => CompletionKeepsOver(s, step, id);
    case Sweeping(sweep, _, _, now) => SweepKeepsOver(s, sweep, now, id);
    case _ =>
  }

  lemma RetiredJobStaysRetired(s: State, step: Step, id: JobId)
    requires Inv(s) && Allowed(s, step) && !Repeats(s, step) && Retired(s, id)
    ensures Retired(Next(s, step), id) && !Ends(s, step, id)
  {
    ScheduleNeverReturns(s, step);
    RetiredRowStays(s, step, id);
  }

  /** Does the step bring the slot to its end? */
  ghost predicate Ends(s: State, step: Step, id: JobId) {
    var t := Next(s, step);
    id in t.jobs && t.jobs[id].Terminal() && !(id in s.jobs && s.jobs[id].Terminal())
  }

  ghost function Endings(s: State, steps: seq<Step>, id: JobId): nat
    decreases steps
  {
    if steps == [] then 0
    else (if Ends(s, steps[0], id) then 1 else 0) + Endings(Next(s, steps[0]), steps[1..], id)
  }

  lemma {:induction false} RetiredJobNeverEnds(s: State, steps: seq<Step>, id: JobId)
    requires Inv(s) && Legal(s, steps) && Retired(s, id)
    ensures Endings(s, steps, id) == 0
    decreases steps
  {
    if steps != [] {
      StepKeepsInv(s, steps[0]);
      RetiredJobStaysRetired(s, steps[0], id);
      RetiredJobNeverEnds(Next(s, steps[0]), steps[1..], id);
    }
  }

  /**
   Over a whole run a (site, scheduled time, version) slot succeeds or dies at most once, even
   if its row is pruned in between.
   */
  lemma {:induction false} SlotEndsAtMostOnce(s: State, steps: seq<Step>, id: JobId)
    requires Inv(s) && Legal(s, steps)
    ensures Endings(s, steps, id) <= 1
    decreases steps
  {
    if steps != [] {
      var t := Next(s, steps[0]);
      StepKeepsInv(s, steps[0]);
      if Ends(s, steps[0], id) {
        assert JobFits(id, t.jobs[id], t.sites[id.site]);
        RetiredJobNeverEnds(t, steps[1..], id);
      } else {
        SlotEndsAtMostOnce(t, steps[1..], id);
      }
    }
  }

  // ---------- maintenance keeps references closed ----------

  /** Whatever rows the limits let a maintenance pass pick, it breaks no reference. */
  lemma MaintenanceKeepsReferences(s: State, sweep: Sweep, c: Cutoffs, limit: nat, now: int)
    requires MaySweep(s, sweep, c, limit, now)
    ensures var t := Maintain(s, sweep, now);
      && t.sites == s.sites
      && (forall site, x :: site in t.sites && t.sites[site].baseline == Some(x) && x in s.scans ==> x in t.scans)
      && (forall scan, x :: scan in t.scans && t.scans[scan].baseline == Some(x) && x in s.scans ==> x in t.scans)
      && (forall run :: run in s.runs && (s.runs[run].result.Baseline? || s.runs[run].result.Changed?) ==>
            run in t.runs && (s.runs[run].scan.Some? && s.runs[run].scan.value in s.scans ==> s.runs[run].scan.value in t.scans))
      && (forall scan :: scan in t.scans && scan.job in s.jobs ==> scan.job in t.jobs)
  {
    var expired := ExpireJobs(s, sweep.expire, now);
    var ready := DropRuns(expired, sweep.runs);
    var pruned := DropScans(ready, sweep.scans);
    var t := Maintain(s, sweep, now);
    assert t.runs == s.runs - sweep.runs && t.scans == s.scans - sweep.scans;
    forall site, x | site in t.sites && t.sites[site].baseline == Some(x) && x in s.scans ensures x in t.scans {
      assert x in sweep.scans ==> PrunableScan(ready, x, c.scan);
    }
    forall scan, x | scan in t.scans && t.scans[scan].baseline == Some(x) && x in s.scans ensures x in t.scans {
      assert x in sweep.scans ==> PrunableScan(ready, x, c.scan);
    }
    forall run | run in s.runs && (s.runs[run].result.Baseline? || s.runs[run].result.Changed?)
      ensures run in t.runs
      ensures s.runs[run].scan.Some? && s.runs[run].scan.value in s.scans ==> s.runs[run].scan.value in t.scans
    {
      assert run in sweep.runs ==> PrunableRun(expired, run, c.run);
      assert s.runs[run].scan.Some? && s.runs[run].scan.value in sweep.scans ==>
          PrunableScan(ready, s.runs[run].scan.value, c.scan);
    }
    forall scan | scan in t.scans && scan.job in s.jobs ensures scan.job in t.jobs {
      assert scan.job in sweep.jobs ==> PrunableJob(pruned, scan.job, c.job);
    }
  }

  /** Over any run the baseline pointer of a site is null or a committed scan of that site. */
  lemma BaselinePointerIsCommitted(steps: seq<Step>, id: SiteId)
    requires Legal(EmptyState(), steps)
    requires id in After(EmptyState(), steps).sites && After(EmptyState(), steps).sites[id].baseline.Some?
    ensures var s := After(EmptyState(), steps);
      s.sites[id].baseline.value in s.scans && s.sites[id].baseline.value.job.site == id
  {
    RunKeepsInv(EmptyState(), steps);
    assert PointerFits(id, After(EmptyState(), steps).sites[id], After(EmptyState(), steps).scans);
  }
}
