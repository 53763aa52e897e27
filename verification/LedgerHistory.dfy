/** What the row of a site tells of the run that led to it. */
module LedgerHistory {
  import opened Prelude
  import opened Ledger
  import opened LedgerRun
  import opened LedgerSafety

  /** The completion holds the lease of a job of the site's current schedule. */
  predicate Ends(s: State, id: JobId, token: Token) {
    Holds(s, id, token) && id.site in s.sites && s.sites[id.site].version == id.version
  }

  // ---------- one completion ----------

  /** What the site's row becomes. */
  predicate SiteMoves(was: Site, site: Site, row: Job, scanId: ScanId, outcome: Outcome, scan: Option<Scan>, at: int) {
    && site.version == was.version && site.status == was.status && site.interval == was.interval && site.homepage == was.homepage
    && site.times.lastAttempt == Some(at)
    && match outcome
       case Success(next) =>
         && site.nextCheck == next && site.errorStreak == 0 && site.dispatch.None? && site.dispatchExpires.None?
         && site.baseline == (if scan.Some? && scan.value.promoted then Some(scanId) else was.baseline)
         && site.times.lastSuccess == Some(at)
       case Death(next, _, _) =>
         && site.nextCheck == next && site.dispatch.None? && site.dispatchExpires.None? && site.baseline == was.baseline
         && site.errorStreak >= was.errorStreak && site.errorStreak > row.baseErrorStreak
         && (site.errorStreak == was.errorStreak || site.errorStreak == row.baseErrorStreak + 1)
         && site.times.lastSuccess == was.times.lastSuccess
       case TryAgain(available, _) =>
         && site == was.(dispatchExpires := Some(available), times := site.times)
         && site.times.lastSuccess == was.times.lastSuccess
  }

  /** What the job's row becomes. */
  predicate JobMoves(row: Job, job: Job, outcome: Outcome, at: int) {
    && job.lease.None? && job.finishedAt == Some(at) && job.attempts == row.attempts && job.maxAttempts == row.maxAttempts
    && match outcome
       case Success(_) => job.status.Succeeded? && job.notes.lastError.None? && job.availableAt == row.availableAt
       case Death(_, available, error) =>
         && job.status.Dead? && job.availableAt == available
         && job.notes.lastError == Some(error) && job.notes.deadLetterAt == Some(at)
       case TryAgain(available, error) =>
         && job.status.Retry? && job.availableAt == available
         && job.notes.lastError == Some(error) && job.notes.deadLetterAt.None?
  }

  /** A completion that holds the lease, row by row; nothing else changes. */
  lemma CompletionTells(s: State, id: JobId, token: Token, attempt: nat, outcome: Outcome, scan: Option<Scan>, at: int)
    requires Ends(s, id, token)
    ensures var t := Finish(s, id, token, attempt, outcome, scan, at);
      && (id in t.jobs && t.jobs == s.jobs[id := t.jobs[id]] && JobMoves(s.jobs[id], t.jobs[id], outcome, at))
      && (id.site in t.sites && t.sites == s.sites[id.site := t.sites[id.site]])
      && SiteMoves(s.sites[id.site], t.sites[id.site], s.jobs[id], ScanId(id, attempt), outcome, scan, at)
    ensures var t := Finish(s, id, token, attempt, outcome, scan, at);
      && t.runs == s.runs && t.dispatched == s.dispatched
      && t.scans == if scan.Some? && ScanId(id, attempt) !in s.scans then s.scans[ScanId(id, attempt) := scan.value] else s.scans
  {
    FinishedIsFinal(s.jobs[id], outcome, at);
    var landed := LandCompletion(s, id, token, outcome, at);
    FinishedMoves(s.jobs[id], outcome, at);
    AdvancedMoves(s.sites[id.site], id, s.jobs[id], landed.jobs[id], attempt, outcome, scan, at);
    hide Finished, Advanced, Released, JobMoves, SiteMoves;
  }

  lemma FinishedMoves(row: Job, outcome: Outcome, at: int)
    ensures JobMoves(row, Finished(row, outcome, at), outcome, at)
    ensures Finished(row, outcome, at).baseErrorStreak == row.baseErrorStreak
  {
  }

  lemma AdvancedMoves(site: Site, id: JobId, row: Job, finished: Job, attempt: nat, outcome: Outcome, scan: Option<Scan>, at: int)
    requires finished.baseErrorStreak == row.baseErrorStreak
    ensures SiteMoves(site, Advanced(site, id, finished, attempt, outcome, scan, at), row, ScanId(id, attempt), outcome, scan, at)
  {
  }

  // ---------- the other steps ----------

  /** Rows keep their baseline and streak; new ones have neither. */
  ghost predicate SitesTell(before: map<SiteId, Site>, after: map<SiteId, Site>) {
    && (forall id :: id in before ==> id in after)
    && forall id :: id in after ==>
         if id in before then
           after[id].version >= before[id].version && after[id].baseline == before[id].baseline && after[id].errorStreak == before[id].errorStreak
         else after[id].baseline.None? && after[id].errorStreak == 0
  }

  /** No job comes to life again, and new ones take the streak of their site. */
  ghost predicate JobsTell(s: State, jobs: map<JobId, Job>) {
    forall j :: j in jobs ==>
      if j in s.jobs then jobs[j].baseErrorStreak == s.jobs[j].baseErrorStreak && (jobs[j].Live() ==> s.jobs[j].Live())
      else j.site in s.sites && jobs[j].baseErrorStreak == s.sites[j.site].errorStreak
  }

  lemma RowTells(sites: map<SiteId, Site>, id: SiteId, row: Site)
    requires if id in sites then row.version >= sites[id].version && row.baseline == sites[id].baseline && row.errorStreak == sites[id].errorStreak
             else row.baseline.None? && row.errorStreak == 0
    ensures SitesTell(sites, sites[id := row])
  {
  }

  lemma RegisterTells(s: State, id: SiteId, homepage: string, interval: Option<int>, now: int)
    ensures SitesTell(s.sites, EnsureSite(s, id, homepage, interval, now).sites)
  {
    hide SitesTell;
    if id !in s.sites {
      RowTells(s.sites, id, NewSite(homepage, interval, now));
    } else {
      RowTells(s.sites, id, Reconfigured(s.sites[id], homepage, interval, now));
      RowTells(s.sites, id, s.sites[id]);
      assert s.sites[id := s.sites[id]] == s.sites;
    }
  }

  lemma SwitchTells(s: State, id: SiteId, status: SiteStatus, from: SiteStatus, now: int)
    ensures SitesTell(s.sites, SetSiteStatus(s, id, status, from, now).sites)
  {
  }

  lemma DispatchTells(s: State, grants: map<SiteId, Token>, owner: string, duration: int, now: int)
    ensures SitesTell(s.sites, ClaimDueSites(s, grants, owner, duration, now).sites)
  {
  }

  lemma ClaimTells(s: State, grants: map<JobId, Token>, owner: string, duration: int, limit: nat, now: int)
    requires MayClaim(s, grants, limit, now)
    ensures JobsTell(s, ClaimJobs(s, grants, owner, duration, now).jobs)
  {
    hide FreshTokens;
  }

  lemma QuietStepsTell(s: State, step: Step)
    requires Allowed(s, step) && (step.Enqueue? || step.Renew? || step.Record? || step.Sweeping?)
    ensures SitesTell(s.sites, Next(s, step).sites) && JobsTell(s, Next(s, step).jobs)
  {
    hide MaySweep, MayClaim, MayDispatch;
  }

  lemma OtherStepsTell(s: State, step: Step)
    requires Allowed(s, step) && !step.Complete?
    ensures SitesTell(s.sites, Next(s, step).sites) && JobsTell(s, Next(s, step).jobs)
  {
    hide ClaimedRows, MaySweep, MayClaim, MayDispatch;
    match step
    case Register(id, homepage, interval, now) => RegisterTells(s, id, homepage, interval, now);
    case Switch(id, status, from, now) => SwitchTells(s, id, status, from, now);
    case Dispatch(grants, owner, duration, _, now) => DispatchTells(s, grants, owner, duration, now);
    case Claim(grants, owner, duration, limit, now) =>
      hide JobsTell;
      ClaimTells(s, grants, owner, duration, limit, now);
    case _ => QuietStepsTell(s, step);
  }

  // ---------- the baseline over whole runs ----------

  /** The step commits a promoted scan with the success of a job of the site's current schedule. */
  predicate Promotes(s: State, step: Step, site: SiteId) {
    && step.Complete? && step.job.site == site && Ends(s, step.job, step.token)
    && step.outcome.Success? && step.scan.Some? && step.scan.value.promoted
  }

  /** The scan that was promoted last, and before the run `was`. */
  ghost function LastPromoted(s: State, steps: seq<Step>, site: SiteId, was: Option<ScanId>): Option<ScanId>
    decreases steps
  {
    if steps == [] then was
    else LastPromoted(Next(s, steps[0]), steps[1..], site,
                      if Promotes(s, steps[0], site) then Some(ScanId(steps[0].job, steps[0].attempt)) else was)
  }

  function BaselineOf(s: State, site: SiteId): Option<ScanId> { if site in s.sites then s.sites[site].baseline else None }

  lemma StepMovesBaseline(s: State, step: Step, site: SiteId)
    requires Inv(s) && Allowed(s, step) && !Repeats(s, step)
    ensures BaselineOf(Next(s, step), site) ==
      if Promotes(s, step, site) then Some(ScanId(step.job, step.attempt)) else BaselineOf(s, site)
  {
    hide Next, Inv, Allowed;
    if step.Complete? {
      CompletionMovesSite(s, step, site);
    } else {
      OtherStepsTell(s, step);
    }
  }

  /** A completion that does not end a current job of the site leaves the site's row as it is. */
  lemma CompletionMovesSite(s: State, step: Step, site: SiteId)
    requires Inv(s) && step.Complete? && !Repeats(s, step)
    ensures var t := Next(s, step);
      if Ends(s, step.job, step.token) && step.job.site == site then
        && site in t.sites && step.job in t.jobs
        && SiteMoves(s.sites[site], t.sites[site], s.jobs[step.job], ScanId(step.job, step.attempt), step.outcome, step.scan, step.now)
      else (site in t.sites <==> site in s.sites) && (site in s.sites ==> t.sites[site] == s.sites[site])
  {
    hide SiteMoves, JobMoves, Finish;
    if !Holds(s, step.job, step.token) {
      StaleCompletionIsIdle(s, step.job, step.token, step.attempt, step.outcome, step.scan, step.now);
    } else if Ends(s, step.job, step.token) {
      CompletionTells(s, step.job, step.token, step.attempt, step.outcome, step.scan, step.now);
    } else {
      CompletionLands(s, step.job, step.token, step.attempt, step.outcome, step.scan, step.now);
    }
  }

  /** The baseline pointer is the scan that a success of the then current schedule promoted last. */
  lemma {:induction false} BaselineIsLastPromoted(s: State, steps: seq<Step>, site: SiteId)
    requires Inv(s) && Legal(s, steps)
    ensures BaselineOf(After(s, steps), site) == LastPromoted(s, steps, site, BaselineOf(s, site))
    decreases steps
  {
    if steps != [] {
      hide Inv, Allowed, Next, Promotes, BaselineOf;
      StepKeepsInv(s, steps[0]);
      StepMovesBaseline(s, steps[0], site);
      BaselineIsLastPromoted(Next(s, steps[0]), steps[1..], site);
    }
  }

  // ---------- the error streak over whole runs ----------

  /** A live job of the current schedule started from the streak there still is. */
  ghost predicate StreaksFit(s: State) {
    forall id :: id in s.jobs && s.jobs[id].Live() && id.site in s.sites && s.sites[id.site].version == id.version ==>
      s.jobs[id].baseErrorStreak == s.sites[id.site].errorStreak
  }

  predicate Dies(s: State, step: Step, site: SiteId) {
    step.Complete? && step.job.site == site && Ends(s, step.job, step.token) && step.outcome.Death?
  }

  predicate Succeeds(s: State, step: Step, site: SiteId) {
    step.Complete? && step.job.site == site && Ends(s, step.job, step.token) && step.outcome.Success?
  }

  /** The deaths of current jobs since the last success of one. */
  ghost function DeathsSinceSuccess(s: State, steps: seq<Step>, site: SiteId, was: nat): nat
    decreases steps
  {
    if steps == [] then was
    else DeathsSinceSuccess(Next(s, steps[0]), steps[1..], site,
                            if Succeeds(s, steps[0], site) then 0 else if Dies(s, steps[0], site) then was + 1 else was)
  }

  function StreakOf(s: State, site: SiteId): nat { if site in s.sites then s.sites[site].errorStreak else 0 }

  lemma CompletionKeepsStreaks(s: State, step: Step)
    requires Inv(s) && StreaksFit(s) && step.Complete? && !Repeats(s, step)
    ensures StreaksFit(Next(s, step))
  {
    var id, t := step.job, Next(s, step);
    if !Holds(s, id, step.token) {
      StaleCompletionIsIdle(s, id, step.token, step.attempt, step.outcome, step.scan, step.now);
    } else {
      CompletionLands(s, id, step.token, step.attempt, step.outcome, step.scan, step.now);
      FinishedMoves(s.jobs[id], step.outcome, step.now);
      forall j | j in t.jobs && t.jobs[j].Live() && j.site in t.sites && t.sites[j.site].version == j.version
        ensures t.jobs[j].baseErrorStreak == t.sites[j.site].errorStreak
      {
        CompletionMovesSite(s, step, j.site);
        if j != id && j.site == id.site && id.version == j.version { OneLiveJob(s, id, j); }
      }
    }
  }

  lemma CompletionMovesStreak(s: State, step: Step, site: SiteId)
    requires Inv(s) && StreaksFit(s) && step.Complete? && !Repeats(s, step)
    ensures StreakOf(Next(s, step), site) ==
      if Succeeds(s, step, site) then 0 else if Dies(s, step, site) then StreakOf(s, site) + 1 else StreakOf(s, site)
  {
    CompletionMovesSite(s, step, site);
    hide Next, Inv;
    if Ends(s, step.job, step.token) { assert s.jobs[step.job].Live(); }
  }

  lemma OtherStepsKeepStreaks(s: State, step: Step, site: SiteId)
    requires JobsFit(s) && StreaksFit(s) && Allowed(s, step) && !step.Complete?
    ensures StreaksFit(Next(s, step)) && StreakOf(Next(s, step), site) == StreakOf(s, site)
  {
    hide Next, Allowed;
    var t := Next(s, step);
    OtherStepsTell(s, step);
    forall j | j in t.jobs && t.jobs[j].Live() && j.site in t.sites && t.sites[j.site].version == j.version
      ensures t.jobs[j].baseErrorStreak == t.sites[j.site].errorStreak
    {
      if j in s.jobs { assert JobFits(j, s.jobs[j], s.sites[j.site]); }
    }
  }

  lemma StepKeepsStreaks(s: State, step: Step, site: SiteId)
    requires Inv(s) && StreaksFit(s) && Allowed(s, step) && !Repeats(s, step)
    ensures StreaksFit(Next(s, step))
    ensures StreakOf(Next(s, step), site) ==
      if Succeeds(s, step, site) then 0 else if Dies(s, step, site) then StreakOf(s, site) + 1 else StreakOf(s, site)
  {
    if step.Complete? {
      hide StreaksFit, Next, Succeeds, Dies;
      CompletionKeepsStreaks(s, step);
      CompletionMovesStreak(s, step, site);
    } else {
      hide StreaksFit, Next;
      OtherStepsKeepStreaks(s, step, site);
    }
  }

  /** The error streak counts the current jobs that died since one succeeded. */
  lemma {:induction false} StreakCountsDeaths(s: State, steps: seq<Step>, site: SiteId)
    requires Inv(s) && StreaksFit(s) && Legal(s, steps)
    ensures StreakOf(After(s, steps), site) == DeathsSinceSuccess(s, steps, site, StreakOf(s, site))
    decreases steps
  {
    if steps != [] {
      hide Inv, Allowed, Next, Succeeds, Dies, StreakOf, StreaksFit;
      StepKeepsInv(s, steps[0]);
      StepKeepsStreaks(s, steps[0], site);
      StreakCountsDeaths(Next(s, steps[0]), steps[1..], site);
    }
  }

  /** So it is for every run from the empty ledger. */
  lemma SiteTellsItsRun(steps: seq<Step>, site: SiteId)
    requires Legal(EmptyState(), steps)
    ensures var s := After(EmptyState(), steps);
      && BaselineOf(s, site) == LastPromoted(EmptyState(), steps, site, None)
      && StreakOf(s, site) == DeathsSinceSuccess(EmptyState(), steps, site, 0)
  {
    BaselineIsLastPromoted(EmptyState(), steps, site);
    StreakCountsDeaths(EmptyState(), steps, site);
  }
}
