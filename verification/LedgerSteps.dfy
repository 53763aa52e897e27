/** What each statement of the ledger leaves of every row, field by field. */
module LedgerSteps {
  import opened Prelude
  import opened Ledger

  /** Only the row of one site may differ. */
  predicate OnlySite(s: State, t: State, id: SiteId) {
    && t.jobs == s.jobs && t.scans == s.scans && t.runs == s.runs && t.dispatched == s.dispatched && t.leases == s.leases
    && id in t.sites && t.sites == s.sites[id := t.sites[id]]
  }

  /** Rescheduled: a new version, due at once, no dispatch in force. */
  predicate Rescheduled(was: Site, row: Site, now: int) {
    row.version == was.version + 1 && row.nextCheck == now && row.dispatch.None? && row.dispatchExpires.None?
  }

  predicate KeepsHistory(was: Site, row: Site) {
    && row.errorStreak == was.errorStreak && row.baseline == was.baseline
    && row.times.lastAttempt == was.times.lastAttempt && row.times.lastSuccess == was.times.lastSuccess
  }

  /** A registration: a new active site, due now, or a reconfiguration, or nothing. */
  lemma RegistrationTells(s: State, id: SiteId, homepage: string, interval: Option<int>, now: int)
    ensures var t := EnsureSite(s, id, homepage, interval, now);
      var seconds := if interval.Some? && interval.value != 0 then interval.value else 21600;
      if id !in s.sites then
        && OnlySite(s, t, id)
        && t.sites[id] == Site(homepage, seconds, Active, 1, now, None, None, 0, None, SiteTimes(None, None, now))
      else if s.sites[id].homepage != homepage || (interval.Some? && s.sites[id].interval != seconds) then
        var was, row := s.sites[id], t.sites[id];
        && OnlySite(s, t, id) && Rescheduled(was, row, now) && KeepsHistory(was, row) && row.status == was.status
        && row.homepage == homepage && row.interval == (if interval.Some? then seconds else was.interval)
      else t == s
  {
  }

  /** A change of status from the expected one: a new version, due at once if the site becomes active. */
  lemma StatusChangeTells(s: State, id: SiteId, status: SiteStatus, from: SiteStatus, now: int)
    ensures var t := SetSiteStatus(s, id, status, from, now);
      if id in s.sites && s.sites[id].status == from && status != from then
        var was, row := s.sites[id], t.sites[id];
        && OnlySite(s, t, id) && row.status == status && row.version == was.version + 1 && KeepsHistory(was, row)
        && row.nextCheck == (if status == Active then now else was.nextCheck) && row.dispatch.None? && row.dispatchExpires.None?
        && row.homepage == was.homepage && row.interval == was.interval
      else t == s
  {
  }

  /** No token twice, and none that was ever issued. */
  ghost predicate Unseen<K(!new)>(s: State, grants: map<K, Token>) {
    && (forall k, l :: k in grants && l in grants && grants[k] == grants[l] ==> k == l)
    && forall k :: k in grants ==> grants[k] !in s.dispatched && grants[k] !in s.leases
  }

  /** A dispatch: only active sites that are due and not dispatched; each under its own token, recorded with its slot. */
  lemma DispatchTells(s: State, grants: map<SiteId, Token>, owner: string, duration: int, limit: nat, now: int)
    requires MayDispatch(s, grants, limit, now)
    ensures var t := ClaimDueSites(s, grants, owner, duration, now);
      && t.jobs == s.jobs && t.scans == s.scans && t.runs == s.runs && t.leases == s.leases && t.sites.Keys == s.sites.Keys
      && |grants| <= limit
      && forall id :: id in s.sites ==>
           if id in grants then
             var was, row := s.sites[id], t.sites[id];
             && was.status == Active && was.nextCheck <= now && (was.dispatchExpires.Some? ==> was.dispatchExpires.value <= now)
             && row == was.(dispatch := Some(Dispatcher(owner, grants[id])), dispatchExpires := Some(now + duration), times := row.times)
             && row.times == was.times.(updatedAt := now)
           else t.sites[id] == s.sites[id]
  {
  }

  lemma DispatchRecordsTell(s: State, grants: map<SiteId, Token>, owner: string, duration: int, limit: nat, now: int, id: SiteId)
    requires MayDispatch(s, grants, limit, now) && id in grants
    ensures var t := ClaimDueSites(s, grants, owner, duration, now);
      grants[id] !in s.dispatched && grants[id] in t.dispatched
      && t.dispatched[grants[id]] == DueSite(id, s.sites[id].nextCheck, s.sites[id].version)
  {
    assert grants[id] in grants.Values;
  }

  /** A slot gets its job only under the site's own dispatch token and version, and once. */
  lemma EnqueueTells(s: State, due: DueSite, token: Token, maxAttempts: nat, now: int)
    ensures var t, id := EnsureJob(s, due, token, maxAttempts, now), JobId(due.site, due.scheduledFor, due.version);
      if due.site in s.sites && s.sites[due.site].version == due.version && s.sites[due.site].dispatch.Some? &&
         s.sites[due.site].dispatch.value.token == token && id !in s.jobs
      then
        t == s.(jobs := s.jobs[id := Job(Pending, 0, maxAttempts, s.sites[due.site].errorStreak, now, None, None, now,
                                         JobNotes(None, None, None, now))])
      else t == s
  {
  }

  /** A job that may be claimed: of the current schedule of an active site; waiting with attempts left, or run out of its lease. */
  predicate MayRun(s: State, id: JobId, now: int) {
    && id in s.jobs && id.site in s.sites && s.sites[id.site].status == Active && s.sites[id.site].version == id.version
    && var row := s.jobs[id];
       if row.status == Running then row.lease.Some? && row.lease.value.expires <= now
       else (row.status == Pending || row.status == Retry) && row.attempts < row.maxAttempts && row.availableAt <= now
  }

  /** Who may be dispatched and who may be claimed, exactly: as many as the limit, eligible, each under a token never seen. */
  lemma GrantsTell(s: State, sites: map<SiteId, Token>, jobs: map<JobId, Token>, limit: nat, now: int)
    ensures MayDispatch(s, sites, limit, now) <==>
      && |sites| <= limit && Unseen(s, sites)
      && forall id :: id in sites ==>
           && id in s.sites && s.sites[id].status == Active && s.sites[id].nextCheck <= now
           && !(s.sites[id].dispatchExpires.Some? && s.sites[id].dispatchExpires.value > now)
    ensures MayClaim(s, jobs, limit, now) <==> |jobs| <= limit && Unseen(s, jobs) && forall id :: id in jobs ==> MayRun(s, id, now)
  {
    assert forall id :: Claimable(s, id, now) <==> MayRun(s, id, now);
  }

  /** A claim only touches jobs: each granted one may run, and runs under a new lease as one more attempt. */
  lemma ClaimTells(s: State, grants: map<JobId, Token>, owner: string, duration: int, limit: nat, now: int)
    requires MayClaim(s, grants, limit, now)
    ensures var t := ClaimJobs(s, grants, owner, duration, now);
      && t.sites == s.sites && t.scans == s.scans && t.runs == s.runs && t.dispatched == s.dispatched && t.jobs.Keys == s.jobs.Keys
      && |grants| <= limit && forall id :: id in s.jobs && id !in grants ==> t.jobs[id] == s.jobs[id]
  {
    hide FreshTokens, LeaseRecords, Claimable, Claimed;
  }

  lemma ClaimedJobTells(s: State, grants: map<JobId, Token>, owner: string, duration: int, limit: nat, now: int, id: JobId)
    requires MayClaim(s, grants, limit, now) && id in grants
    ensures MayRun(s, id, now)
    ensures var t := ClaimJobs(s, grants, owner, duration, now);
      id in t.jobs
      && var was, row := s.jobs[id], t.jobs[id];
         && row.status == Running && row.attempts == was.attempts + 1 && row.maxAttempts == was.maxAttempts
         && row.lease == Some(Holder(owner, grants[id], now + duration)) && row.finishedAt.None?
         && row.baseErrorStreak == was.baseErrorStreak && row.availableAt == was.availableAt
         && row.notes == was.notes.(startedAt := Some(now), lastError := None)
  {
    hide FreshTokens, LeaseRecords;
    assert Claimable(s, id, now);
  }

  lemma RenewalTells(s: State, id: JobId, token: Token, owner: string, duration: int, now: int)
    ensures var t := RenewLease(s, id, token, owner, duration, now);
      var holds := id in s.jobs && s.jobs[id].status == Running && s.jobs[id].lease.Some?
                   && s.jobs[id].lease.value.token == token && s.jobs[id].lease.value.owner == owner;
      if holds then
        && t.sites == s.sites && t.scans == s.scans && t.runs == s.runs && t.dispatched == s.dispatched
        && t.jobs == s.jobs[id := s.jobs[id].(lease := Some(Holder(owner, token, now + duration)), updatedAt := now)]
      else t == s
  {
  }

  /** A run is recorded once; a second row of the same id is ignored. */
  lemma RecordingTells(s: State, id: RunId, run: Run)
    ensures var t := RecordRun(s, id, run);
      && t.sites == s.sites && t.jobs == s.jobs && t.scans == s.scans && t.dispatched == s.dispatched && t.leases == s.leases
      && t.runs == (if id in s.runs then s.runs else s.runs[id := run])
  {
  }

  // ---------- maintenance ----------

  /** A job no claim will take again: not of the current schedule of an active site, or for a slot already past. */
  predicate Outdated(s: State, id: JobId) {
    && id in s.jobs && id.site in s.sites
    && (s.jobs[id].status == Pending || s.jobs[id].status == Retry || s.jobs[id].status == Running)
    && (s.sites[id.site].status != Active || s.sites[id.site].version != id.version || id.scheduledFor < s.sites[id.site].nextCheck)
  }

  /** A pass expires outdated jobs as superseded, and otherwise only deletes the rows it picked. */
  lemma MaintenanceTells(s: State, sweep: Sweep, c: Cutoffs, limit: nat, now: int)
    requires MaySweep(s, sweep, c, limit, now)
    ensures var t := Maintain(s, sweep, now);
      && t.sites == s.sites && t.dispatched == s.dispatched
      && t.runs == s.runs - sweep.runs && t.scans == s.scans - sweep.scans && t.jobs.Keys == s.jobs.Keys - sweep.jobs
      && forall id :: id in t.jobs ==>
           if id in sweep.expire then
             var was := s.jobs[id];
             && Outdated(s, id)
             && t.jobs[id] == was.(status := Dead, lease := None, finishedAt := Some(now), updatedAt := now,
                                   notes := was.notes.(lastError := Some("superseded_schedule"), deadLetterAt := Some(now)))
           else t.jobs[id] == s.jobs[id]
  {
    hide PrunableRun, PrunableScan, PrunableJob;
    assert forall id :: id in sweep.expire ==> Expirable(s, id) && Outdated(s, id);
  }

  /** Only old rows that tell nothing any more go: runs that changed nothing, scans nothing refers to, ended jobs without a scan. */
  lemma PrunedRunTells(s: State, sweep: Sweep, c: Cutoffs, limit: nat, now: int, run: RunId)
    requires MaySweep(s, sweep, c, limit, now) && run in sweep.runs
    ensures run in s.runs && s.runs[run].createdAt < c.run && s.runs[run].result != Baseline && s.runs[run].result != Changed
  {
    hide Expirable, PrunableScan, PrunableJob;
    assert PrunableRun(ExpireJobs(s, sweep.expire, now), run, c.run);
  }

  lemma PrunedScanTells(s: State, sweep: Sweep, c: Cutoffs, limit: nat, now: int, scan: ScanId)
    requires MaySweep(s, sweep, c, limit, now) && scan in sweep.scans
    ensures
      && scan in s.scans && s.scans[scan].createdAt < c.scan
      && s.scans[scan].verdict != ResourceSetChanged && s.scans[scan].verdict != PossibleMigration
      && (forall site :: site in s.sites ==> s.sites[site].baseline != Some(scan))
      && (forall other :: other in s.scans ==> s.scans[other].baseline != Some(scan))
      && (forall run :: run in s.runs && run !in sweep.runs && s.runs[run].scan == Some(scan) ==>
            s.runs[run].result != Baseline && s.runs[run].result != Changed)
  {
    hide Expirable, PrunableRun, PrunableJob;
    var dropped := DropRuns(ExpireJobs(s, sweep.expire, now), sweep.runs);
    assert PrunableScan(dropped, scan, c.scan);
    forall run | run in s.runs && run !in sweep.runs && s.runs[run].scan == Some(scan)
      ensures s.runs[run].result != Baseline && s.runs[run].result != Changed
    {
      assert dropped.runs[run] == s.runs[run];
    }
  }

  lemma PrunedJobTells(s: State, sweep: Sweep, c: Cutoffs, limit: nat, now: int, id: JobId)
    requires MaySweep(s, sweep, c, limit, now) && id in sweep.jobs
    ensures
      && id in s.jobs && (s.jobs[id].status == Succeeded || s.jobs[id].status == Dead || id in sweep.expire)
      && (if id in sweep.expire then now else s.jobs[id].updatedAt) < c.job
      && forall scan :: scan in s.scans && scan !in sweep.scans ==> scan.job != id
  {
    hide Expirable, PrunableRun, PrunableScan;
    assert PrunableJob(DropScans(DropRuns(ExpireJobs(s, sweep.expire, now), sweep.runs), sweep.scans), id, c.job);
  }

  /** Which rows a pass may expire or pick, each exactly. */
  lemma PrunablesTell(s: State, run: RunId, scan: ScanId, id: JobId, cutoff: int)
    ensures Expirable(s, id) <==> Outdated(s, id)
    ensures PrunableRun(s, run, cutoff) <==>
      run in s.runs && s.runs[run].createdAt < cutoff && s.runs[run].result != Baseline && s.runs[run].result != Changed
    ensures PrunableScan(s, scan, cutoff) <==>
      && scan in s.scans && s.scans[scan].createdAt < cutoff
      && s.scans[scan].verdict != ResourceSetChanged && s.scans[scan].verdict != PossibleMigration
      && (forall other :: other in s.scans ==> s.scans[other].baseline != Some(scan))
      && (forall site :: site in s.sites ==> s.sites[site].baseline != Some(scan))
      && (forall r :: r in s.runs && s.runs[r].scan == Some(scan) ==> s.runs[r].result != Baseline && s.runs[r].result != Changed)
    ensures PrunableJob(s, id, cutoff) <==>
      && id in s.jobs && s.jobs[id].updatedAt < cutoff && (s.jobs[id].status == Succeeded || s.jobs[id].status == Dead)
      && forall other :: other in s.scans ==> other.job != id
  {
  }
}
