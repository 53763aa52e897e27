/** The inductive invariant of the job ledger and what follows from it. */
module LedgerSafety {
  import opened Prelude
  import opened Ledger
  import opened LedgerRun

  /**
   A job against its site's row.  A live job of the current schedule is the job of the next
   check, and the site is active; a finished one lies before the next check.
   */
  predicate JobFits(id: JobId, row: Job, site: Site) {
    && id.version <= site.version
    && (row.status.Running? <==> row.lease.Some?)
    && (id.version == site.version && row.Live() ==> id.scheduledFor == site.nextCheck && site.status.Active?)
    && (id.version == site.version && row.Terminal() ==> id.scheduledFor < site.nextCheck)
  }

  ghost predicate JobsFit(s: State) {
    forall id :: id in s.jobs ==> id.site in s.sites && JobFits(id, s.jobs[id], s.sites[id.site])
  }

  /** The dispatch token in a site row was issued for exactly that row's next check. */
  ghost predicate TokenFits(id: SiteId, row: Site, dispatched: map<Token, DueSite>) {
    row.dispatch.Some? ==>
      && row.dispatch.value.token in dispatched
      && dispatched[row.dispatch.value.token] == DueSiteOf(id, row)
      && row.status.Active?
  }

  ghost predicate TokensFit(s: State) {
    forall id :: id in s.sites ==> TokenFits(id, s.sites[id], s.dispatched)
  }

  /** Baseline pointers, of sites and of scans, lead to committed scans. */
  ghost predicate PointerFits(id: SiteId, row: Site, scans: map<ScanId, Scan>) {
    row.baseline.Some? ==> row.baseline.value in scans && row.baseline.value.job.site == id
  }

  ghost predicate PointersFit(s: State) {
    forall id :: id in s.sites ==> PointerFits(id, s.sites[id], s.scans)
  }

  ghost predicate ScanFits(id: ScanId, s: State)
    requires id in s.scans
  {
    id.job in s.jobs && (s.scans[id].baseline.Some? ==> s.scans[id].baseline.value in s.scans)
  }

  ghost predicate ScansFit(s: State) {
    forall id :: id in s.scans ==> ScanFits(id, s)
  }

  ghost predicate Inv(s: State) {
    JobsFit(s) && TokensFit(s) && PointersFit(s) && ScansFit(s)
  }

  // ---------- what a change of one site row may do ----------

  /** A new schedule version, which frees the site of all its earlier jobs. */
  predicate Superseded(before: Site, after: Site) { after.version > before.version && after.dispatch.None? }

  lemma SupersedeKeepsInv(s: State, id: SiteId, row: Site)
    requires Inv(s) && id in s.sites
    requires Superseded(s.sites[id], row) && row.baseline == s.sites[id].baseline
    ensures Inv(s.(sites := s.sites[id := row]))
  {
    var t := s.(sites := s.sites[id := row]);
    forall j | j in t.jobs ensures j.site in t.sites && JobFits(j, t.jobs[j], t.sites[j.site]) {
      assert JobFits(j, s.jobs[j], s.sites[j.site]);
    }
    forall k | k in t.sites ensures TokenFits(k, t.sites[k], t.dispatched) && PointerFits(k, t.sites[k], t.scans) {
      assert TokenFits(k, s.sites[k], s.dispatched) && PointerFits(k, s.sites[k], s.scans);
    }
    forall c | c in t.scans ensures ScanFits(c, t) { assert ScanFits(c, s); }
  }

  lemma RegisterKeepsInv(s: State, id: SiteId, homepage: string, interval: Option<int>, now: int)
    requires Inv(s)
    ensures Inv(EnsureSite(s, id, homepage, interval, now))
  {
    var t := EnsureSite(s, id, homepage, interval, now);
    if id !in s.sites {
      forall j | j in t.jobs ensures j.site in t.sites && JobFits(j, t.jobs[j], t.sites[j.site]) {
        assert JobFits(j, s.jobs[j], s.sites[j.site]);
      }
      forall k | k in t.sites ensures TokenFits(k, t.sites[k], t.dispatched) && PointerFits(k, t.sites[k], t.scans) {
        assert k != id ==> TokenFits(k, s.sites[k], s.dispatched) && PointerFits(k, s.sites[k], s.scans);
      }
      forall c | c in t.scans ensures ScanFits(c, t) { assert ScanFits(c, s); }
    } else if Reconfigures(s.sites[id], homepage, interval) {
      SupersedeKeepsInv(s, id, Reconfigured(s.sites[id], homepage, interval, now));
    }
  }

  lemma SwitchKeepsInv(s: State, id: SiteId, status: SiteStatus, from: SiteStatus, now: int)
    requires Inv(s)
    ensures Inv(SetSiteStatus(s, id, status, from, now))
  {
    var t := SetSiteStatus(s, id, status, from, now);
    if t != s {
      SupersedeKeepsInv(s, id, t.sites[id]);
    }
  }

  lemma DispatchKeepsInv(s: State, grants: map<SiteId, Token>, owner: string, duration: int, limit: nat, now: int)
    requires Inv(s) && MayDispatch(s, grants, limit, now)
    ensures Inv(ClaimDueSites(s, grants, owner, duration, now))
  {
    var t := ClaimDueSites(s, grants, owner, duration, now);
    forall j | j in t.jobs ensures j.site in t.sites && JobFits(j, t.jobs[j], t.sites[j.site]) {
      assert JobFits(j, s.jobs[j], s.sites[j.site]);
    }
    forall k | k in t.sites ensures TokenFits(k, t.sites[k], t.dispatched) && PointerFits(k, t.sites[k], t.scans) {
      assert TokenFits(k, s.sites[k], s.dispatched) && PointerFits(k, s.sites[k], s.scans);
      if k in grants {
        assert Due(s.sites[k], now);
        assert DispatchRecords(s.sites, grants)[grants[k]] == DueSiteOf(k, s.sites[k]);
      } else if t.sites[k].dispatch.Some? {
        assert t.sites[k].dispatch.value.token !in DispatchRecords(s.sites, grants);
      }
    }
    forall c | c in t.scans ensures ScanFits(c, t) { assert ScanFits(c, s); }
  }

  lemma EnqueueKeepsInv(s: State, token: Token, maxAttempts: nat, now: int)
    requires Inv(s) && token in s.dispatched
    ensures Inv(EnsureJob(s, s.dispatched[token], token, maxAttempts, now))
  {
    var due := s.dispatched[token];
    var t := EnsureJob(s, due, token, maxAttempts, now);
    if t != s {
      assert TokenFits(due.site, s.sites[due.site], s.dispatched);
      forall j | j in t.jobs ensures j.site in t.sites && JobFits(j, t.jobs[j], t.sites[j.site]) {
        assert j in s.jobs ==> JobFits(j, s.jobs[j], s.sites[j.site]);
      }
      forall c | c in t.scans ensures ScanFits(c, t) { assert ScanFits(c, s); }
    }
  }

  lemma ClaimedRowsFit(s: State, rows: map<JobId, Job>, grants: map<JobId, Token>, owner: string, expires: int, now: int)
    requires JobsFit(s) && forall j :: j in grants ==> j in s.jobs && s.jobs[j].Live()
    requires rows.Keys == s.jobs.Keys
    requires forall j :: j in rows ==>
               rows[j] == (if j in grants then Claimed(s.jobs[j], grants[j], owner, expires, now) else s.jobs[j])
    ensures forall j :: j in rows ==> j.site in s.sites && JobFits(j, rows[j], s.sites[j.site])
  {
    forall j | j in rows ensures j.site in s.sites && JobFits(j, rows[j], s.sites[j.site]) {
      assert JobFits(j, s.jobs[j], s.sites[j.site]);
    }
  }

  /** Scans stay anchored while the jobs keep their ids. */
  lemma ScansFitJobs(s: State, t: State)
    requires ScansFit(s) && t.scans == s.scans && forall j :: j in s.jobs ==> j in t.jobs
    ensures ScansFit(t)
  {
    forall c | c in t.scans ensures ScanFits(c, t) { assert ScanFits(c, s); }
  }

  lemma ClaimKeepsInv(s: State, grants: map<JobId, Token>, owner: string, duration: int, limit: nat, now: int)
    requires Inv(s) && MayClaim(s, grants, limit, now)
    ensures Inv(ClaimJobs(s, grants, owner, duration, now))
  {
    forall j | j in grants ensures j in s.jobs && s.jobs[j].Live() { assert Claimable(s, j, now); }
    ClaimedRowsFit(s, ClaimedRows(s.jobs, grants, owner, now + duration, now), grants, owner, now + duration, now);
    ScansFitJobs(s, ClaimJobs(s, grants, owner, duration, now));
  }

  lemma RenewKeepsInv(s: State, id: JobId, token: Token, owner: string, duration: int, now: int)
    requires Inv(s)
    ensures Inv(RenewLease(s, id, token, owner, duration, now))
  {
    var t := RenewLease(s, id, token, owner, duration, now);
    if t != s {
      forall j | j in t.jobs ensures j.site in t.sites && JobFits(j, t.jobs[j], t.sites[j.site]) {
        assert JobFits(j, s.jobs[j], s.sites[j.site]);
      }
      ScansFitJobs(s, t);
    }
  }

  /** A completion that does not hold the lease, and repeats no finish instant, changes nothing. */
  lemma StaleCompletionIsIdle(s: State, id: JobId, token: Token, attempt: nat, outcome: Outcome, scan: Option<Scan>, at: int)
    requires !Holds(s, id, token) && !FinishedAs(s, id, outcome, at)
    ensures Finish(s, id, token, attempt, outcome, scan, at) == s
  {
  }

  /** A live job shares its current schedule with no other live job of the site. */
  lemma OneLiveJob(s: State, a: JobId, b: JobId)
    requires Inv(s) && a in s.jobs && b in s.jobs && s.jobs[a].Live() && s.jobs[b].Live()
    requires a.site == b.site && a.version == b.version == s.sites[a.site].version
    ensures a == b
  {
    assert JobFits(a, s.jobs[a], s.sites[a.site]) && JobFits(b, s.jobs[b], s.sites[b.site]);
  }

  /** A completion that holds the lease, table by table. */
  ghost predicate Landed(s: State, t: State, id: JobId, attempt: nat, outcome: Outcome, scan: Option<Scan>, at: int) {
    && id in s.jobs && id.site in s.sites
    && t.jobs == s.jobs[id := Finished(s.jobs[id], outcome, at)]
    && t.scans == (if scan.Some? && ScanId(id, attempt) !in s.scans then s.scans[ScanId(id, attempt) := scan.value] else s.scans)
    && t.sites == (if s.sites[id.site].version == id.version
                   then s.sites[id.site := Advanced(s.sites[id.site], id, s.jobs[id], attempt, outcome, scan, at)]
                   else s.sites)
    && t.dispatched == s.dispatched && t.runs == s.runs && t.clock == s.clock
  }

  lemma FinishedIsFinal(row: Job, outcome: Outcome, at: int)
    ensures Finished(row, outcome, at).status == FinalStatus(outcome)
    ensures Finished(row, outcome, at).finishedAt == Some(at)
    ensures Finished(row, outcome, at).lease.None?
  {
  }

  lemma CompletionLands(s: State, id: JobId, token: Token, attempt: nat, outcome: Outcome, scan: Option<Scan>, at: int)
    requires JobsFit(s) && Holds(s, id, token)
    ensures Landed(s, Finish(s, id, token, attempt, outcome, scan, at), id, attempt, outcome, scan, at)
  {
    FinishedIsFinal(s.jobs[id], outcome, at);
    var landed := LandCompletion(s, id, token, outcome, at);
    assert FinishedAs(landed, id, outcome, at);
    var inserted := InsertScan(landed, ScanId(id, attempt), scan);
    assert inserted.jobs == landed.jobs && inserted.sites == s.sites;
    assert JobFits(id, s.jobs[id], s.sites[id.site]);
    StreakIgnoresCompletion(s.sites[id.site], id, s.jobs[id], attempt, outcome, scan, at);
  }

  lemma StreakIgnoresCompletion(site: Site, id: JobId, row: Job, attempt: nat, outcome: Outcome, scan: Option<Scan>, at: int)
    ensures Advanced(site, id, Finished(row, outcome, at), attempt, outcome, scan, at)
         == Advanced(site, id, row, attempt, outcome, scan, at)
  {
  }

  /** What a completion may do to its site: it keeps the version, and a moved check drops the token. */
  predicate Advances(before: Site, after: Site, id: JobId, attempt: nat, outcome: Outcome) {
    && after.version == before.version && after.status == before.status
    && (if outcome.TryAgain?
        then after.nextCheck == before.nextCheck && after.dispatch == before.dispatch
        else after.nextCheck == outcome.nextCheck && after.dispatch.None?)
    && (after.baseline == before.baseline || after.baseline == Some(ScanId(id, attempt)))
  }

  lemma AdvancedAdvances(site: Site, id: JobId, row: Job, attempt: nat, outcome: Outcome, scan: Option<Scan>, at: int)
    ensures Advances(site, Advanced(site, id, row, attempt, outcome, scan, at), id, attempt, outcome)
    ensures Advanced(site, id, row, attempt, outcome, scan, at).baseline != site.baseline ==> scan.Some?
  {
  }

  lemma CompletionKeepsJobs(s: State, t: State, id: JobId, attempt: nat, outcome: Outcome, scan: Option<Scan>, at: int)
    requires JobsFit(s) && Landed(s, t, id, attempt, outcome, scan, at) && s.jobs[id].Live()
    requires outcome.TryAgain? || outcome.nextCheck > id.scheduledFor
    ensures JobsFit(t)
  {
    AdvancedAdvances(s.sites[id.site], id, s.jobs[id], attempt, outcome, scan, at);
    forall j | j in t.jobs ensures j.site in t.sites && JobFits(j, t.jobs[j], t.sites[j.site]) {
      assert JobFits(j, s.jobs[j], s.sites[j.site]) && JobFits(id, s.jobs[id], s.sites[id.site]);
      assert j != id && j.site == id.site && j.version == id.version ==> j.scheduledFor != id.scheduledFor;
    }
  }

  lemma CompletionKeepsSites(s: State, t: State, id: JobId, attempt: nat, outcome: Outcome, scan: Option<Scan>, at: int)
    requires TokensFit(s) && PointersFit(s) && Landed(s, t, id, attempt, outcome, scan, at)
    ensures TokensFit(t) && PointersFit(t)
  {
    AdvancedAdvances(s.sites[id.site], id, s.jobs[id], attempt, outcome, scan, at);
    forall k | k in t.sites ensures TokenFits(k, t.sites[k], t.dispatched) && PointerFits(k, t.sites[k], t.scans) {
      assert TokenFits(k, s.sites[k], s.dispatched) && PointerFits(k, s.sites[k], s.scans);
    }
  }

  lemma CompletionKeepsScans(s: State, t: State, id: JobId, attempt: nat, outcome: Outcome, scan: Option<Scan>, at: int)
    requires ScansFit(s) && Landed(s, t, id, attempt, outcome, scan, at)
    requires scan.Some? && scan.value.baseline.Some? ==> scan.value.baseline.value in s.scans
    ensures ScansFit(t)
  {
    forall c | c in t.scans ensures ScanFits(c, t) {
      assert c in s.scans ==> ScanFits(c, s);
    }
  }

  lemma CompleteKeepsInv(s: State, id: JobId, token: Token, attempt: nat, outcome: Outcome, scan: Option<Scan>, at: int)
    requires Inv(s) && Allowed(s, Complete(id, token, attempt, outcome, scan, at))
    requires !FinishedAs(s, id, outcome, at)
    ensures Inv(Finish(s, id, token, attempt, outcome, scan, at))
  {
    if Holds(s, id, token) {
      var t := Finish(s, id, token, attempt, outcome, scan, at);
      CompletionLands(s, id, token, attempt, outcome, scan, at);
      CompletionKeepsJobs(s, t, id, attempt, outcome, scan, at);
      CompletionKeepsSites(s, t, id, attempt, outcome, scan, at);
      CompletionKeepsScans(s, t, id, attempt, outcome, scan, at);
    } else {
      StaleCompletionIsIdle(s, id, token, attempt, outcome, scan, at);
    }
  }

  lemma SweepKeepsInv(s: State, sweep: Sweep, c: Cutoffs, limit: nat, now: int)
    requires Inv(s) && MaySweep(s, sweep, c, limit, now)
    ensures Inv(Maintain(s, sweep, now))
  {
    var t := Maintain(s, sweep, now);
    var ready := DropRuns(ExpireJobs(s, sweep.expire, now), sweep.runs);
    var pruned := DropScans(ready, sweep.scans);
    forall j | j in t.jobs ensures j.site in t.sites && JobFits(j, t.jobs[j], t.sites[j.site]) {
      assert JobFits(j, s.jobs[j], s.sites[j.site]);
      assert j in sweep.expire ==> Expirable(s, j);
    }
    forall k | k in t.sites ensures PointerFits(k, t.sites[k], t.scans) {
      assert PointerFits(k, s.sites[k], s.scans);
      assert s.sites[k].baseline.Some? && s.sites[k].baseline.value in sweep.scans ==>
          PrunableScan(ready, s.sites[k].baseline.value, c.scan);
    }
    forall x | x in t.scans ensures ScanFits(x, t) {
      assert ScanFits(x, s);
      assert x.job in sweep.jobs ==> PrunableJob(pruned, x.job, c.job);
      assert s.scans[x].baseline.Some? && s.scans[x].baseline.value in sweep.scans ==>
          PrunableScan(ready, s.scans[x].baseline.value, c.scan);
    }
  }

  lemma StepKeepsInv(s: State, step: Step)
    requires Inv(s) && Allowed(s, step) && !Repeats(s, step)
    ensures Inv(Next(s, step))
  {
    assert Inv(Effect(s, step)) by {
      match step
      case Register(site, homepage, interval, now) => RegisterKeepsInv(s, site, homepage, interval, now);
      case Switch(site, status, from, now) => SwitchKeepsInv(s, site, status, from, now);
      case Dispatch(sites, owner, duration, limit, now) => DispatchKeepsInv(s, sites, owner, duration, limit, now);
      case Enqueue(token, maxAttempts, now) => EnqueueKeepsInv(s, token, maxAttempts, now);
      case Claim(jobs, owner, duration, limit, now) => ClaimKeepsInv(s, jobs, owner, duration, limit, now);
      case Renew(job, token, owner, duration, now) => RenewKeepsInv(s, job, token, owner, duration, now);
      case Complete(job, token, attempt, outcome, scan, now) =>
        CompleteKeepsInv(s, job, token, attempt, outcome, scan, now);
      case Record(runId, run, _) => RecordKeepsInv(s, runId, run);
      case Sweeping(sweep, c, limit, now) => SweepKeepsInv(s, sweep, c, limit, now);
    }
    ClockKeepsInv(Effect(s, step), Max(s.clock, step.now));
  }

  lemma RecordKeepsInv(s: State, id: RunId, run: Run)
    requires Inv(s)
    ensures Inv(RecordRun(s, id, run))
  {
    var t := RecordRun(s, id, run);
    forall c | c in t.scans ensures ScanFits(c, t) { assert ScanFits(c, s); }
  }

  lemma ClockKeepsInv(s: State, clock: int)
    requires Inv(s)
    ensures Inv(s.(clock := clock))
  {
    var t := s.(clock := clock);
    forall c | c in t.scans ensures ScanFits(c, t) { assert ScanFits(c, s); }
  }

  lemma {:induction false} RunKeepsInv(s: State, steps: seq<Step>)
    requires Inv(s) && Legal(s, steps)
    ensures Inv(After(s, steps))
    decreases steps
  {
    if steps != [] {
      StepKeepsInv(s, steps[0]);
      RunKeepsInv(Next(s, steps[0]), steps[1..]);
    }
  }
}
