/** The metadata store of sitemap_monitor/cloudflare.py as an object whose methods update its tables. */
module LedgerStore {
  import opened Prelude
  import opened Ledger

  datatype Fault = BadInterval | BadLease | BadMaxAttempts | BadLimit | BadCutoffs | ScanWithoutVerdict | NoNextCheck

  datatype Result<+T> = Ok(value: T) | Err(fault: Fault)

  /** What perform_maintenance reports. */
  datatype Swept = Swept(expired: nat, runs: nat, scans: nat, jobs: nat)

  lemma DispatchRecordsGrant(sites: map<SiteId, Site>, grants: map<SiteId, Token>)
    requires Injective(grants) && forall id :: id in grants ==> id in sites
    ensures var records := DispatchRecords(sites, grants);
      forall id :: id in grants ==> grants[id] in records && records[grants[id]] == DueSiteOf(id, sites[id])
  {
  }

  class MetadataStore {
    var sites: map<SiteId, Site>
    var jobs: map<JobId, Job>
    var scans: map<ScanId, Scan>
    var runs: map<RunId, Run>
    ghost var dispatched: map<Token, DueSite>
    ghost var leases: map<Token, Lease>
    ghost var clock: int

    ghost function View(): State
      reads this
    {
      State(sites, jobs, scans, runs, dispatched, leases, clock)
    }

    constructor ()
      ensures View() == EmptyState()
    {
      sites, jobs, scans, runs := map[], map[], map[], map[];
      dispatched, leases, clock := map[], map[], 0;
    }

    method EnsureSite(id: SiteId, homepage: string, interval: Option<int>, now: int) returns (r: Result<()>)
      modifies this
      ensures r.Err? <==> EffectiveInterval(interval) <= 0
      ensures View() == if r.Err? then old(View()) else Ledger.EnsureSite(old(View()), id, homepage, interval, now)
    {
      var effective := if interval.None? || interval.value == 0 then DEFAULT_INTERVAL else interval.value;
      if effective <= 0 { return Err(BadInterval); }
      if id !in sites {
        sites := sites[id := NewSite(homepage, interval, now)];
      } else {
        var row := sites[id];
        var moved := row.homepage != homepage || (interval.Some? && row.interval != effective);
        if moved {
          row := row.(homepage := homepage);
          if interval.Some? { row := row.(interval := effective); }
          row := row.(version := row.version + 1, nextCheck := now, dispatch := None, dispatchExpires := None);
          row := row.(times := row.times.(updatedAt := now));
          sites := sites[id := row];
        }
      }
      return Ok(());
    }

    method SetSiteStatus(id: SiteId, status: SiteStatus, from: SiteStatus, now: int)
      modifies this
      ensures View() == Ledger.SetSiteStatus(old(View()), id, status, from, now)
    {
      if status == from { return; }
      if id in sites && sites[id].status == from {
        var row := sites[id].(status := status, version := sites[id].version + 1);
        if status == Active { row := row.(nextCheck := now); }
        row := row.(dispatch := None, dispatchExpires := None, times := row.times.(updatedAt := now));
        sites := sites[id := row];
      }
    }

    /** `grants` is the database's choice of due rows and of a random token for each. */
    method ClaimDueSites(owner: string, duration: int, limit: int, now: int, grants: map<SiteId, Token>)
      returns (r: Result<map<SiteId, DueSite>>)
      requires duration > 0 && limit > 0 && owner != "" ==> MayDispatch(View(), grants, limit, now)
      modifies this
      ensures r.Err? <==> duration <= 0 || limit <= 0 || owner == ""
      ensures r.Err? ==> View() == old(View())
      ensures r.Ok? ==> View() == Ledger.ClaimDueSites(old(View()), grants, owner, duration, now)
      ensures r.Ok? ==> r.value.Keys == grants.Keys
      ensures r.Ok? ==> forall id :: id in grants ==> dispatched[grants[id]] == r.value[id]
    {
      if duration <= 0 || limit <= 0 || owner == "" { return Err(BadLease); }
      assert forall id :: id in grants ==> id in View().sites && Due(View().sites[id], now);
      var due := MarkDispatched(owner, duration, now, grants);
      return Ok(due);
    }

    method MarkDispatched(owner: string, duration: int, now: int, grants: map<SiteId, Token>)
      returns (due: map<SiteId, DueSite>)
      requires Injective(grants) && forall id :: id in grants ==> id in sites
      modifies this`sites, this`dispatched
      ensures View() == Ledger.ClaimDueSites(old(View()), grants, owner, duration, now)
      ensures due.Keys == grants.Keys
      ensures forall id :: id in grants ==> dispatched[grants[id]] == due[id]
    {
      due := map id | id in grants :: DueSiteOf(id, sites[id]);
      DispatchRecordsGrant(sites, grants);
      dispatched := dispatched + DispatchRecords(sites, grants);
      sites := DispatchedRows(sites, grants, owner, now + duration, now);
    }

    method EnsureJob(due: DueSite, token: Token, maxAttempts: int, now: int) returns (r: Result<Option<Job>>)
      modifies this
      ensures r.Err? <==> maxAttempts <= 0
      ensures View() == if r.Err? then old(View()) else Ledger.EnsureJob(old(View()), due, token, maxAttempts, now)
      ensures r.Ok? ==>
        var id := JobId(due.site, due.scheduledFor, due.version);
        r.value == if id in jobs && due.site in sites then Some(jobs[id]) else None
    {
      if maxAttempts <= 0 { return Err(BadMaxAttempts); }
      var id := JobId(due.site, due.scheduledFor, due.version);
      if due.site in sites && sites[due.site].version == due.version && Dispatches(sites[due.site], token) {
        if id !in jobs {
          jobs := jobs[id := NewJob(sites[due.site], maxAttempts, now)];
        }
      }
      if id in jobs && due.site in sites { return Ok(Some(jobs[id])); }
      return Ok(None);
    }

    /** `grants` is the database's choice of claimable rows and of a random token for each. */
    method ClaimJobs(owner: string, duration: int, limit: int, now: int, grants: map<JobId, Token>)
      returns (r: Result<map<JobId, Job>>)
      requires duration > 0 && limit > 0 && owner != "" ==> MayClaim(View(), grants, limit, now)
      modifies this
      ensures r.Err? <==> duration <= 0 || limit <= 0 || owner == ""
      ensures r.Err? ==> View() == old(View())
      ensures r.Ok? ==> View() == Ledger.ClaimJobs(old(View()), grants, owner, duration, now)
      ensures r.Ok? ==> r.value.Keys == grants.Keys
      ensures r.Ok? ==> forall id :: id in grants ==> id in jobs && jobs[id] == r.value[id]
    {
      if duration <= 0 || limit <= 0 || owner == "" { return Err(BadLease); }
      assert forall id :: id in grants ==> Claimable(View(), id, now);
      var rows := MarkClaimed(owner, duration, now, grants);
      return Ok(rows);
    }

    method MarkClaimed(owner: string, duration: int, now: int, grants: map<JobId, Token>) returns (rows: map<JobId, Job>)
      requires forall id :: id in grants ==> id in jobs
      modifies this`jobs, this`leases
      ensures View() == Ledger.ClaimJobs(old(View()), grants, owner, duration, now)
      ensures rows.Keys == grants.Keys
      ensures forall id :: id in grants ==> id in jobs && jobs[id] == rows[id]
    {
      jobs := ClaimedRows(jobs, grants, owner, now + duration, now);
      leases := leases + LeaseRecords(grants, now, now + duration);
      rows := map id | id in grants :: jobs[id];
    }

    method RenewJobLease(id: JobId, token: Token, owner: string, duration: int, now: int) returns (renewed: bool)
      modifies this
      ensures View() == Ledger.RenewLease(old(View()), id, token, owner, duration, now)
      ensures renewed <==> old(Holds(View(), id, token) && jobs[id].lease.value.owner == owner)
    {
      renewed := false;
      if id in jobs && jobs[id].status == Running && jobs[id].lease.Some? &&
         jobs[id].lease.value.owner == owner && jobs[id].lease.value.token == token
      {
        if token in leases { leases := leases[token := leases[token].(until := now + duration)]; }
        jobs := jobs[id := jobs[id].(lease := Some(Holder(owner, token, now + duration)), updatedAt := now)];
        renewed := true;
      }
    }

    /** The first statement of a completion batch. */
    method Land(id: JobId, token: Token, outcome: Outcome, at: int) returns (landed: bool)
      modifies this`jobs, this`leases
      ensures View() == LandCompletion(old(View()), id, token, outcome, at)
      ensures landed <==> old(Holds(View(), id, token))
    {
      landed := false;
      if id in jobs && jobs[id].status == Running && jobs[id].lease.Some? && jobs[id].lease.value.token == token {
        var row := jobs[id].(status := FinalStatus(outcome), finishedAt := Some(at));
        match outcome {
          case Success(_) =>
            row := row.(notes := row.notes.(lastError := None));
          case Death(_, available, error) =>
            row := row.(availableAt := available, notes := row.notes.(lastError := Some(error), deadLetterAt := Some(at)));
          case TryAgain(available, error) =>
            row := row.(availableAt := available, notes := row.notes.(lastError := Some(error), deadLetterAt := None));
        }
        row := row.(lease := None, updatedAt := at);
        leases := Released(leases, token, at);
        jobs := jobs[id := row];
        landed := true;
      }
    }

    /** The second statement: nothing on a conflict. */
    method InsertSiteScan(id: JobId, attempt: nat, outcome: Outcome, scan: Scan, at: int)
      modifies this`scans
      ensures View() == if FinishedAs(old(View()), id, outcome, at)
                        then InsertScan(old(View()), ScanId(id, attempt), Some(scan)) else old(View())
    {
      if id in jobs && jobs[id].status == FinalStatus(outcome) && jobs[id].finishedAt == Some(at) {
        if ScanId(id, attempt) !in scans {
          scans := scans[ScanId(id, attempt) := scan];
        }
      }
    }

    /** The last statement. */
    method UpdateSite(id: JobId, attempt: nat, outcome: Outcome, scan: Option<Scan>, at: int)
      modifies this`sites
      ensures View() == if FinishedAs(old(View()), id, outcome, at)
                        then AdvanceSite(old(View()), id, attempt, outcome, scan, at) else old(View())
    {
      if id.site in sites && sites[id.site].version == id.version &&
         id in jobs && jobs[id].status == FinalStatus(outcome) && jobs[id].finishedAt == Some(at)
      {
        var row := sites[id.site];
        match outcome {
          case Success(next) =>
            row := row.(nextCheck := next, times := SiteTimes(Some(at), Some(at), at), errorStreak := 0);
            row := row.(dispatch := None, dispatchExpires := None);
            if scan.Some? && scan.value.promoted { row := row.(baseline := Some(ScanId(id, attempt))); }
          case Death(next, _, _) =>
            row := row.(nextCheck := next, errorStreak := Max(row.errorStreak, jobs[id].baseErrorStreak + 1));
            row := row.(dispatch := None, dispatchExpires := None);
            row := row.(times := row.times.(lastAttempt := Some(at), updatedAt := at));
          case TryAgain(available, _) =>
            row := row.(dispatchExpires := Some(available), times := row.times.(lastAttempt := Some(at), updatedAt := at));
        }
        sites := sites[id.site := row];
      }
    }

    method FinishJobSuccess(id: JobId, token: Token, attempt: nat, at: int, nextCheck: int,
                            snapshot: bool, comparability: Option<Scan>) returns (r: Result<bool>)
      modifies this
      ensures r.Err? <==> snapshot != comparability.Some?
      ensures r.Err? ==> View() == old(View())
      ensures r.Ok? ==> View() == Ledger.Finish(old(View()), id, token, attempt, Success(nextCheck), comparability, at)
      ensures r.Ok? ==> (r.value <==> old(Holds(View(), id, token)))
    {
      if snapshot != comparability.Some? { return Err(ScanWithoutVerdict); }
      var landed := Land(id, token, Success(nextCheck), at);
      if comparability.Some? { InsertSiteScan(id, attempt, Success(nextCheck), comparability.value, at); }
      UpdateSite(id, attempt, Success(nextCheck), comparability, at);
      return Ok(landed);
    }

    method FinishJobFailure(id: JobId, token: Token, attempt: nat, at: int, available: int, dead: bool, error: string,
                            nextCheck: Option<int>, snapshot: bool, comparability: Option<Scan>) returns (r: Result<bool>)
      modifies this
      ensures r.Err? <==> snapshot != comparability.Some? || (dead && nextCheck.None?)
      ensures r.Err? ==> View() == old(View())
      ensures r.Ok? ==>
        var outcome := if dead then Death(nextCheck.value, available, error) else TryAgain(available, error);
        View() == Ledger.Finish(old(View()), id, token, attempt, outcome, comparability, at)
      ensures r.Ok? ==> (r.value <==> old(Holds(View(), id, token)))
    {
      if snapshot != comparability.Some? { return Err(ScanWithoutVerdict); }
      if dead && nextCheck.None? { return Err(NoNextCheck); }
      var outcome := if dead then Death(nextCheck.value, available, error) else TryAgain(available, error);
      var landed := Land(id, token, outcome, at);
      if comparability.Some? { InsertSiteScan(id, attempt, outcome, comparability.value, at); }
      UpdateSite(id, attempt, outcome, comparability, at);
      return Ok(landed);
    }

    method RecordRun(id: RunId, run: Run)
      modifies this
      ensures View() == Ledger.RecordRun(old(View()), id, run)
    {
      if id !in runs { runs := runs[id := run]; }
    }

    /** `sweep` is the database's choice of rows within the limit of each statement. */
    method PerformMaintenance(cutoffs: Cutoffs, limit: int, now: int, sweep: Sweep) returns (r: Result<Swept>)
      requires limit > 0 && ValidCutoffs(cutoffs, now) ==> MaySweep(View(), sweep, cutoffs, limit, now)
      modifies this
      ensures r.Err? <==> limit <= 0 || !ValidCutoffs(cutoffs, now)
      ensures r.Err? ==> View() == old(View())
      ensures r.Ok? ==> View() == Maintain(old(View()), sweep, now)
      ensures r.Ok? ==> r.value == Swept(|sweep.expire|, |sweep.runs|, |sweep.scans|, |sweep.jobs|)
    {
      if limit <= 0 { return Err(BadLimit); }
      if !ValidCutoffs(cutoffs, now) { return Err(BadCutoffs); }
      ghost var cut := CutLeases(View(), sweep.expire, now);
      jobs := map id | id in jobs :: if id in sweep.expire then Expired(jobs[id], now) else jobs[id];
      leases := cut;
      runs := runs - sweep.runs;
      scans := scans - sweep.scans;
      jobs := jobs - sweep.jobs;
      return Ok(Swept(|sweep.expire|, |sweep.runs|, |sweep.scans|, |sweep.jobs|));
    }
  }
}
