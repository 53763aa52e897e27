/**
 The sitemap job ledger: rows of sitemap_sites, sitemap_jobs, sitemap_site_scans and
 sitemap_runs, and the meaning of every statement that writes them.  One SQL statement,
 or one atomic batch of statements, is one function on states.
 */
module Ledger {
  import opened Prelude

  type SiteId = string
  type RunId = string
  // randomblob(16) in the source; uniqueness is stated where a token is issued.
  type Token = nat

  // job_id_for hashes exactly these three parts.
  datatype JobId = JobId(site: SiteId, scheduledFor: int, version: nat)

  // A scan id hashes the run namespace, which hashes the job id and the attempt number.
  datatype ScanId = ScanId(job: JobId, attempt: nat)

  datatype SiteStatus = Active | Paused | Blocked

  datatype Site = Site(
    homepage: string,
    interval: int,
    status: SiteStatus,
    version: nat,
    nextCheck: int,
    dispatch: Option<Dispatcher>,
    dispatchExpires: Option<int>,
    errorStreak: nat,
    baseline: Option<ScanId>,
    times: SiteTimes)

  // dispatch_lease_owner and dispatch_lease_token are always written together; the expiry is not.
  datatype Dispatcher = Dispatcher(owner: string, token: Token)

  datatype SiteTimes = SiteTimes(lastAttempt: Option<int>, lastSuccess: Option<int>, updatedAt: int)

  datatype JobStatus = Pending | Running | Retry | Succeeded | Dead

  datatype Job = Job(
    status: JobStatus,
    attempts: nat,
    maxAttempts: nat,
    baseErrorStreak: nat,
    availableAt: int,
    lease: Option<Holder>,
    finishedAt: Option<int>,
    updatedAt: int,
    notes: JobNotes)
  {
    predicate Live() { status.Pending? || status.Retry? || status.Running? }
    predicate Terminal() { status.Succeeded? || status.Dead? }
  }

  // lease_owner, lease_token and lease_expires_at are null together.
  datatype Holder = Holder(owner: string, token: Token, expires: int)

  datatype JobNotes = JobNotes(startedAt: Option<int>, lastError: Option<string>, deadLetterAt: Option<int>, createdAt: int)

  datatype Verdict = BaselineInvalid | Comparable | FetchIncomplete | Partial
                   | PossibleMigration | ResourceSetChanged

  datatype Scan = Scan(baseline: Option<ScanId>, verdict: Verdict, promoted: bool, createdAt: int)

  datatype RunResult = Baseline | Changed | Failed | NotModified | SemanticUnchanged

  datatype Run = Run(scan: Option<ScanId>, result: RunResult, createdAt: int)

  // What claim_due_sites hands to the scheduler.
  datatype DueSite = DueSite(site: SiteId, scheduledFor: int, version: nat)

  // The interval of time for which a token entitled its worker to a job.
  datatype Lease = Lease(job: JobId, from: int, until: int)

  /**
   The four tables, and three history variables: what each dispatch token was issued for,
   what each job token was granted, and the latest instant any step has seen.
   */
  datatype State = State(
    sites: map<SiteId, Site>,
    jobs: map<JobId, Job>,
    scans: map<ScanId, Scan>,
    runs: map<RunId, Run>,
    dispatched: map<Token, DueSite>,
    leases: map<Token, Lease>,
    clock: int)

  const DEFAULT_INTERVAL := 21600
  const FIRST_VERSION: nat := 1

  function EmptyState(): State {
    State(map[], map[], map[], map[], map[], map[], 0)
  }

  // ---------- site registration and status ----------

  function EffectiveInterval(interval: Option<int>): int {
    if interval.None? || interval.value == 0 then DEFAULT_INTERVAL else interval.value
  }

  function NewSite(homepage: string, interval: Option<int>, now: int): Site {
    Site(homepage, EffectiveInterval(interval), Active, FIRST_VERSION, now,
         None, None, 0, None, SiteTimes(None, None, now))
  }

  predicate Reconfigures(row: Site, homepage: string, interval: Option<int>) {
    row.homepage != homepage || (interval.Some? && row.interval != EffectiveInterval(interval))
  }

  function Reconfigured(row: Site, homepage: string, interval: Option<int>, now: int): Site {
    row.(homepage := homepage,
         interval := if interval.None? then row.interval else EffectiveInterval(interval),
         version := row.version + 1,
         nextCheck := now,
         dispatch := None, dispatchExpires := None,
         times := row.times.(updatedAt := now))
  }

  function EnsureSite(s: State, id: SiteId, homepage: string, interval: Option<int>, now: int): State {
    if id !in s.sites then s.(sites := s.sites[id := NewSite(homepage, interval, now)])
    else if Reconfigures(s.sites[id], homepage, interval) then
      s.(sites := s.sites[id := Reconfigured(s.sites[id], homepage, interval, now)])
    else s
  }

  function SetSiteStatus(s: State, id: SiteId, status: SiteStatus, from: SiteStatus, now: int): State {
    if status == from || id !in s.sites || s.sites[id].status != from then s
    else
      var row := s.sites[id];
      s.(sites := s.sites[id := row.(
                    status := status,
                    version := row.version + 1,
                    nextCheck := if status.Active? then now else row.nextCheck,
                    dispatch := None, dispatchExpires := None,
                    times := row.times.(updatedAt := now))])
  }

  // ---------- dispatch ----------

  predicate Due(row: Site, now: int) {
    row.status.Active? && row.nextCheck <= now &&
    (row.dispatchExpires.None? || row.dispatchExpires.value <= now)
  }

  ghost predicate FreshTokens<K(!new)>(s: State, grants: map<K, Token>) {
    Injective(grants) &&
    forall k :: k in grants ==> grants[k] !in s.dispatched && grants[k] !in s.leases
  }

  /** LIMIT picks any eligible subset; each picked site gets a fresh token. */
  ghost predicate MayDispatch(s: State, grants: map<SiteId, Token>, limit: nat, now: int) {
    |grants| <= limit && FreshTokens(s, grants) &&
    forall id :: id in grants ==> id in s.sites && Due(s.sites[id], now)
  }

  function Dispatched(row: Site, token: Token, owner: string, expires: int, now: int): Site {
    row.(dispatch := Some(Dispatcher(owner, token)), dispatchExpires := Some(expires),
         times := row.times.(updatedAt := now))
  }

  function DueSiteOf(id: SiteId, row: Site): DueSite { DueSite(id, row.nextCheck, row.version) }

  function DispatchedRows(sites: map<SiteId, Site>, grants: map<SiteId, Token>, owner: string, expires: int, now: int): map<SiteId, Site> {
    map id | id in sites :: if id in grants then Dispatched(sites[id], grants[id], owner, expires, now) else sites[id]
  }

  ghost function DispatchRecords(sites: map<SiteId, Site>, grants: map<SiteId, Token>): map<Token, DueSite> {
    map token | token in grants.Values ::
      var id :| id in grants && grants[id] == token;
      if id in sites then DueSiteOf(id, sites[id]) else DueSite(id, 0, 0)
  }

  ghost function ClaimDueSites(s: State, grants: map<SiteId, Token>, owner: string, duration: int, now: int): State {
    s.(sites := DispatchedRows(s.sites, grants, owner, now + duration, now),
       dispatched := s.dispatched + DispatchRecords(s.sites, grants))
  }

  function NewJob(site: Site, maxAttempts: nat, now: int): Job {
    Job(Pending, 0, maxAttempts, site.errorStreak, now, None, None, now, JobNotes(None, None, None, now))
  }

  predicate Dispatches(row: Site, token: Token) { row.dispatch.Some? && row.dispatch.value.token == token }

  function EnsureJob(s: State, due: DueSite, token: Token, maxAttempts: nat, now: int): State {
    var id := JobId(due.site, due.scheduledFor, due.version);
    if due.site in s.sites && s.sites[due.site].version == due.version &&
       Dispatches(s.sites[due.site], token) && id !in s.jobs
    then s.(jobs := s.jobs[id := NewJob(s.sites[due.site], maxAttempts, now)])
    else s
  }

  // ---------- leases ----------

  predicate Claimable(s: State, id: JobId, now: int) {
    id in s.jobs && id.site in s.sites &&
    s.sites[id.site].status.Active? && s.sites[id.site].version == id.version &&
    var row := s.jobs[id];
    || ((row.status.Pending? || row.status.Retry?) && row.attempts < row.maxAttempts && row.availableAt <= now)
    || (row.status.Running? && row.lease.Some? && row.lease.value.expires <= now)
  }

  ghost predicate MayClaim(s: State, grants: map<JobId, Token>, limit: nat, now: int) {
    |grants| <= limit && FreshTokens(s, grants) &&
    forall id :: id in grants ==> Claimable(s, id, now)
  }

  function Claimed(row: Job, token: Token, owner: string, expires: int, now: int): Job {
    row.(status := Running, attempts := row.attempts + 1, lease := Some(Holder(owner, token, expires)),
         finishedAt := None, updatedAt := now,
         notes := row.notes.(startedAt := Some(now), lastError := None))
  }

  ghost function LeaseRecords(grants: map<JobId, Token>, from: int, until: int): map<Token, Lease> {
    map token | token in grants.Values :: var id :| id in grants && grants[id] == token; Lease(id, from, until)
  }

  function ClaimedRows(jobs: map<JobId, Job>, grants: map<JobId, Token>, owner: string, expires: int, now: int): map<JobId, Job> {
    map id | id in jobs :: if id in grants then Claimed(jobs[id], grants[id], owner, expires, now) else jobs[id]
  }

  ghost function ClaimJobs(s: State, grants: map<JobId, Token>, owner: string, duration: int, now: int): State {
    s.(jobs := ClaimedRows(s.jobs, grants, owner, now + duration, now),
       leases := s.leases + LeaseRecords(grants, now, now + duration))
  }

  predicate Holds(s: State, id: JobId, token: Token) {
    id in s.jobs && s.jobs[id].status.Running? && s.jobs[id].lease.Some? && s.jobs[id].lease.value.token == token
  }

  function RenewLease(s: State, id: JobId, token: Token, owner: string, duration: int, now: int): State {
    if Holds(s, id, token) && s.jobs[id].lease.value.owner == owner then
      s.(jobs := s.jobs[id := s.jobs[id].(lease := Some(Holder(owner, token, now + duration)), updatedAt := now)],
         leases := if token in s.leases then s.leases[token := s.leases[token].(until := now + duration)] else s.leases)
    else s
  }

  // ---------- completion ----------

  datatype Outcome =
    | Success(nextCheck: int)
    | Death(nextCheck: int, availableAt: int, error: string)
    | TryAgain(availableAt: int, error: string)

  function FinalStatus(outcome: Outcome): JobStatus {
    match outcome
    case Success(_) => Succeeded
    case Death(_, _, _) => Dead
    case TryAgain(_, _) => Retry
  }

  function Finished(row: Job, outcome: Outcome, at: int): Job {
    var unleased := row.(status := FinalStatus(outcome), lease := None, finishedAt := Some(at), updatedAt := at);
    match outcome
    case Success(_) => unleased.(notes := row.notes.(lastError := None))
    case Death(_, available, error) =>
      unleased.(availableAt := available, notes := row.notes.(lastError := Some(error), deadLetterAt := Some(at)))
    case TryAgain(available, error) =>
      unleased.(availableAt := available, notes := row.notes.(lastError := Some(error), deadLetterAt := None))
  }

  function Released(leases: map<Token, Lease>, token: Token, at: int): map<Token, Lease> {
    if token in leases then leases[token := leases[token].(until := Min(leases[token].until, at))] else leases
  }

  /** The first statement of a completion batch: it tests the lease token. */
  function LandCompletion(s: State, id: JobId, token: Token, outcome: Outcome, at: int): State {
    if Holds(s, id, token) then
      s.(jobs := s.jobs[id := Finished(s.jobs[id], outcome, at)], leases := Released(s.leases, token, at))
    else s
  }

  /** What the later statements of the batch test instead of the token. */
  predicate FinishedAs(s: State, id: JobId, outcome: Outcome, at: int) {
    id in s.jobs && s.jobs[id].status == FinalStatus(outcome) && s.jobs[id].finishedAt == Some(at)
  }

  function InsertScan(s: State, scanId: ScanId, scan: Option<Scan>): State {
    if scan.Some? && scanId !in s.scans then s.(scans := s.scans[scanId := scan.value]) else s
  }

  function Advanced(site: Site, id: JobId, row: Job, attempt: nat, outcome: Outcome,
                    scan: Option<Scan>, at: int): Site {
    match outcome
    case Success(next) =>
      site.(nextCheck := next, errorStreak := 0, dispatch := None, dispatchExpires := None,
            baseline := if scan.Some? && scan.value.promoted then Some(ScanId(id, attempt)) else site.baseline,
            times := SiteTimes(Some(at), Some(at), at))
    case Death(next, _, _) =>
      site.(nextCheck := next, errorStreak := Max(site.errorStreak, row.baseErrorStreak + 1),
            dispatch := None, dispatchExpires := None,
            times := site.times.(lastAttempt := Some(at), updatedAt := at))
    case TryAgain(available, _) =>
      site.(dispatchExpires := Some(available), times := site.times.(lastAttempt := Some(at), updatedAt := at))
  }

  function AdvanceSite(s: State, id: JobId, attempt: nat, outcome: Outcome, scan: Option<Scan>, at: int): State
    requires id in s.jobs
  {
    if id.site in s.sites && s.sites[id.site].version == id.version then
      s.(sites := s.sites[id.site := Advanced(s.sites[id.site], id, s.jobs[id], attempt, outcome, scan, at)])
    else s
  }

  /** finish_job_success and finish_job_failure of the D1 adapter. */
  function Finish(s: State, id: JobId, token: Token, attempt: nat, outcome: Outcome, scan: Option<Scan>, at: int): State {
    var landed := LandCompletion(s, id, token, outcome, at);
    if FinishedAs(landed, id, outcome, at)
    then AdvanceSite(InsertScan(landed, ScanId(id, attempt), scan), id, attempt, outcome, scan, at)
    else landed
  }

  /** The same two methods of the SQLite adapter: nothing after a first statement that changed no row. */
  function FinishLocally(s: State, id: JobId, token: Token, attempt: nat, outcome: Outcome, scan: Option<Scan>, at: int): State {
    if Holds(s, id, token)
    then AdvanceSite(InsertScan(LandCompletion(s, id, token, outcome, at), ScanId(id, attempt), scan),
                     id, attempt, outcome, scan, at)
    else s
  }

  function RecordRun(s: State, id: RunId, run: Run): State {
    if id in s.runs then s else s.(runs := s.runs[id := run])
  }

  // ---------- maintenance ----------

  /** The rows a maintenance pass picked, each within the limit of its statement. */
  datatype Sweep = Sweep(expire: set<JobId>, runs: set<RunId>, scans: set<ScanId>, jobs: set<JobId>)

  predicate Expirable(s: State, id: JobId) {
    id in s.jobs && id.site in s.sites && s.jobs[id].Live() &&
    var site := s.sites[id.site];
    !site.status.Active? || site.version != id.version || id.scheduledFor < site.nextCheck
  }

  function Expired(row: Job, now: int): Job {
    row.(status := Dead, lease := None, finishedAt := Some(now), updatedAt := now,
         notes := row.notes.(lastError := Some("superseded_schedule"), deadLetterAt := Some(now)))
  }

  ghost function ExpiredRows(jobs: map<JobId, Job>, expire: set<JobId>, now: int): map<JobId, Job> {
    map id | id in jobs :: if id in expire then Expired(jobs[id], now) else jobs[id]
  }

  /** An expired job's lease, if one is in force, ends here. */
  ghost function CutLeases(s: State, expire: set<JobId>, now: int): map<Token, Lease> {
    map token | token in s.leases ::
      if s.leases[token].job in expire && Holds(s, s.leases[token].job, token)
      then s.leases[token].(until := Min(s.leases[token].until, now)) else s.leases[token]
  }

  ghost function ExpireJobs(s: State, expire: set<JobId>, now: int): State {
    s.(jobs := ExpiredRows(s.jobs, expire, now), leases := CutLeases(s, expire, now))
  }

  predicate PrunableRun(s: State, id: RunId, cutoff: int) {
    id in s.runs && s.runs[id].createdAt < cutoff &&
    (s.runs[id].result.Failed? || s.runs[id].result.NotModified? || s.runs[id].result.SemanticUnchanged?)
  }

  predicate Signal(verdict: Verdict) { verdict.ResourceSetChanged? || verdict.PossibleMigration? }

  ghost predicate PrunableScan(s: State, id: ScanId, cutoff: int) {
    && id in s.scans && s.scans[id].createdAt < cutoff && !Signal(s.scans[id].verdict)
    && (forall other :: other in s.scans ==> s.scans[other].baseline != Some(id))
    && (forall site :: site in s.sites ==> s.sites[site].baseline != Some(id))
    && (forall run :: run in s.runs && s.runs[run].scan == Some(id) ==>
                        !s.runs[run].result.Baseline? && !s.runs[run].result.Changed?)
  }

  ghost predicate PrunableJob(s: State, id: JobId, cutoff: int) {
    id in s.jobs && s.jobs[id].updatedAt < cutoff && s.jobs[id].Terminal() &&
    forall scan :: scan in s.scans ==> scan.job != id
  }

  function DropRuns(s: State, runs: set<RunId>): State { s.(runs := s.runs - runs) }

  function DropScans(s: State, scans: set<ScanId>): State { s.(scans := s.scans - scans) }

  function DropJobs(s: State, jobs: set<JobId>): State { s.(jobs := s.jobs - jobs) }

  datatype Cutoffs = Cutoffs(job: int, run: int, scan: int)

  predicate ValidCutoffs(c: Cutoffs, now: int) {
    0 <= c.job <= now && 0 <= c.run <= now && 0 <= c.scan <= now
  }

  /** Each selection is read where its statement stands in the batch. */
  ghost predicate MaySweep(s: State, sweep: Sweep, c: Cutoffs, limit: nat, now: int) {
    var expired := ExpireJobs(s, sweep.expire, now);
    var runsDropped := DropRuns(expired, sweep.runs);
    var scansDropped := DropScans(runsDropped, sweep.scans);
    && |sweep.expire| <= limit && |sweep.runs| <= limit && |sweep.scans| <= limit && |sweep.jobs| <= limit
    && (forall id :: id in sweep.expire ==> Expirable(s, id))
    && (forall id :: id in sweep.runs ==> PrunableRun(expired, id, c.run))
    && (forall id :: id in sweep.scans ==> PrunableScan(runsDropped, id, c.scan))
    && (forall id :: id in sweep.jobs ==> PrunableJob(scansDropped, id, c.job))
  }

  ghost function Maintain(s: State, sweep: Sweep, now: int): State {
    DropJobs(DropScans(DropRuns(ExpireJobs(s, sweep.expire, now), sweep.runs), sweep.scans), sweep.jobs)
  }
}
