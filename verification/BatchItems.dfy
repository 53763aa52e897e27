/**
 One taxonomy batch item with its requests: what each event of taxonomy_batch.py writes, in
 order.  One statement is one write; a crash keeps a prefix.  Error texts and times are not kept.
 */
module BatchItems {
  import opened Prelude
  import opened Assignments
  import opened Acceptance

  type Output(==, !new)
  type Text(==, !new)

  datatype Stage = ProfileStage | L1 | L1Escalation | LeafStage | LeafEscalation | CapabilityStage | Complete

  datatype ItemStatus = Pending | Running | Succeeded | Partial | Failed | Skipped | NeedsReview

  predicate Terminal(status: ItemStatus) { !status.Pending? && !status.Running? }

  datatype Retry = NoRetry | SourceRetry | ModelRetry

  datatype Item = Item(
    status: ItemStatus, stage: Stage, source: Option<Text>, profile: Option<Profile>,
    l1: Option<Output>, leaf: Option<Output>, capability: Option<Output>,
    run: Option<RunId>, retry: Retry, retryAttempt: nat)

  datatype ReqKey = ReqKey(stage: Stage, attempt: nat)

  datatype Req = Queued(jev: bool) | Submitted(jev: bool) | Done(jev: bool, output: Output) | Broken(jev: bool, retryable: bool)
  {
    predicate Open() { Queued? || Submitted? }
  }

  /** The requests of each stage by attempt: the first attempt is number 1. */
  type Requests = map<Stage, seq<Req>>

  function At(requests: Requests, stage: Stage): seq<Req> { if stage in requests then requests[stage] else [] }

  predicate Exists(requests: Requests, key: ReqKey) { 1 <= key.attempt <= |At(requests, key.stage)| }

  function Get(requests: Requests, key: ReqKey): Req
    requires Exists(requests, key)
  {
    At(requests, key.stage)[key.attempt - 1]
  }

  /** Classification runs are numbered in order of insertion. */
  datatype World = World(item: Item, requests: Requests, rows: Rows, runs: seq<ItemStatus>, stored: Option<Profile>)

  /** The parsers, as functions of what they are given, and the configuration. */
  datatype Judge = Judge(
    build: (Output, Option<Text>) -> Profile,
    hits: Output -> seq<Hit>,
    leaf: (Output, seq<Hit>, Profile) -> Option<Leaf>,
    secondary: (Output, seq<Hit>, Profile) -> seq<Chosen>,
    candidates: (Profile, seq<Hit>, Option<Output>) -> bool,
    capabilities: (Output, Profile) -> seq<Chosen>,
    catalog: Catalog, gate: Gate, leafMin: real, maxAttempts: nat, capabilitiesEnabled: bool)

  predicate ValidJudge(j: Judge) { 1 <= j.maxAttempts <= 10 }

  const NO_PROFILE := Profile(false, false, false, false, false, false, false, false, false, 0)

  function ProfileOf(item: Item): Profile { if item.profile.Some? then item.profile.value else NO_PROFILE }

  function HitsOf(j: Judge, item: Item): seq<Hit> { if item.l1.Some? then j.hits(item.l1.value) else [] }

  function LeafOf(j: Judge, item: Item): Option<Leaf> {
    if item.leaf.Some? then j.leaf(item.leaf.value, HitsOf(j, item), ProfileOf(item)) else None
  }

  predicate ItemEligible(j: Judge, item: Item) { Eligible(LeafOf(j, item), ProfileOf(item), HitsOf(j, item), j.gate) }

  predicate CloseHits(hits: seq<Hit>, gap: real) {
    |hits| >= 2 && hits[0].confidence - hits[1].confidence < (if gap < 0.0 then 0.0 else gap)
  }

  predicate ShouldEscalateL1(hits: seq<Hit>, gap: real) {
    hits == [] || hits[0].confidence < 0.55 || CloseHits(hits, gap)
  }

  predicate ShouldEscalateLeaf(decision: Option<Leaf>, hits: seq<Hit>, leafMin: real, gap: real) {
    decision.None? || !decision.value.grounded
    || decision.value.confidence < (if leafMin < MIN_AUTO_PRIMARY then MIN_AUTO_PRIMARY else leafMin)
    || CloseHits(hits, gap)
  }

  // ---------- writes ----------

  datatype RowWrite = DemoteOthers(chosen: TermId) | InsertRow(id: TermId, row: Row) | Retire(dims: set<TermId>, run: RunId)

  datatype Write =
    | Close(key: ReqKey, outcome: Req)
    | InsertRequest(stage: Stage)
    | EnterStage(stage: Stage)
    | StoreProfile(profile: Profile)
    | SetProfile(profile: Profile)
    | SetL1(output: Output)
    | SetLeaf(output: Output)
    | SetCapability(output: Output)
    | ScheduleRetry(stage: Stage, attempt: nat)
    | InsertRun(status: ItemStatus)
    | SetRun(run: RunId)
    | WriteRow(rowWrite: RowWrite)
    | SetRunStatus(run: RunId, status: ItemStatus)
    | Finish(status: ItemStatus, run: RunId)
    | SetSource(source: Text)
    | Recover(profile: Profile)
    | ScheduleSource(attempt: nat)
    | CountSource(attempt: nat)
    | Mark(key: ReqKey, req: Req)

  const NOW := 0

  function ApplyRow(rows: Rows, cat: Catalog, w: RowWrite): Rows {
    match w
    case DemoteOthers(chosen) => Demote(rows, cat, chosen, NOW)
    case InsertRow(id, row) => Insert(rows, id, row)
    case Retire(dims, run) => SupersedeAuto(rows, dims, Some(run), NOW)
  }

  function ItemAfter(item: Item, w: Write): Item {
    match w
    case EnterStage(stage) => item.(stage := stage, status := Running, retry := NoRetry, retryAttempt := 0)
    case SetProfile(p) => item.(profile := Some(p), source := None)
    case SetL1(output) => item.(l1 := Some(output))
    case SetLeaf(output) => item.(leaf := Some(output))
    case SetCapability(output) => item.(capability := Some(output))
    case ScheduleRetry(stage, attempt) =>
      if item.stage == stage then item.(status := Pending, retry := ModelRetry, retryAttempt := attempt) else item
    case SetRun(run) => item.(run := Some(run))
    case Finish(status, run) => item.(status := status, stage := Complete, run := Some(run), source := None, retry := NoRetry)
    case SetSource(source) => item.(source := Some(source))
    case Recover(p) => item.(profile := Some(p), source := None, stage := L1, status := Pending)
    case ScheduleSource(attempt) =>
      item.(status := Pending, stage := ProfileStage, retry := SourceRetry, retryAttempt := attempt)
    case CountSource(attempt) => item.(retryAttempt := attempt)
    case _ => item
  }

  function RequestsAfter(requests: Requests, w: Write): Requests {
    match w
    case Close(key, outcome) =>
      if Exists(requests, key) then requests[key.stage := At(requests, key.stage)[key.attempt - 1 := outcome]] else requests
    case Mark(key, req) =>
      if Exists(requests, key) then requests[key.stage := At(requests, key.stage)[key.attempt - 1 := req]] else requests
    case InsertRequest(stage) => requests[stage := At(requests, stage) + [Queued(false)]]
    case _ => requests
  }

  function RunsAfter(runs: seq<ItemStatus>, w: Write): seq<ItemStatus> {
    match w
    case InsertRun(status) => runs + [status]
    case SetRunStatus(run, status) => if run < |runs| then runs[run := status] else runs
    case _ => runs
  }

  function Perform(j: Judge, w: World, write: Write): World {
    World(ItemAfter(w.item, write), RequestsAfter(w.requests, write),
          if write.WriteRow? then ApplyRow(w.rows, j.catalog, write.rowWrite) else w.rows,
          RunsAfter(w.runs, write),
          if write.StoreProfile? then Some(write.profile) else w.stored)
  }

  function PerformAll(j: Judge, w: World, ws: seq<Write>): World
    decreases |ws|
  {
    if ws == [] then w else PerformAll(j, Perform(j, w, ws[0]), ws[1..])
  }

  // ---------- what each event writes ----------

  predicate Blocks(req: Req) { req.Open() || req.Done? }

  /** Some attempt of the stage is queued, submitted or succeeded. */
  predicate HasLiveRequest(requests: Requests, stage: Stage) {
    exists i :: 0 <= i < |At(requests, stage)| && Blocks(At(requests, stage)[i])
  }

  function EnqueueStage(w: World, stage: Stage): seq<Write> {
    if HasLiveRequest(w.requests, stage) then [EnterStage(stage)] else [InsertRequest(stage), EnterStage(stage)]
  }

  /** complete_without_leaf: a run, unless one is recorded, and the end of the item. */
  function CompleteWithoutLeaf(w: World, status: ItemStatus): seq<Write> {
    if w.item.run.Some? then [Finish(status, w.item.run.value)]
    else [InsertRun(if status.NeedsReview? then Partial else status), Finish(status, |w.runs|)]
  }

  function InsertAll(chosen: seq<Chosen>, run: RunId): seq<Write> {
    seq(|chosen|, i requires 0 <= i < |chosen| =>
      WriteRow(InsertRow(chosen[i].term, Row(Some(run), false, chosen[i].confidence, Provisional, Auto, NOW))))
  }

  function Decided(j: Judge, item: Item, run: RunId): Decision
    requires LeafOf(j, item).Some?
  {
    var leaf := LeafOf(j, item).value;
    Decision(Chosen(leaf.term.id, leaf.confidence),
             if item.leaf.Some? then j.secondary(item.leaf.value, HitsOf(j, item), ProfileOf(item)) else [],
             if item.capability.Some? then j.capabilities(item.capability.value, ProfileOf(item)) else [],
             item.capability.Some?, Some(run), j.gate.threshold)
  }

  /** The assignment statements of a finalisation, one by one. */
  function RowWrites(cat: Catalog, d: Decision, locked: bool, run: RunId): seq<Write> {
    (if locked then [] else [WriteRow(DemoteOthers(d.primary.term))])
    + [WriteRow(InsertRow(d.primary.term, PrimaryRow(d, locked, NOW)))]
    + InsertAll(d.secondary, run) + InsertAll(d.capabilities, run)
    + [WriteRow(Retire(Dimensions(d, cat), run))]
  }

  ghost function Finalize(j: Judge, w: World, capabilityError: bool): seq<Write> {
    if LeafOf(j, w.item).None? || !ItemEligible(j, w.item) then CompleteWithoutLeaf(w, NeedsReview)
    else
      var run := if w.item.run.Some? then w.item.run.value else |w.runs|;
      var status := if capabilityError then Partial else Succeeded;
      (if w.item.run.Some? then [] else [InsertRun(Partial), SetRun(run)])
      + RowWrites(j.catalog, Decided(j, w.item, run), ManualLock(w.rows, j.catalog), run)
      + [SetRunStatus(run, status), Finish(status, run)]
  }

  /** What becomes of an item once a result is recorded. */
  datatype Move =
    | Ask(stage: Stage)                          // enqueue_stage
    | RetryLater(stage: Stage, attempt: nat)     // schedule_model_retry
    | EndWithoutLeaf(status: ItemStatus)         // complete_without_leaf
    | Classify(capabilityError: bool)            // finalize_classification

  ghost function Make(j: Judge, w: World, move: Move): seq<Write> {
    match move
    case Ask(stage) => EnqueueStage(w, stage)
    case RetryLater(stage, attempt) => [ScheduleRetry(stage, attempt)]
    case EndWithoutLeaf(status) => CompleteWithoutLeaf(w, status)
    case Classify(error) => Finalize(j, w, error)
  }

  /** _handle_stage_failure. */
  function AfterFailure(j: Judge, key: ReqKey, jev: bool, retryable: bool): Move {
    if key.stage.CapabilityStage? && jev then Ask(CapabilityStage)
    else if retryable && key.attempt < j.maxAttempts then RetryLater(key.stage, key.attempt)
    else if key.stage.CapabilityStage? then Classify(true)
    else if retryable && key.stage.L1? then Ask(L1Escalation)
    else if retryable && key.stage.LeafStage? then Ask(LeafEscalation)
    else EndWithoutLeaf(NeedsReview)
  }

  function AfterProfile(p: Profile): Move {
    if p.accepted && p.eligibleKind && p.signal then Ask(L1)
    else EndWithoutLeaf(if p.accepted then Skipped else Partial)
  }

  function AfterL1(j: Judge, item: Item, stage: Stage): Move {
    if stage.L1? && ShouldEscalateL1(HitsOf(j, item), j.gate.minGap) then Ask(L1Escalation)
    else if HitsOf(j, item) == [] then EndWithoutLeaf(NeedsReview)
    else Ask(LeafStage)
  }

  /** _prepare_capability_or_finalize. */
  function AfterDecision(j: Judge, item: Item): Move {
    if j.capabilitiesEnabled && ProfileOf(item).capabilities && j.candidates(ProfileOf(item), HitsOf(j, item), item.leaf)
    then Ask(CapabilityStage) else Classify(false)
  }

  function AfterLeaf(j: Judge, item: Item, stage: Stage): Move {
    var escalate := ShouldEscalateLeaf(LeafOf(j, item), HitsOf(j, item), j.leafMin, j.gate.minGap) || !ItemEligible(j, item);
    if stage.LeafStage? && escalate then Ask(LeafEscalation)
    else if LeafOf(j, item).None? || !ItemEligible(j, item) then EndWithoutLeaf(NeedsReview)
    else AfterDecision(j, item)
  }

  /** Where the item goes once a success is stored. */
  function AfterSuccess(j: Judge, item: Item, stage: Stage): Move {
    match stage
    case ProfileStage => AfterProfile(ProfileOf(item))
    case L1 => AfterL1(j, item, stage)
    case L1Escalation => AfterL1(j, item, stage)
    case LeafStage => AfterLeaf(j, item, stage)
    case LeafEscalation => AfterLeaf(j, item, stage)
    case CapabilityStage => Classify(false)
    case Complete => Classify(false)
  }

  /** What a recorded success stores before it moves the item on. */
  function Stores(j: Judge, w: World, stage: Stage, output: Output): seq<Write> {
    match stage
    case ProfileStage => var p := j.build(output, w.item.source); [StoreProfile(p), SetProfile(p)]
    case L1 => [SetL1(output)]
    case L1Escalation => [SetL1(output)]
    case LeafStage => [SetLeaf(output)]
    case LeafEscalation => [SetLeaf(output)]
    case CapabilityStage => [SetCapability(output)]
    case Complete => []
  }

  datatype Result = Success(output: Output) | Failure(retryable: bool)

  /** A result is fenced off by a newer attempt, another stage or the end of the item. */
  predicate Applies(w: World, key: ReqKey) {
    && Exists(w.requests, key) && key.attempt == |At(w.requests, key.stage)|
    && w.item.stage == key.stage && !Terminal(w.item.status)
  }

  function Outcome(w: World, key: ReqKey, result: Result): Req
    requires Exists(w.requests, key)
  {
    var jev := Get(w.requests, key).jev;
    match result
    case Success(output) => Done(jev, output)
    case Failure(retryable) => Broken(jev, retryable)
  }

  /** apply_request_result. */
  ghost function ApplyResult(j: Judge, w: World, key: ReqKey, result: Result): seq<Write> {
    if !Applies(w, key) then []
    else
      var close := Close(key, Outcome(w, key, result));
      var closed := Perform(j, w, close);
      match result
      case Failure(retryable) => [close] + Make(j, closed, AfterFailure(j, key, Get(w.requests, key).jev, retryable))
      case Success(output) =>
        var stores := Stores(j, closed, key.stage, output);
        var stored := PerformAll(j, closed, stores);
        [close] + stores + Make(j, stored, AfterSuccess(j, stored.item, key.stage))
  }

  /** The newest request of the item's stage, if its result is recorded. */
  predicate Recorded(w: World) {
    var n := |At(w.requests, w.item.stage)|;
    w.item.status.Running? && n > 0 && !At(w.requests, w.item.stage)[n - 1].Open()
  }

  function RecordedKey(w: World): ReqKey { ReqKey(w.item.stage, |At(w.requests, w.item.stage)|) }

  function RecordedResult(req: Req): Result
    requires !req.Open()
  {
    match req
    case Done(_, output) => Success(output)
    case Broken(_, retryable) => Failure(retryable)
  }

  /** reconcile_recorded_results on this item. */
  ghost function Reconcile(j: Judge, w: World): seq<Write> {
    if Recorded(w) then ApplyResult(j, w, RecordedKey(w), RecordedResult(Get(w.requests, RecordedKey(w)))) else []
  }

  /** resume_due_model_retries on this item. */
  ghost function ResumeRetry(w: World): seq<Write> {
    if w.item.status.Pending? && w.item.retry.ModelRetry? && !w.item.stage.Complete? then EnqueueStage(w, w.item.stage) else []
  }

  // ---------- seed_batch_items on this item ----------

  /** A failed fetch: whether to try again, how often at most, and the profile built from verified upstream quotes, if any. */
  datatype Fault = Fault(retryable: bool, limit: nat, upstream: Option<Profile>)

  /** How one pass comes to the item. `writes` statements had been performed when one raised. */
  datatype Pass =
    | Captures(source: Text)
    | Fails(fault: Fault)
    | Raises(source: Text, writes: nat, fault: Fault)
    | Reuses(profile: Profile)

  /** The homepage was captured: its text is stored and the profile asked for. */
  ghost function CaptureSource(w: World, source: Text): seq<Write> {
    [SetSource(source)] + EnqueueStage(w, ProfileStage)
  }

  /** try_recover_source_with_upstream_evidence, where there is evidence. */
  ghost function RecoverUpstream(w: World, profile: Profile): seq<Write> {
    [StoreProfile(profile), Recover(profile)] + EnqueueStage(w, L1)
  }

  function Allowed(j: Judge, fault: Fault): nat { Min(j.maxAttempts, Max(1, fault.limit)) }

  /** No further capture will be tried. */
  predicate Exhausts(j: Judge, item: Item, fault: Fault) { !fault.retryable || item.retryAttempt + 1 >= Allowed(j, fault) }

  /** schedule_source_retry. */
  ghost function FailCapture(j: Judge, w: World, fault: Fault): seq<Write> {
    var failed := w.item.retryAttempt + 1;
    if !Exhausts(j, w.item, fault) then [ScheduleSource(failed)]
    else if fault.upstream.Some? then RecoverUpstream(w, fault.upstream.value)
    else [CountSource(failed)] + CompleteWithoutLeaf(w, NeedsReview)
  }

  /** As many writes as a crash leaves. */
  function First(ws: seq<Write>, n: nat): seq<Write> { if n < |ws| then ws[..n] else ws }

  /** What a capture had written when a statement of it raised. */
  ghost function Begun(w: World, source: Text, writes: nat): seq<Write> {
    First(CaptureSource(w, source), Min(writes, |CaptureSource(w, source)| - 1))
  }

  /** A stored profile of the current extractor, with something in it. */
  predicate Reusable(p: Profile) { p.signal && !p.upstream }

  predicate MayPass(pass: Pass) { pass.Reuses? ==> Reusable(pass.profile) }

  ghost function PassWrites(j: Judge, w: World, pass: Pass): seq<Write> {
    match pass
    case Captures(source) => CaptureSource(w, source)
    case Fails(fault) => FailCapture(j, w, fault)
    case Raises(source, writes, fault) =>
      Begun(w, source, writes) + FailCapture(j, PerformAll(j, w, Begun(w, source, writes)), fault)
    case Reuses(p) => [SetProfile(p)] + EnqueueStage(w, L1)
  }
}
