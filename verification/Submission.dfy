/** Concurrent submitters of taxonomy batch requests: reservation before the irreversible remote call. */
module Submission {
  import opened Prelude

  type ReqId = nat
  type JobId = nat
  type Pid = nat

  datatype Status = Queued | Submitted | Done | Failed

  datatype Row = Row(status: Status, job: Option<JobId>)

  type Table = map<ReqId, Row>

  const CHUNK := 50

  // ---------- statements ----------

  predicate Free(row: Row) { row.status.Queued? && row.job.None? }

  predicate Reserved(row: Row, job: JobId) { row.status.Queued? && row.job == Some(job) }

  /** Takes the requests that are still free. */
  function Take(table: Table, job: JobId, ids: seq<ReqId>): Table {
    map id | id in table :: if id in ids && Free(table[id]) then Row(Queued, Some(job)) else table[id]
  }

  /** Gives back what the job still has queued. */
  function GiveBack(table: Table, job: JobId): Table {
    map id | id in table :: if Reserved(table[id], job) then Row(Queued, None) else table[id]
  }

  function MarkAll(table: Table, job: JobId, status: Status): Table {
    map id | id in table :: if Reserved(table[id], job) then Row(status, Some(job)) else table[id]
  }

  function ReservedIds(table: Table, job: JobId): set<ReqId> { set id | id in table && Reserved(table[id], job) }

  /** If a job holds only wanted requests, and as many as it wanted, it holds all of them. */
  lemma FullCountIsAll(table: Table, job: JobId, wanted: seq<ReqId>)
    requires Apart(wanted) && forall id :: id in table && Reserved(table[id], job) ==> id in wanted
    ensures |ReservedIds(table, job)| == |wanted| <==> forall id :: id in wanted ==> id in table && Reserved(table[id], job)
  {
    ApartCount(wanted);
    var held, all := ReservedIds(table, job), Elements(wanted);
    assert held <= all;
    if |held| == |wanted| {
      SubsetOfSize(held, all);
      forall id | id in wanted ensures id in held { assert id in all; }
    }
    if forall id :: id in wanted ==> id in table && Reserved(table[id], job) {
      assert held == all;
    }
  }

  // ---------- one reservation, undisturbed ----------

  class RequestTable {
    var rows: Table

    constructor (rows: Table)
      ensures this.rows == rows
    {
      this.rows := rows;
    }

    /** _reserve_requests_for_job: chunk by chunk, then all or nothing. */
    method ReserveRequests(job: JobId, wanted: seq<ReqId>) returns (reserved: bool)
      requires Apart(wanted) && forall id :: id in rows ==> rows[id].job != Some(job)
      modifies this
      ensures reserved <==> forall id :: id in wanted ==> id in old(rows) && Free(old(rows)[id])
      ensures reserved ==> rows.Keys == old(rows).Keys
      ensures reserved ==> forall id :: id in rows ==> rows[id] == if id in wanted then Row(Queued, Some(job)) else old(rows)[id]
      ensures !reserved ==> rows == old(rows)
    {
      var offset := 0;
      while offset < |wanted|
        invariant 0 <= offset <= |wanted|
        invariant rows == Take(old(rows), job, wanted[..offset])
      {
        var end := if offset + CHUNK < |wanted| then offset + CHUNK else |wanted|;
        TakeMore(old(rows), job, wanted, offset, end);
        rows := Take(rows, job, wanted[offset..end]);
        offset := end;
      }
      assert wanted[..|wanted|] == wanted;
      FullCountIsAll(rows, job, wanted);
      reserved := |ReservedIds(rows, job)| == |wanted|;
      if !reserved { rows := GiveBack(rows, job); }
    }
  }

  lemma TakeMore(table: Table, job: JobId, wanted: seq<ReqId>, offset: nat, end: nat)
    requires offset <= end <= |wanted|
    ensures Take(Take(table, job, wanted[..offset]), job, wanted[offset..end]) == Take(table, job, wanted[..end])
  {
    assert wanted[..end] == wanted[..offset] + wanted[offset..end];
  }

  // ---------- many submitters ----------

  datatype Phase =
    | Reserving(taken: nat)   // so many of the wanted requests have been tried
    | Releasing               // the reservation fell short, or the provider is blocked
    | Holding                 // counted: every wanted request is this job's
    | Handed                  // the remote batch exists, or JEV has been asked

  /** A submitter knows the rows it selected some time ago. */
  datatype Submitter = Submitter(job: JobId, wanted: seq<ReqId>, jev: bool, phase: Phase)

  /** `batches` and `jevJobs` say what left the system: they are never taken back. */
  datatype State = State(
    table: Table, submitters: map<Pid, Submitter>,
    batches: map<JobId, set<ReqId>>, jevJobs: map<JobId, set<ReqId>>, nextJob: JobId)

  datatype Step =
    | Select(pid: Pid, wanted: seq<ReqId>, jev: bool)
    | Reserve(pid: Pid)
    | Fail(pid: Pid)
    | Count(pid: Pid)
    | Release(pid: Pid)
    | Hand(pid: Pid)
    | Reject(pid: Pid, blocked: bool)
    | Mark(pid: Pid)
    | Crash(pid: Pid)
    | Enqueue(id: ReqId)
    | Settle(id: ReqId, status: Status)

  predicate InPhase(s: State, pid: Pid, phase: Phase) { pid in s.submitters && s.submitters[pid].phase == phase }

  function Go(s: State, pid: Pid, phase: Phase): State
    requires pid in s.submitters
  {
    s.(submitters := s.submitters[pid := s.submitters[pid].(phase := phase)])
  }

  /** A step whose moment it is not does nothing. */
  function Next(s: State, step: Step): State {
    match step
    case Select(pid, wanted, jev) =>
      if pid in s.submitters || !Apart(wanted) then s
      else s.(submitters := s.submitters[pid := Submitter(s.nextJob, wanted, jev, Reserving(0))], nextJob := s.nextJob + 1)
    case Reserve(pid) =>
      if pid in s.submitters && s.submitters[pid].phase.Reserving? && s.submitters[pid].phase.taken < |s.submitters[pid].wanted| then
        var p := s.submitters[pid];
        var end := if p.phase.taken + CHUNK < |p.wanted| then p.phase.taken + CHUNK else |p.wanted|;
        Go(s.(table := Take(s.table, p.job, p.wanted[p.phase.taken..end])), pid, Reserving(end))
      else s
    case Fail(pid) =>
      // A statement of the reservation raises an error: what was taken so far is given back.
      if pid in s.submitters && s.submitters[pid].phase.Reserving? then Go(s, pid, Releasing) else s
    case Count(pid) =>
      if pid in s.submitters && s.submitters[pid].phase.Reserving? && s.submitters[pid].phase.taken >= |s.submitters[pid].wanted| then
        var p := s.submitters[pid];
        Go(s, pid, if |ReservedIds(s.table, p.job)| == |p.wanted| then Holding else Releasing)
      else s
    case Release(pid) =>
      if InPhase(s, pid, Releasing) then
        s.(table := GiveBack(s.table, s.submitters[pid].job), submitters := s.submitters - {pid})
      else s
    case Hand(pid) =>
      if InPhase(s, pid, Holding) then
        var p := s.submitters[pid];
        if p.jev then Go(s.(jevJobs := s.jevJobs[p.job := Elements(p.wanted)]), pid, Handed)
        else Go(s.(batches := s.batches[p.job := Elements(p.wanted)]), pid, Handed)
      else s
    case Reject(pid, blocked) =>
      // The remote call failed, so no batch exists: give back, or fail, what is queued.
      if InPhase(s, pid, Holding) then
        if blocked then Go(s, pid, Releasing)
        else s.(table := MarkAll(s.table, s.submitters[pid].job, Failed), submitters := s.submitters - {pid})
      else s
    case Mark(pid) =>
      if InPhase(s, pid, Handed) then
        s.(table := MarkAll(s.table, s.submitters[pid].job, Submitted), submitters := s.submitters - {pid})
      else s
    case Crash(pid) => s.(submitters := s.submitters - {pid})
    case Enqueue(id) => if id in s.table then s else s.(table := s.table[id := Row(Queued, None)])
    case Settle(id, status) =>
      if id in s.table && !status.Queued? then s.(table := s.table[id := s.table[id].(status := status)]) else s
  }

  function After(s: State, steps: seq<Step>): State
    decreases |steps|
  {
    if steps == [] then s else After(Next(s, steps[0]), steps[1..])
  }

  function Start(table: Table): State { State(table, map[], map[], map[], 0) }

  // ---------- the invariant ----------

  /** What has been handed out under a job is recorded as that job's. */
  ghost predicate HandedOut(table: Table, sent: map<JobId, set<ReqId>>, nextJob: JobId) {
    forall job :: job in sent ==> job < nextJob && forall id :: id in sent[job] ==> id in table && table[id].job == Some(job)
  }

  predicate SubmitterFits(p: Submitter, table: Table, batches: map<JobId, set<ReqId>>, jevJobs: map<JobId, set<ReqId>>, nextJob: JobId) {
    && p.job < nextJob && Apart(p.wanted)
    && (forall id :: id in table && table[id].job == Some(p.job) ==> id in p.wanted)
    && (p.phase.Holding? || p.phase.Handed? ==> forall id :: id in p.wanted ==> id in table && table[id].job == Some(p.job))
    && (!p.phase.Handed? ==> p.job !in batches && p.job !in jevJobs)
  }

  ghost predicate Inv(s: State) {
    && HandedOut(s.table, s.batches, s.nextJob) && HandedOut(s.table, s.jevJobs, s.nextJob)
    && (forall job :: job in s.batches ==> job !in s.jevJobs)
    && (forall id :: id in s.table && s.table[id].job.Some? ==> s.table[id].job.value < s.nextJob)
    && (forall pid :: pid in s.submitters ==> SubmitterFits(s.submitters[pid], s.table, s.batches, s.jevJobs, s.nextJob))
    && (forall a, b :: a in s.submitters && b in s.submitters && a != b ==> s.submitters[a].job != s.submitters[b].job)
  }

  /** A table whose rows keep their jobs, but for free ones taken by `job` and ones `job` gives back. */
  ghost predicate OnlyMoves(before: Table, after: Table, job: JobId) {
    && (forall id :: id in before ==> id in after)
    && (forall id :: id in after && id !in before ==> after[id].job.None?)
    && (forall id :: id in before && before[id].job.Some? && before[id].job != Some(job) ==> after[id].job == before[id].job)
    && (forall id :: id in before && before[id].job.None? ==> after[id].job.None? || after[id].job == Some(job))
    && (forall id :: id in before && before[id].job == Some(job) ==> after[id].job.None? || after[id].job == Some(job))
  }

  lemma HandedOutKept(before: Table, after: Table, job: JobId, sent: map<JobId, set<ReqId>>, nextJob: JobId)
    requires HandedOut(before, sent, nextJob) && OnlyMoves(before, after, job) && job !in sent
    ensures HandedOut(after, sent, nextJob)
  {
  }

  lemma SubmitterKept(p: Submitter, before: Table, after: Table, job: JobId,
                      batches: map<JobId, set<ReqId>>, jevJobs: map<JobId, set<ReqId>>, nextJob: JobId)
    requires SubmitterFits(p, before, batches, jevJobs, nextJob) && OnlyMoves(before, after, job) && p.job != job
    ensures SubmitterFits(p, after, batches, jevJobs, nextJob)
  {
  }

  /** A step that changes no row's job. */
  ghost predicate SameJobs(before: Table, after: Table) {
    forall id :: (id in before ==> id in after && after[id].job == before[id].job) && (id in after && id !in before ==> after[id].job.None?)
  }

  lemma SameJobsKeepInv(s: State, table: Table)
    requires Inv(s) && SameJobs(s.table, table)
    ensures Inv(s.(table := table))
  {
    forall pid | pid in s.submitters ensures SubmitterFits(s.submitters[pid], table, s.batches, s.jevJobs, s.nextJob) {
      assert SubmitterFits(s.submitters[pid], s.table, s.batches, s.jevJobs, s.nextJob);
    }
  }

  /** A submitter that has handed nothing out may take free rows and give its own back. */
  lemma MovingKeepsInv(s: State, pid: Pid, table: Table, p: Submitter)
    requires Inv(s) && pid in s.submitters && !s.submitters[pid].phase.Handed? && p.job == s.submitters[pid].job
    requires OnlyMoves(s.table, table, p.job) && SubmitterFits(p, table, s.batches, s.jevJobs, s.nextJob)
    ensures Inv(s.(table := table, submitters := s.submitters[pid := p]))
  {
    var t := s.(table := table, submitters := s.submitters[pid := p]);
    assert SubmitterFits(s.submitters[pid], s.table, s.batches, s.jevJobs, s.nextJob);
    HandedOutKept(s.table, table, p.job, s.batches, s.nextJob);
    HandedOutKept(s.table, table, p.job, s.jevJobs, s.nextJob);
    forall a | a in t.submitters ensures SubmitterFits(t.submitters[a], table, s.batches, s.jevJobs, s.nextJob) {
      if a != pid { SubmitterKept(s.submitters[a], s.table, table, p.job, s.batches, s.jevJobs, s.nextJob); }
    }
    forall id | id in table && table[id].job.Some? ensures table[id].job.value < s.nextJob {
      assert id in s.table && s.table[id].job.Some? ==> s.table[id].job.value < s.nextJob;
    }
  }

  lemma LeavingKeepsInv(s: State, pid: Pid)
    requires Inv(s)
    ensures Inv(s.(submitters := s.submitters - {pid}))
  {
    var t := s.(submitters := s.submitters - {pid});
    forall a | a in t.submitters ensures SubmitterFits(t.submitters[a], t.table, t.batches, t.jevJobs, t.nextJob) {
      assert SubmitterFits(s.submitters[a], s.table, s.batches, s.jevJobs, s.nextJob);
    }
  }

  lemma TakingOnlyMoves(table: Table, job: JobId, ids: seq<ReqId>)
    ensures OnlyMoves(table, Take(table, job, ids), job)
    ensures forall id :: id in Take(table, job, ids) && Take(table, job, ids)[id].job == Some(job) ==>
      (id in table && table[id].job == Some(job)) || id in ids
  {
  }

  lemma ReserveKeepsInv(s: State, pid: Pid)
    requires Inv(s)
    ensures Inv(Next(s, Reserve(pid)))
  {
    if pid in s.submitters && s.submitters[pid].phase.Reserving? && s.submitters[pid].phase.taken < |s.submitters[pid].wanted| {
      var p := s.submitters[pid];
      var end := if p.phase.taken + CHUNK < |p.wanted| then p.phase.taken + CHUNK else |p.wanted|;
      var ids := p.wanted[p.phase.taken..end];
      assert SubmitterFits(p, s.table, s.batches, s.jevJobs, s.nextJob);
      TakingOnlyMoves(s.table, p.job, ids);
      MovingKeepsInv(s, pid, Take(s.table, p.job, ids), p.(phase := Reserving(end)));
    }
  }

  lemma FailKeepsInv(s: State, pid: Pid)
    requires Inv(s)
    ensures Inv(Next(s, Fail(pid)))
  {
    if pid in s.submitters && s.submitters[pid].phase.Reserving? {
      var p := s.submitters[pid];
      assert SubmitterFits(p, s.table, s.batches, s.jevJobs, s.nextJob);
      MovingKeepsInv(s, pid, s.table, p.(phase := Releasing));
    }
  }

  lemma CountKeepsInv(s: State, pid: Pid)
    requires Inv(s)
    ensures Inv(Next(s, Count(pid)))
  {
    if pid in s.submitters && s.submitters[pid].phase.Reserving? && s.submitters[pid].phase.taken >= |s.submitters[pid].wanted| {
      var p := s.submitters[pid];
      assert SubmitterFits(p, s.table, s.batches, s.jevJobs, s.nextJob);
      FullCountIsAll(s.table, p.job, p.wanted);
      var phase := if |ReservedIds(s.table, p.job)| == |p.wanted| then Holding else Releasing;
      MovingKeepsInv(s, pid, s.table, p.(phase := phase));
    }
  }

  lemma ReleaseKeepsInv(s: State, pid: Pid)
    requires Inv(s)
    ensures Inv(Next(s, Release(pid)))
  {
    if InPhase(s, pid, Releasing) {
      var p := s.submitters[pid];
      assert SubmitterFits(p, s.table, s.batches, s.jevJobs, s.nextJob);
      MovingKeepsInv(s, pid, GiveBack(s.table, p.job), p);
      LeavingKeepsInv(s.(table := GiveBack(s.table, p.job), submitters := s.submitters[pid := p]), pid);
      assert s.submitters[pid := p] - {pid} == s.submitters - {pid};
    }
  }

  lemma HandKeepsInv(s: State, pid: Pid)
    requires Inv(s)
    ensures Inv(Next(s, Hand(pid)))
  {
    if InPhase(s, pid, Holding) {
      var p := s.submitters[pid];
      assert SubmitterFits(p, s.table, s.batches, s.jevJobs, s.nextJob);
      HandedOutMore(s.table, if p.jev then s.jevJobs else s.batches, p.job, p.wanted, s.nextJob);
      var batches := if p.jev then s.batches else s.batches[p.job := Elements(p.wanted)];
      var jevJobs := if p.jev then s.jevJobs[p.job := Elements(p.wanted)] else s.jevJobs;
      hide Elements, HandedOut, Apart;
      var submitters := s.submitters[pid := p.(phase := Handed)];
      hide SubmitterFits;
      forall a | a in submitters ensures SubmitterFits(submitters[a], s.table, batches, jevJobs, s.nextJob) {
        if a == pid {
          HandingFits(p, s.table, s.batches, s.jevJobs, batches, jevJobs, s.nextJob);
        } else {
          assert SubmitterFits(s.submitters[a], s.table, s.batches, s.jevJobs, s.nextJob);
          OthersHandOut(s.submitters[a], s.table, s.batches, s.jevJobs, p.job, Elements(p.wanted), p.jev, s.nextJob);
        }
      }
    }
  }

  lemma HandingFits(p: Submitter, table: Table, batches: map<JobId, set<ReqId>>, jevJobs: map<JobId, set<ReqId>>,
                    newBatches: map<JobId, set<ReqId>>, newJevJobs: map<JobId, set<ReqId>>, nextJob: JobId)
    requires SubmitterFits(p, table, batches, jevJobs, nextJob) && p.phase.Holding?
    ensures SubmitterFits(p.(phase := Handed), table, newBatches, newJevJobs, nextJob)
  {
  }

  lemma OthersHandOut(q: Submitter, table: Table, batches: map<JobId, set<ReqId>>, jevJobs: map<JobId, set<ReqId>>,
                      job: JobId, ids: set<ReqId>, jev: bool, nextJob: JobId)
    requires SubmitterFits(q, table, batches, jevJobs, nextJob) && q.job != job
    ensures SubmitterFits(q, table, if jev then batches else batches[job := ids], if jev then jevJobs[job := ids] else jevJobs, nextJob)
  {
  }

  lemma HandedOutMore(table: Table, sent: map<JobId, set<ReqId>>, job: JobId, wanted: seq<ReqId>, nextJob: JobId)
    requires HandedOut(table, sent, nextJob) && job < nextJob
    requires forall id :: id in wanted ==> id in table && table[id].job == Some(job)
    ensures HandedOut(table, sent[job := Elements(wanted)], nextJob)
  {
  }

  lemma MarkAllKeepsJobs(table: Table, job: JobId, status: Status)
    ensures SameJobs(table, MarkAll(table, job, status))
  {
  }

  lemma SelectKeepsInv(s: State, pid: Pid, wanted: seq<ReqId>, jev: bool)
    requires Inv(s)
    ensures Inv(Next(s, Select(pid, wanted, jev)))
  {
    if pid !in s.submitters && Apart(wanted) {
      var t := Next(s, Select(pid, wanted, jev));
      forall a | a in t.submitters ensures SubmitterFits(t.submitters[a], t.table, t.batches, t.jevJobs, t.nextJob) {
        if a != pid { assert SubmitterFits(s.submitters[a], s.table, s.batches, s.jevJobs, s.nextJob); }
      }
      forall a, b | a in t.submitters && b in t.submitters && a != b ensures t.submitters[a].job != t.submitters[b].job {
        assert a != pid ==> SubmitterFits(s.submitters[a], s.table, s.batches, s.jevJobs, s.nextJob);
        assert b != pid ==> SubmitterFits(s.submitters[b], s.table, s.batches, s.jevJobs, s.nextJob);
      }
    }
  }

  lemma RejectKeepsInv(s: State, pid: Pid, blocked: bool)
    requires Inv(s)
    ensures Inv(Next(s, Reject(pid, blocked)))
  {
    if InPhase(s, pid, Holding) {
      var p := s.submitters[pid];
      assert SubmitterFits(p, s.table, s.batches, s.jevJobs, s.nextJob);
      if blocked {
        MovingKeepsInv(s, pid, s.table, p.(phase := Releasing));
      } else {
        MarkAllKeepsJobs(s.table, p.job, Failed);
        SameJobsKeepInv(s, MarkAll(s.table, p.job, Failed));
        LeavingKeepsInv(s.(table := MarkAll(s.table, p.job, Failed)), pid);
      }
    }
  }

  lemma StepKeepsInv(s: State, step: Step)
    requires Inv(s)
    ensures Inv(Next(s, step))
  {
    hide Inv, Take, GiveBack, MarkAll;
    match step
    case Select(pid, wanted, jev) => SelectKeepsInv(s, pid, wanted, jev);
    case Reserve(pid) => ReserveKeepsInv(s, pid);
    case Fail(pid) => FailKeepsInv(s, pid);
    case Count(pid) => CountKeepsInv(s, pid);
    case Release(pid) => ReleaseKeepsInv(s, pid);
    case Hand(pid) => HandKeepsInv(s, pid);
    case Reject(pid, blocked) => RejectKeepsInv(s, pid, blocked);
    case Mark(pid) =>
      if InPhase(s, pid, Handed) {
        var table := MarkAll(s.table, s.submitters[pid].job, Submitted);
        MarkAllKeepsJobs(s.table, s.submitters[pid].job, Submitted);
        SameJobsKeepInv(s, table);
        LeavingKeepsInv(s.(table := table), pid);
      }
    case Crash(pid) => LeavingKeepsInv(s, pid);
    case Enqueue(id) => SameJobsKeepInv(s, if id in s.table then s.table else s.table[id := Row(Queued, None)]);
    case Settle(id, status) =>
      var settled := if id in s.table then s.table[id := s.table[id].(status := if status.Queued? then s.table[id].status else status)] else s.table;
      SameJobsKeepInv(s, settled);
  }

  lemma {:induction false} RunKeepsInv(s: State, steps: seq<Step>)
    requires Inv(s)
    ensures Inv(After(s, steps))
    decreases |steps|
  {
    if steps != [] {
      hide Inv, Next;
      StepKeepsInv(s, steps[0]);
      RunKeepsInv(Next(s, steps[0]), steps[1..]);
    }
  }

  /**
   However any number of submitters interleave, crash and fail: no request is in two remote
   batches, in two JEV jobs, or in a batch and a JEV job.
   */
  lemma NoRequestIsHandedOutTwice(table: Table, steps: seq<Step>, id: ReqId, a: JobId, b: JobId)
    requires forall k :: k in table ==> table[k].job.None?
    ensures var s := After(Start(table), steps);
      && (a in s.batches && b in s.batches && id in s.batches[a] && id in s.batches[b] ==> a == b)
      && (a in s.jevJobs && b in s.jevJobs && id in s.jevJobs[a] && id in s.jevJobs[b] ==> a == b)
      && !(a in s.batches && b in s.jevJobs && id in s.batches[a] && id in s.jevJobs[b])
  {
    RunKeepsInv(Start(table), steps);
  }

  /** What has left the system is never taken back, and its requests stay with the job. */
  lemma {:induction false} HandedOutStays(s: State, steps: seq<Step>, job: JobId, id: ReqId)
    requires Inv(s) && ((job in s.batches && id in s.batches[job]) || (job in s.jevJobs && id in s.jevJobs[job]))
    ensures var t := After(s, steps); id in t.table && t.table[id].job == Some(job)
    decreases |steps|
  {
    if steps != [] {
      var next := Next(s, steps[0]);
      StepKeepsInv(s, steps[0]);
      assert (job in next.batches && id in next.batches[job]) || (job in next.jevJobs && id in next.jevJobs[job]) by {
        SentGrows(s, steps[0], job, id);
      }
      hide Next, Inv;
      HandedOutStays(next, steps[1..], job, id);
    }
  }

  lemma SentGrows(s: State, step: Step, job: JobId, id: ReqId)
    requires Inv(s) && ((job in s.batches && id in s.batches[job]) || (job in s.jevJobs && id in s.jevJobs[job]))
    ensures var next := Next(s, step);
      (job in next.batches && id in next.batches[job]) || (job in next.jevJobs && id in next.jevJobs[job])
  {
    if step.Hand? && InPhase(s, step.pid, Holding) {
      assert SubmitterFits(s.submitters[step.pid], s.table, s.batches, s.jevJobs, s.nextJob);
    }
    hide Take, GiveBack, MarkAll, Elements;
  }

  predicate NothingReserved(table: Table, job: JobId) { forall id :: id in table ==> !Reserved(table[id], job) }

  /** A reservation that runs to its end holds all it wanted, or nothing that is still queued; one that
      an error breaks off anywhere holds nothing that is still queued. */
  lemma ReservationIsAllOrNothing(s: State, pid: Pid)
    requires Inv(s) && pid in s.submitters && s.submitters[pid].phase.Reserving?
    ensures var t := Next(s, Count(pid)); var p := s.submitters[pid];
      p.phase.taken >= |p.wanted| ==>
        && (InPhase(t, pid, Holding) <==> forall id :: id in p.wanted ==> id in s.table && Reserved(s.table[id], p.job))
        && (InPhase(t, pid, Holding) || InPhase(t, pid, Releasing))
        && (InPhase(t, pid, Releasing) ==> NothingReserved(Next(t, Release(pid)).table, p.job))
    ensures NothingReserved(Next(Next(s, Fail(pid)), Release(pid)).table, s.submitters[pid].job)
  {
    var p := s.submitters[pid];
    assert SubmitterFits(p, s.table, s.batches, s.jevJobs, s.nextJob);
    FullCountIsAll(s.table, p.job, p.wanted);
    hide HandedOut, MarkAll, Elements, Take, SubmitterFits, Inv, Apart;
  }

  // ---------- what each step of a submitter does ----------

  /** The rows the job had queued become `row`; every other row stays. */
  predicate Becomes(before: Table, after: Table, job: JobId, row: Row) {
    && after.Keys == before.Keys
    && forall id :: id in before ==> after[id] == if before[id] == Row(Queued, Some(job)) then row else before[id]
  }

  /** A submitter selects under a new job, reserves free rows, counts, and hands out exactly what it wanted. */
  lemma ReservingTells(s: State, pid: Pid)
    requires pid in s.submitters && s.submitters[pid].phase.Reserving?
    ensures var p, t := s.submitters[pid], Next(s, Reserve(pid));
      var end := Min(p.phase.taken + CHUNK, |p.wanted|);
      if p.phase.taken < |p.wanted| then
        && pid in t.submitters && t.submitters[pid] == p.(phase := Reserving(end)) && t.table.Keys == s.table.Keys
        && (forall id :: id in s.table ==>
             t.table[id] == if id in p.wanted[p.phase.taken..end] && s.table[id] == Row(Queued, None) then Row(Queued, Some(p.job)) else s.table[id])
      else t == s
    ensures var p, t := s.submitters[pid], Next(s, Count(pid));
      var held := set id | id in s.table && s.table[id] == Row(Queued, Some(p.job));
      if p.phase.taken < |p.wanted| then t == s
      else t == s.(submitters := s.submitters[pid := p.(phase := if |held| == |p.wanted| then Holding else Releasing)])
    ensures Next(s, Fail(pid)) == s.(submitters := s.submitters[pid := s.submitters[pid].(phase := Releasing)])
  {
    var p := s.submitters[pid];
    assert (set id | id in s.table && s.table[id] == Row(Queued, Some(p.job))) == ReservedIds(s.table, p.job);
  }

  /** What is held leaves as one batch or one JEV job, whole; then its rows are marked. */
  lemma HandingTells(s: State, pid: Pid)
    requires pid in s.submitters
    ensures var p, t := s.submitters[pid], Next(s, Hand(pid));
      if p.phase.Holding? then
        && t.table == s.table && t.submitters == s.submitters[pid := p.(phase := Handed)] && t.nextJob == s.nextJob
        && (if p.jev then t.jevJobs == s.jevJobs[p.job := Elements(p.wanted)] && t.batches == s.batches
            else t.batches == s.batches[p.job := Elements(p.wanted)] && t.jevJobs == s.jevJobs)
      else t == s
    ensures var p, t := s.submitters[pid], Next(s, Mark(pid));
      if p.phase.Handed? then
        Becomes(s.table, t.table, p.job, Row(Submitted, Some(p.job))) && t == s.(table := t.table, submitters := s.submitters - {pid})
      else t == s
  {
  }

  /** A failed remote call fails its rows, unless the provider is blocked: then they are given back. */
  lemma RejectionTells(s: State, pid: Pid, blocked: bool)
    requires pid in s.submitters
    ensures var p, t := s.submitters[pid], Next(s, Reject(pid, blocked));
      if !p.phase.Holding? then t == s
      else if blocked then t == s.(submitters := s.submitters[pid := p.(phase := Releasing)])
      else Becomes(s.table, t.table, p.job, Row(Failed, Some(p.job))) && t == s.(table := t.table, submitters := s.submitters - {pid})
    ensures var p, t := s.submitters[pid], Next(s, Release(pid));
      if p.phase.Releasing? then
        Becomes(s.table, t.table, p.job, Row(Queued, None)) && t == s.(table := t.table, submitters := s.submitters - {pid})
      else t == s
  {
  }

  /** A new submitter starts under a job no one had; a crash leaves the rows as they are. */
  lemma StartingTells(s: State, pid: Pid, wanted: seq<ReqId>, jev: bool)
    requires pid !in s.submitters && Apart(wanted)
    ensures var t := Next(s, Select(pid, wanted, jev));
      t == s.(submitters := s.submitters[pid := Submitter(s.nextJob, wanted, jev, Reserving(0))], nextJob := t.nextJob) && t.nextJob > s.nextJob
  {
  }
}
