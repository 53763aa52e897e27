/** SitemapMonitor of sitemap_monitor/engine.py: objects and metadata written one by one, and the scan loop. */
module Engine {
  import opened Prelude
  import opened Entries
  import opened Fingerprint
  import opened Codec
  import opened Diff
  import opened Resources
  import opened ConditionalFetch
  import T = Traversal

  lemma {:induction false} OneMore(s: Store, ws: seq<Write>, w: Write)
    ensures PerformAll(s, ws + [w]) == Perform(PerformAll(s, ws), w)
    decreases |ws|
  {
    if ws == [] {
      assert [] + [w] == [w] && [w][1..] == [];
      assert PerformAll(s, [w]) == PerformAll(Perform(s, w), [w][1..]);
    } else {
      hide Perform;
      OneMore(Perform(s, ws[0]), ws[1..], w);
      assert (ws + [w])[1..] == ws[1..] + [w];
    }
  }

  lemma NothingPerformed(s: Store)
    ensures PerformAll(s, []) == s
  {
  }

  /** The rest of a scan completes what has been reported to the whole. */
  predicate Leads(c: Codec, w: T.Walk, s: Store, plan: T.Plan, limits: T.Limits, service: Service, run: nat,
                  reports: seq<Report>, goal: Scanned) {
    var rest := Scan(c, w, s, plan, limits, service, run);
    rest.walk == goal.walk && rest.store == goal.store && reports + rest.reports == goal.reports
  }

  lemma VisitLeads(c: Codec, w: T.Walk, s: Store, plan: T.Plan, limits: T.Limits, service: Service, run: nat,
                   reports: seq<Report>, goal: Scanned)
    requires w.queue != [] && T.MoveOf(w, plan, limits).Look? && Leads(c, w, s, plan, limits, service, run, reports, goal)
    ensures var url := w.queue[0].url; var check := Check(c, s, url, service.answer(url), run);
      var checked := CheckedOf(service, url, check.report);
      Leads(c, T.Turn(w, plan, u => checked, limits), PerformAll(s, check.writes), plan, limits, service, run,
            reports + [check.report], goal)
  {
    hide Scan, Check, PerformAll, T.Room, T.Turn, CheckedOf;
    var url := w.queue[0].url;
    var check := Check(c, s, url, service.answer(url), run);
    var checked := CheckedOf(service, url, check.report);
    ScanTurns(c, w, s, plan, limits, service, run);
    var rest := Scan(c, T.Turn(w, plan, u => checked, limits), PerformAll(s, check.writes), plan, limits, service, run);
    assert reports + ([check.report] + rest.reports) == reports + [check.report] + rest.reports;
  }

  lemma PassLeads(c: Codec, w: T.Walk, s: Store, plan: T.Plan, limits: T.Limits, service: Service, run: nat,
                  reports: seq<Report>, goal: Scanned)
    requires w.queue != [] && !T.MoveOf(w, plan, limits).Look? && Leads(c, w, s, plan, limits, service, run, reports, goal)
    ensures Leads(c, T.Turn(w, plan, u => T.Failed, limits), s, plan, limits, service, run, reports, goal)
  {
    hide Scan, T.Room, T.Turn;
    ScanTurns(c, w, s, plan, limits, service, run);
  }

  /** The variables of the loop of scan_site. */
  datatype Loop = Loop(queue: seq<T.Item>, visited: set<Text>, order: seq<Text>, reports: seq<Report>,
                       found: bool, usedFallback: bool)

  predicate Mirrors(loop: Loop, w: T.Walk) {
    && loop.queue == w.queue && loop.visited == w.seen.visited && loop.order == w.seen.order
    && loop.found == w.found && loop.usedFallback == w.usedFallback
  }

  lemma StartsWell(w: T.Walk)
    requires !w.deep && !w.full
    ensures Distinct<T.Reason>([]) == T.Reasons(w)
  {
    T.NoReasons();
  }

  /** The distinct reasons follow the two flags. */
  lemma NoteReason(reasons: seq<T.Reason>, reason: T.Reason, w: T.Walk, t: T.Walk)
    requires Distinct(reasons) == T.Reasons(w) && !w.full
    requires if reason == T.DepthLimit then t.deep && !t.full else t.full && t.deep == w.deep
    ensures Distinct(reasons + [reason]) == T.Reasons(t)
  {
    T.AnotherReason(reasons, reason);
  }

  lemma SameReasons(w: T.Walk, t: T.Walk)
    requires t.deep == w.deep && t.full == w.full
    ensures T.Reasons(t) == T.Reasons(w)
  {
  }

  class SitemapMonitor {
    const codec: Codec
    var objects: map<ObjectKey, Blob>
    var rows: map<Text, ResourceRow>
    var runs: seq<RunRecord>

    function View(): Store
      reads this
    {
      Store(objects, rows, runs)
    }

    constructor (codec: Codec)
      ensures this.codec == codec && View() == Store(map[], map[], [])
    {
      this.codec := codec;
      objects, rows, runs := map[], map[], [];
    }

    method MarkFailure(url: Text, run: nat, failure: Failure) returns (report: Report)
      modifies this
      ensures View() == PerformAll(old(View()), Failing(url, run, failure).writes) && report == NO_REPORT
    {
      ghost var s := View();
      runs := runs + [RunRecord(url, run, Failed(failure))];
      report := NO_REPORT;
      OneMore(s, [], Fail(url));
      OneMore(s, [Fail(url)], Record(RunRecord(url, run, Failed(failure))));
    }

    method ApplyFingerprint(url: Text, p: Print, v: Validators, run: nat) returns (report: Report)
      modifies this
      ensures View() == PerformAll(old(View()), ApplyPrint(codec, old(View()), url, p, v, run).writes)
      ensures report == ApplyPrint(codec, old(View()), url, p, v, run).report
    {
      hide Decode, EncodeState, DiffOf, PerformAll;
      ghost var s := View();
      var existing := if url in rows then Some(rows[url]) else None;
      var stateKey := StateKey(url, p.metadata);
      var shouldWrite := existing.None? || existing.value.urlset != p.urlset || existing.value.metadata != p.metadata;
      ghost var ws: seq<Write> := [];
      assert PerformAll(s, ws) == s by { NothingPerformed(s); }
      if shouldWrite {
        var blob := StateBlob(EncodeState(p.entries));
        OneMore(s, ws, Put(stateKey, blob));
        objects := objects[stateKey := blob];
        ws := [Put(stateKey, blob)];
        assert [] + [Put(stateKey, blob)] == ws;
      } else {
        stateKey := existing.value.stateKey;
      }
      assert ws == StatePut(s, url, p) && stateKey == StateKeyFor(s, url, p) && View() == PerformAll(s, ws);
      report := ReportFor(stateKey, p);
      var row := RowFor(stateKey, p, v);
      if existing.None? {
        SaveAndRecord(s, ws, url, row, RunRecord(url, run, Baseline(stateKey)));
        return;
      }
      if existing.value.urlset == p.urlset {
        SaveAndRecord(s, ws, url, row, RunRecord(url, run, SemanticUnchanged(stateKey)));
        return;
      }
      var before := existing.value.stateKey;
      if before !in objects {
        report := FailAfter(s, ws, url, run, PreviousStateMissing);
        return;
      }
      if !objects[before].StateBlob? {
        report := FailAfter(s, ws, url, run, PreviousStateInvalid);
        return;
      }
      var previous := DecodeState(codec, objects[before].rows);
      if previous.Err? {
        report := FailAfter(s, ws, url, run, PreviousStateInvalid);
        return;
      }
      var diff := DiffStates(previous.entries, p.entries);
      var diffKey := DiffKey(url, run, p.urlset);
      OneMore(s, ws, Put(diffKey, DiffBlob(diff)));
      objects := objects[diffKey := DiffBlob(diff)];
      SaveAndRecord(s, ws + [Put(diffKey, DiffBlob(diff))], url, row,
                    RunRecord(url, run, Changed(stateKey, diffKey, |diff.added|, |diff.removed|, |diff.modified|)));
      assert ws + [Put(diffKey, DiffBlob(diff))] + [Save(url, row), Record(runs[|runs| - 1])]
          == ws + [Put(diffKey, DiffBlob(diff)), Save(url, row), Record(runs[|runs| - 1])];
    }

    /** The row, then the run. */
    method SaveAndRecord(ghost s: Store, ghost ws: seq<Write>, url: Text, row: ResourceRow, record: RunRecord)
      requires View() == PerformAll(s, ws)
      modifies this`rows, this`runs
      ensures View() == PerformAll(s, ws + [Save(url, row), Record(record)])
      ensures runs == old(runs) + [record]
    {
      OneMore(s, ws, Save(url, row));
      rows := rows[url := row];
      OneMore(s, ws + [Save(url, row)], Record(record));
      runs := runs + [record];
      assert ws + [Save(url, row)] + [Record(record)] == ws + [Save(url, row), Record(record)];
    }

    method FailAfter(ghost s: Store, ghost ws: seq<Write>, url: Text, run: nat, failure: Failure) returns (report: Report)
      requires View() == PerformAll(s, ws)
      modifies this
      ensures View() == PerformAll(s, ws + Failing(url, run, failure).writes) && report == NO_REPORT
    {
      report := MarkFailure(url, run, failure);
      var record := Record(RunRecord(url, run, Failed(failure)));
      OneMore(s, ws, Fail(url));
      OneMore(s, ws + [Fail(url)], record);
      OneMore(PerformAll(s, ws), [], Fail(url));
      OneMore(PerformAll(s, ws), [Fail(url)], record);
      assert ws + [Fail(url)] + [record] == ws + [Fail(url), record];
    }

    method LoadIndexEntries(row: ResourceRow) returns (urls: seq<Text>)
      ensures urls == LoadIndex(codec, View(), row)
    {
      if !row.kind.Index? { return []; }
      if row.stateKey !in objects || !objects[row.stateKey].StateBlob? { return []; }
      var state := DecodeState(codec, objects[row.stateKey].rows);
      if state.Err? { return []; }
      return Urls(state.entries);
    }

    method CheckResource(url: Text, answer: Answer, run: nat) returns (report: Report)
      modifies this
      ensures View() == PerformAll(old(View()), Check(codec, old(View()), url, answer, run).writes)
      ensures report == Check(codec, old(View()), url, answer, run).report
    {
      hide LoadIndex, ApplyPrint, PrintOf;
      match answer {
        case NoAnswer => report := MarkFailure(url, run, FetchError);
        case Status(code) => report := MarkFailure(url, run, HttpStatus(code));
        case Garbage => report := MarkFailure(url, run, ParseError);
        case Unchanged(v) =>
          if url !in rows {
            report := MarkFailure(url, run, Unexpected304);
          } else {
            ghost var s := View();
            var row := rows[url];
            var links := LoadIndexEntries(row);
            rows := rows[url := Refreshed(row, v)];
            runs := runs + [RunRecord(url, run, NotModified(row.stateKey))];
            report := Report(false, row.kind, Some(row.stateKey), row.urlCount, links);
            OneMore(s, [], Refresh(url, v));
            OneMore(s, [Refresh(url, v)], Record(RunRecord(url, run, NotModified(row.stateKey))));
          }
        case Body(doc, v) => report := ApplyFingerprint(url, PrintOf(doc), v, run);
      }
    }

    /** The loop of scan_site. */
    method ScanSite(plan: T.Plan, service: Service, limits: T.Limits, run: nat)
      returns (order: seq<Text>, reports: seq<Report>, reasons: seq<T.Reason>, usedFallback: bool)
      modifies this
      ensures var scanned := Scan(codec, T.Start(plan), old(View()), plan, limits, service, run);
        && View() == scanned.store && reports == scanned.reports && order == scanned.walk.seen.order
        && reasons == T.Reasons(scanned.walk) && |reports| == |order|
        && (usedFallback <==> (!plan.authoritative ||
             exists i :: 0 <= i < |order| && order[i] in scanned.walk.seen.roots && order[i] in plan.fallback && !reports[i].failed))
    {
      hide Scan, Distinct, T.Items, T.Turn, T.Room, T.Reasons;
      var loop := Loop(T.Items(plan.roots, true, 0), {}, [], [], false, !plan.authoritative);
      reasons := [];
      ghost var w := T.Start(plan);
      ghost var goal := Scan(codec, w, View(), plan, limits, service, run);
      StartsWell(w);
      ScanTellsFallback(codec, w, View(), plan, limits, service, run, []);
      assert [] + goal.reports == goal.reports && FallbackTold(goal.walk, goal.reports, plan);
      while loop.queue != []
        invariant Mirrors(loop, w) && (w.full ==> loop.queue == []) && Distinct(reasons) == T.Reasons(w)
        invariant Leads(codec, w, View(), plan, limits, service, run, loop.reports, goal)
        decreases T.Room(w, limits), |loop.queue|
      {
        hide Leads;
        ghost var before := w;
        var item := loop.queue[0];
        if item.url !in loop.visited && |loop.visited| < limits.maxResources && item.depth <= limits.maxDepth
           && !(item.root && item.url in plan.fallback && loop.found)
        {
          loop, w := VisitNext(loop, plan, service, limits, run, w, goal);
          SameReasons(before, w);
        } else {
          PassTurns(w, plan, limits);
          PassLeads(codec, w, View(), plan, limits, service, run, loop.reports, goal);
          w := T.Turn(w, plan, u => T.Failed, limits);
          loop := loop.(queue := loop.queue[1..]);
          if item.url in loop.visited {
            SameReasons(before, w);
          } else if |loop.visited| >= limits.maxResources {
            NoteReason(reasons, T.ResourceLimit, before, w);
            reasons := reasons + [T.ResourceLimit];
            loop := loop.(queue := []);
          } else if item.depth > limits.maxDepth {
            NoteReason(reasons, T.DepthLimit, before, w);
            reasons := reasons + [T.DepthLimit];
          } else {
            SameReasons(before, w);
          }
        }
      }
      ScanTurns(codec, w, View(), plan, limits, service, run);
      order, reports, usedFallback := loop.order, loop.reports, loop.usedFallback;
      reasons := KeepDistinct(reasons);
    }

    /** A visit: the check, and what the loop keeps of it. */
    method VisitNext(loop: Loop, plan: T.Plan, service: Service, limits: T.Limits, run: nat, ghost w: T.Walk, ghost goal: Scanned)
      returns (next: Loop, ghost t: T.Walk)
      requires Mirrors(loop, w) && w.queue != [] && T.MoveOf(w, plan, limits).Look?
      requires Leads(codec, w, View(), plan, limits, service, run, loop.reports, goal)
      modifies this
      ensures Mirrors(next, t) && t.deep == w.deep && t.full == w.full && Shrinks(t, w, limits)
      ensures Leads(codec, t, View(), plan, limits, service, run, next.reports, goal)
    {
      hide Leads, Check, CheckedOf, PerformAll, T.Children, T.Items, T.Turn, T.Room;
      var item := loop.queue[0];
      ghost var checked := CheckedOf(service, item.url, Check(codec, View(), item.url, service.answer(item.url), run).report);
      VisitTurns(w, plan, limits, checked);
      VisitLeads(codec, w, View(), plan, limits, service, run, loop.reports, goal);
      t := T.Turn(w, plan, u => checked, limits);
      var report, links := CheckWithLinks(item.url, service, run);
      var success := item.root && !report.failed;
      next := Loop(loop.queue[1..] + T.Items(links, false, item.depth + 1), loop.visited + {item.url},
                   loop.order + [item.url], loop.reports + [report], loop.found || success,
                   loop.usedFallback || (success && item.url in plan.fallback));
    }

    method CheckWithLinks(url: Text, service: Service, run: nat) returns (report: Report, links: seq<Text>)
      modifies this
      ensures var check := Check(codec, old(View()), url, service.answer(url), run);
        && View() == PerformAll(old(View()), check.writes) && report == check.report
        && links == T.Children(CheckedOf(service, url, check.report))
        && (report.failed <==> CheckedOf(service, url, check.report).Failed?)
    {
      report := CheckResource(url, service.answer(url), run);
      links := Children(service, url, report);
    }

    /** The same-site links of an index. */
    method Children(service: Service, url: Text, report: Report) returns (links: seq<Text>)
      ensures links == T.Children(CheckedOf(service, url, report))
    {
      links := [];
      if !report.failed && report.kind.Index? {
        var all := CheckedOf(service, url, report).links;
        var i := 0;
        while i < |all|
          invariant 0 <= i <= |all|
          invariant links + T.SameSite(all[i..]) == T.SameSite(all)
        {
          assert all[i..][0] == all[i] && all[i..][1..] == all[i + 1..];
          i := i + 1;
          if !all[i - 1].sameSite { continue; }
          links := links + [all[i - 1].url];
        }
      }
    }
  }
}
