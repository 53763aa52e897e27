/** A scan served by honest 304 answers sees what a scan that refetches every body sees. */
module ConditionalFetch {
  import opened Entries
  import opened Fingerprint
  import opened Codec
  import opened Resources
  import opened ResourceSafety
  import opened ResourceChecks
  import T = Traversal
  import TT = TraversalTheorems

  // ---------- a check touches only its own resource ----------

  /** Two stores hold the same of one resource. */
  ghost predicate AgreeOn(s: Store, t: Store, url: Text) {
    && (url in s.rows <==> url in t.rows) && (url in s.rows ==> s.rows[url] == t.rows[url])
    && (forall m :: StateKey(url, m) in s.objects <==> StateKey(url, m) in t.objects)
    && (forall m :: StateKey(url, m) in s.objects && StateKey(url, m) in t.objects ==>
          s.objects[StateKey(url, m)] == t.objects[StateKey(url, m)])
  }

  predicate Touches(w: Write, url: Text) {
    match w
    case Put(key, _) => key.url == url
    case Save(u, _) => u == url
    case Refresh(u, _) => u == url
    case Fail(u) => u == url
    case Record(_) => true
  }

  ghost predicate AllTouch(ws: seq<Write>, url: Text) { forall i :: 0 <= i < |ws| ==> Touches(ws[i], url) }

  lemma CheckTouches(c: Codec, s: Store, url: Text, answer: Answer, run: nat)
    ensures AllTouch(Check(c, s, url, answer, run).writes, url)
  {
    hide LoadIndex, Decode, PrintOf, EncodeState;
  }

  lemma TouchLeavesOthers(s: Store, w: Write, url: Text, other: Text)
    requires Touches(w, url) && other != url
    ensures AgreeOn(s, Perform(s, w), other)
  {
  }

  lemma {:induction false} WritesLeaveOthers(s: Store, ws: seq<Write>, url: Text, other: Text)
    requires AllTouch(ws, url) && other != url
    ensures AgreeOn(s, PerformAll(s, ws), other)
    decreases |ws|
  {
    if ws != [] {
      assert Touches(ws[0], url);
      assert forall i :: 0 <= i < |ws[1..]| ==> ws[1..][i] == ws[i + 1];
      hide Perform, Touches;
      TouchLeavesOthers(s, ws[0], url, other);
      WritesLeaveOthers(Perform(s, ws[0]), ws[1..], url, other);
    }
  }

  ghost predicate OwnKey(s: Store, url: Text) {
    url in s.rows ==> s.rows[url].stateKey.StateKey? && s.rows[url].stateKey.url == url
  }

  /** A report depends on nothing but the resource itself. */
  lemma ReportIsLocal(c: Codec, s: Store, t: Store, url: Text, answer: Answer, run: nat)
    requires AgreeOn(s, t, url) && OwnKey(s, url)
    ensures Check(c, s, url, answer, run).report == Check(c, t, url, answer, run).report
  {
    if url in s.rows {
      var key := s.rows[url].stateKey;
      assert key == StateKey(url, key.metadata);
      assert key in s.objects <==> key in t.objects;
    }
    if answer.Body? {
      StatedIs(s, url, PrintOf(answer.doc));
      StatedIs(t, url, PrintOf(answer.doc));
    }
    hide Decode, PrintOf, EncodeState, PerformAll;
  }

  // ---------- a scan over the store ----------

  /** Which answer each URL gets, and which links stay on the site. */
  datatype Service = Service(answer: Text -> Answer, sameSite: (Text, Text) -> bool)

  function CheckedOf(service: Service, url: Text, report: Report): T.Checked {
    if report.failed then T.Failed
    else T.Fetched(report.kind.Index?,
                   seq(|report.links|, i requires 0 <= i < |report.links| =>
                     T.Link(report.links[i], service.sameSite(report.links[i], url))))
  }

  datatype Scanned = Scanned(walk: T.Walk, reports: seq<Report>, store: Store)

  /** scan_site with its checks: each visit checks its URL against the store the visits before it left. */
  function Scan(c: Codec, w: T.Walk, s: Store, plan: T.Plan, limits: T.Limits, service: Service, run: nat): Scanned
    decreases T.Room(w, limits), |w.queue|
  {
    if w.queue == [] then Scanned(w, [], s)
    else if T.MoveOf(w, plan, limits).Look? then
      var url := w.queue[0].url;
      var check := Check(c, s, url, service.answer(url), run);
      var checked := CheckedOf(service, url, check.report);
      T.TurnShrinks(w, plan, u => checked, limits);
      var rest := Scan(c, T.Turn(w, plan, u => checked, limits), PerformAll(s, check.writes), plan, limits, service, run);
      rest.(reports := [check.report] + rest.reports)
    else
      T.TurnShrinks(w, plan, u => T.Failed, limits);
      Scan(c, T.Turn(w, plan, u => T.Failed, limits), s, plan, limits, service, run)
  }

  /** What the store of the start of the scan would report of each URL. */
  function Foreseen(c: Codec, s: Store, service: Service, run: nat): Text -> Report {
    url => Check(c, s, url, service.answer(url), run).report
  }

  function ForeseenCheck(c: Codec, s: Store, service: Service, run: nat): Text -> T.Checked {
    url => CheckedOf(service, url, Foreseen(c, s, service, run)(url))
  }

  /** Nothing not yet visited has changed since the start. */
  ghost predicate Ahead(s: Store, start: Store, visited: set<Text>) {
    forall url :: url !in visited ==> AgreeOn(start, s, url)
  }

  lemma AheadAfterCheck(c: Codec, s: Store, start: Store, visited: set<Text>, url: Text, answer: Answer, run: nat)
    requires Ahead(s, start, visited)
    ensures Ahead(PerformAll(s, Check(c, s, url, answer, run).writes), start, visited + {url})
  {
    var ws := Check(c, s, url, answer, run).writes;
    CheckTouches(c, s, url, answer, run);
    hide Check, PerformAll;
    forall u | u !in visited + {url} ensures AgreeOn(start, PerformAll(s, ws), u) {
      WritesLeaveOthers(s, ws, url, u);
      assert AgreeOn(start, s, u);
    }
  }

  function Reports(order: seq<Text>, report: Text -> Report): seq<Report> {
    seq(|order|, i requires 0 <= i < |order| => report(order[i]))
  }

  /** A turn uses an answer only to visit, and only that of the head. */
  lemma SameTurn(w: T.Walk, plan: T.Plan, limits: T.Limits, a: Text -> T.Checked, b: Text -> T.Checked)
    requires w.queue != [] && (T.MoveOf(w, plan, limits).Look? ==> a(w.queue[0].url) == b(w.queue[0].url))
    ensures T.Turn(w, plan, a, limits) == T.Turn(w, plan, b, limits)
  {
  }

  /** What a turn adds to the order of visits. */
  lemma TurnOrder(w: T.Walk, plan: T.Plan, check: Text -> T.Checked, limits: T.Limits)
    requires w.queue != []
    ensures var t := T.Turn(w, plan, check, limits);
      if T.MoveOf(w, plan, limits).Look?
      then t.seen.order == w.seen.order + [w.queue[0].url] && t.seen.visited == w.seen.visited + {w.queue[0].url}
      else t.seen == w.seen
  {
  }

  predicate Extends(order: seq<Text>, longer: seq<Text>) {
    |order| <= |longer| && longer[..|order|] == order
  }

  /** A scan walks and reports as foreseen from the store it started on. */
  lemma {:induction false} ScanIsForeseen(
    c: Codec, w: T.Walk, s: Store, start: Store, plan: T.Plan, limits: T.Limits, service: Service, run: nat)
    requires Ahead(s, start, w.seen.visited) && forall url :: OwnKey(start, url)
    ensures var scanned := Scan(c, w, s, plan, limits, service, run);
      var e := T.Run(w, plan, ForeseenCheck(c, start, service, run), limits);
      && scanned.walk == e && Extends(w.seen.order, e.seen.order)
      && scanned.reports == Reports(e.seen.order[|w.seen.order|..], Foreseen(c, start, service, run))
    decreases T.Room(w, limits), |w.queue|
  {
    var check := ForeseenCheck(c, start, service, run);
    T.RunTurns(w, plan, check, limits);
    if w.queue != [] {
      var url := w.queue[0].url;
      T.TurnShrinks(w, plan, check, limits);
      TurnOrder(w, plan, check, limits);
      if T.MoveOf(w, plan, limits).Look? {
        ScanOfVisit(c, w, s, start, plan, limits, service, run);
        var next := PerformAll(s, Check(c, s, url, service.answer(url), run).writes);
        AheadAfterCheck(c, s, start, w.seen.visited, url, service.answer(url), run);
        hide T.Run, T.Turn, T.Room, Check, PerformAll, Scan, Ahead, OwnKey, Foreseen, ForeseenCheck;
        ScanIsForeseen(c, T.Turn(w, plan, check, limits), next, start, plan, limits, service, run);
        var order := T.Run(w, plan, check, limits).seen.order;
        ExtendedBy(w.seen.order, url, order, Foreseen(c, start, service, run));
      } else {
        SameTurn(w, plan, limits, u => T.Failed, check);
        ScanIsForeseen(c, T.Turn(w, plan, check, limits), s, start, plan, limits, service, run);
      }
    }
  }

  lemma ExtendedBy(order: seq<Text>, url: Text, longer: seq<Text>, report: Text -> Report)
    requires Extends(order + [url], longer)
    ensures Extends(order, longer)
    ensures Reports(longer[|order|..], report) == [report(url)] + Reports(longer[|order| + 1..], report)
  {
    assert longer[..|order|] == longer[..|order| + 1][..|order|];
    assert longer[|order|] == longer[..|order| + 1][|order|];
    assert longer[|order|..] == [url] + longer[|order| + 1..];
  }

  /** One visit of the scan, seen from the start. */
  lemma ScanOfVisit(c: Codec, w: T.Walk, s: Store, start: Store, plan: T.Plan, limits: T.Limits, service: Service, run: nat)
    requires Ahead(s, start, w.seen.visited) && forall url :: OwnKey(start, url)
    requires w.queue != [] && T.MoveOf(w, plan, limits).Look?
    ensures var url := w.queue[0].url; var check := ForeseenCheck(c, start, service, run);
      var rest := Scan(c, T.Turn(w, plan, check, limits), PerformAll(s, Check(c, s, url, service.answer(url), run).writes),
                       plan, limits, service, run);
      Scan(c, w, s, plan, limits, service, run) ==
        rest.(reports := [Foreseen(c, start, service, run)(url)] + rest.reports)
  {
    var url := w.queue[0].url;
    assert AgreeOn(start, s, url) && OwnKey(start, url);
    ReportIsLocal(c, start, s, url, service.answer(url), run);
    var checked := CheckedOf(service, url, Check(c, s, url, service.answer(url), run).report);
    assert Foreseen(c, start, service, run)(url) == Check(c, s, url, service.answer(url), run).report;
    assert ForeseenCheck(c, start, service, run)(url) == checked;
    hide Check, PerformAll, T.Room, AgreeOn, OwnKey, Ahead, CheckedOf;
    SameTurn(w, plan, limits, u => checked, ForeseenCheck(c, start, service, run));
  }

  // ---------- single turns ----------

  /** One turn of a scan, unfolded. */
  lemma ScanTurns(c: Codec, w: T.Walk, s: Store, plan: T.Plan, limits: T.Limits, service: Service, run: nat)
    ensures var scanned := Scan(c, w, s, plan, limits, service, run);
      if w.queue == [] then scanned == Scanned(w, [], s)
      else if T.MoveOf(w, plan, limits).Look? then
        var url := w.queue[0].url;
        var check := Check(c, s, url, service.answer(url), run);
        var checked := CheckedOf(service, url, check.report);
        var rest := Scan(c, T.Turn(w, plan, u => checked, limits), PerformAll(s, check.writes), plan, limits, service, run);
        scanned == rest.(reports := [check.report] + rest.reports)
      else scanned == Scan(c, T.Turn(w, plan, u => T.Failed, limits), s, plan, limits, service, run)
  {
  }

  predicate Shrinks(t: T.Walk, w: T.Walk, limits: T.Limits) {
    T.Room(t, limits) < T.Room(w, limits) || (T.Room(t, limits) == T.Room(w, limits) && |t.queue| < |w.queue|)
  }

  /** A visit, field by field. */
  lemma VisitTurns(w: T.Walk, plan: T.Plan, limits: T.Limits, checked: T.Checked)
    requires w.queue != [] && T.MoveOf(w, plan, limits).Look?
    ensures var item := w.queue[0]; var t := T.Turn(w, plan, u => checked, limits);
      && t.queue == w.queue[1..] + T.Items(T.Children(checked), false, item.depth + 1)
      && t.seen.visited == w.seen.visited + {item.url} && t.seen.order == w.seen.order + [item.url]
      && t.seen.roots == (if item.root then w.seen.roots + {item.url} else w.seen.roots) && item.url !in w.seen.visited
      && t.deep == w.deep && t.full == w.full && t.found == (w.found || (item.root && !checked.Failed?))
      && t.usedFallback == (w.usedFallback || (item.root && !checked.Failed? && item.url in plan.fallback))
      && Shrinks(t, w, limits)
  {
    T.TurnShrinks(w, plan, u => checked, limits);
    hide T.Room, T.Children, T.Items;
  }

  /** A turn without a visit, field by field. */
  lemma PassTurns(w: T.Walk, plan: T.Plan, limits: T.Limits)
    requires w.queue != [] && !T.MoveOf(w, plan, limits).Look?
    ensures var t := T.Turn(w, plan, u => T.Failed, limits);
      && t.queue == (if T.MoveOf(w, plan, limits).Full? then [] else w.queue[1..])
      && t.seen == w.seen && t.found == w.found && t.usedFallback == w.usedFallback
      && t.deep == (w.deep || T.MoveOf(w, plan, limits).Deep?) && t.full == (w.full || T.MoveOf(w, plan, limits).Full?)
      && Shrinks(t, w, limits)
  {
    T.TurnShrinks(w, plan, u => T.Failed, limits);
    hide T.Room;
  }

  // ---------- what the fallback flag of a scan tells ----------

  /** The visited URLs and their reports tell whether the fallback was used. */
  ghost predicate FallbackTold(w: T.Walk, reports: seq<Report>, plan: T.Plan) {
    && |reports| == |w.seen.order| && (forall u :: u in w.seen.order <==> u in w.seen.visited) && w.seen.roots <= w.seen.visited
    && (w.usedFallback <==> !plan.authoritative || FallbackFound(w.seen, reports, plan))
  }

  /** A fallback root was checked and did not fail. */
  ghost predicate FallbackFound(seen: T.Seen, reports: seq<Report>, plan: T.Plan)
    requires |reports| == |seen.order|
  {
    exists i :: 0 <= i < |seen.order| && seen.order[i] in seen.roots && seen.order[i] in plan.fallback && !reports[i].failed
  }

  /** One more visit: its URL was new. */
  lemma OneMoreReport(seen: T.Seen, next: T.Seen, reports: seq<Report>, report: Report, url: Text, root: bool, plan: T.Plan)
    requires |reports| == |seen.order| && (forall u :: u in seen.order ==> u in seen.visited) && url !in seen.visited
    requires next.order == seen.order + [url] && next.roots == if root then seen.roots + {url} else seen.roots
    requires seen.roots <= seen.visited
    ensures FallbackFound(next, reports + [report], plan) <==>
      FallbackFound(seen, reports, plan) || (root && url in plan.fallback && !report.failed)
  {
    var n, more := |seen.order|, reports + [report];
    forall i | 0 <= i < n
      ensures next.order[i] == seen.order[i] && more[i] == reports[i] && (next.order[i] in next.roots <==> seen.order[i] in seen.roots)
    {
      assert seen.order[i] in seen.order;
    }
    assert next.order[n] == url && more[n] == report;
    if FallbackFound(seen, reports, plan) {
      var i :| 0 <= i < n && seen.order[i] in seen.roots && seen.order[i] in plan.fallback && !reports[i].failed;
      assert next.order[i] in next.roots && next.order[i] in plan.fallback && !more[i].failed;
    }
  }

  lemma VisitTellsFallback(w: T.Walk, reports: seq<Report>, plan: T.Plan, limits: T.Limits, checked: T.Checked, report: Report)
    requires w.queue != [] && T.MoveOf(w, plan, limits).Look? && FallbackTold(w, reports, plan)
    requires checked.Failed? <==> report.failed
    ensures FallbackTold(T.Turn(w, plan, u => checked, limits), reports + [report], plan)
  {
    hide T.Turn, T.Children, T.Items, FallbackFound;
    var item := w.queue[0];
    VisitTurns(w, plan, limits, checked);
    OneMoreReport(w.seen, T.Turn(w, plan, u => checked, limits).seen, reports, report, item.url, item.root, plan);
  }

  lemma PassTellsFallback(w: T.Walk, reports: seq<Report>, plan: T.Plan, limits: T.Limits)
    requires w.queue != [] && !T.MoveOf(w, plan, limits).Look? && FallbackTold(w, reports, plan)
    ensures FallbackTold(T.Turn(w, plan, u => T.Failed, limits), reports, plan)
  {
    hide T.Turn;
    PassTurns(w, plan, limits);
  }

  /** A scan's flag is told by what it visited and reported. */
  lemma {:induction false} ScanTellsFallback(
    c: Codec, w: T.Walk, s: Store, plan: T.Plan, limits: T.Limits, service: Service, run: nat, reports: seq<Report>)
    requires FallbackTold(w, reports, plan)
    ensures var scanned := Scan(c, w, s, plan, limits, service, run); FallbackTold(scanned.walk, reports + scanned.reports, plan)
    decreases T.Room(w, limits), |w.queue|
  {
    hide Scan, FallbackTold, T.Turn, T.Room, Check, CheckedOf, PerformAll;
    ScanTurns(c, w, s, plan, limits, service, run);
    if w.queue == [] {
      assert reports + [] == reports;
    } else if T.MoveOf(w, plan, limits).Look? {
      var url := w.queue[0].url;
      var check := Check(c, s, url, service.answer(url), run);
      var checked := CheckedOf(service, url, check.report);
      CheckedFails(service, url, check.report);
      VisitTurns(w, plan, limits, checked);
      VisitTellsFallback(w, reports, plan, limits, checked, check.report);
      var t, next := T.Turn(w, plan, u => checked, limits), PerformAll(s, check.writes);
      ScanTellsFallback(c, t, next, plan, limits, service, run, reports + [check.report]);
      var rest := Scan(c, t, next, plan, limits, service, run);
      assert reports + [check.report] + rest.reports == reports + ([check.report] + rest.reports);
    } else {
      PassTurns(w, plan, limits);
      PassTellsFallback(w, reports, plan, limits);
      ScanTellsFallback(c, T.Turn(w, plan, u => T.Failed, limits), s, plan, limits, service, run, reports);
    }
  }

  lemma CheckedFails(service: Service, url: Text, report: Report)
    ensures CheckedOf(service, url, report).Failed? <==> report.failed
  {
  }

  // ---------- honest 304 answers ----------

  /** The body a 304 stands for still has the fingerprints and the kind of the stored row. */
  ghost predicate Honest(s: Store, url: Text, body: Answer) {
    body.Body? && url in s.rows &&
    var p, row := PrintOf(body.doc), s.rows[url];
    p.urlset == row.urlset && p.metadata == row.metadata && p.kind == row.kind
  }

  /** A 304 and the body it stands for report the same. */
  lemma SameReport(c: Codec, known: set<Text>, s: Store, url: Text, body: Answer, v: Validators, run: nat)
    requires Inv(c, known, s) && NoCollisions(c, known) && AnswerFits(c, known, body) && Honest(s, url, body)
    ensures Check(c, s, url, Unchanged(v), run).report == Check(c, s, url, body, run).report
  {
    var p, row := PrintOf(body.doc), s.rows[url];
    PrintReads(c, known, body.doc);
    assert RowFits(c, url, row, s.objects) && ObjectFits(c, known, row.stateKey, s.objects);
    PrintDecides(c, known, EntriesAt(c, row.stateKey, s.objects), p.entries);
    assert LoadIndex(c, s, row) == if row.kind.Index? then Urls(p.entries) else [];
  }

  /** Some URLs are answered by honest 304s, the others alike by both services. */
  ghost predicate HonestlyCached(s: Store, cached: Service, full: Service) {
    cached.sameSite == full.sameSite &&
    forall url :: cached.answer(url) == full.answer(url) ||
                  (cached.answer(url).Unchanged? && Honest(s, url, full.answer(url)))
  }

  /**
   A scan served by honest 304 answers visits the same URLs in the same order, with the same
   reasons, and reports the same resources (kind, state, URL count) as one that refetches every
   body.
   */
  lemma HonestCacheIsInvisible(c: Codec, known: set<Text>, s: Store, plan: T.Plan, limits: T.Limits,
                               cached: Service, full: Service, run: nat)
    requires Inv(c, known, s) && NoCollisions(c, known) && HonestlyCached(s, cached, full)
    requires forall url :: AnswerFits(c, known, full.answer(url))
    ensures var a := Scan(c, T.Start(plan), s, plan, limits, cached, run);
      var b := Scan(c, T.Start(plan), s, plan, limits, full, run);
      a.walk == b.walk && a.reports == b.reports
  {
    var w := T.Start(plan);
    forall url ensures OwnKey(s, url) { assert url in s.rows ==> RowFits(c, url, s.rows[url], s.objects); }
    assert Ahead(s, s, {});
    ScanIsForeseen(c, w, s, s, plan, limits, cached, run);
    ScanIsForeseen(c, w, s, s, plan, limits, full, run);
    forall url ensures Foreseen(c, s, cached, run)(url) == Foreseen(c, s, full, run)(url) {
      if cached.answer(url) != full.answer(url) {
        SameReport(c, known, s, url, full.answer(url), cached.answer(url).validators, run);
      }
    }
    var a, b := ForeseenCheck(c, s, cached, run), ForeseenCheck(c, s, full, run);
    assert TT.SameAnswers(a, b);
    TT.WalkFollowsAnswers(w, plan, limits, a, b);
  }
}
