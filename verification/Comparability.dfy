/** sitemap_monitor/comparability.py: what one whole-site scan says about the last trusted one. */
module Comparability {
  import opened Prelude

  type Family = string

  datatype Kind = UrlSet | Index

  /** Why a scan was judged as it was; a walk's own reasons come first. */
  datatype Reason =
    | OfWalk(code: string)
    | NoSuccessfulResource | TraversalIncomplete | ResourceFetchFailed | BaselineMissing
    | PartitionChange | FamilyReplacement | ResourceSetMoved | StableConfirmation

  /** One checked resource. */
  datatype Outcome = Outcome(url: string, resource: string, kind: Kind, failed: bool, parent: Option<string>, urlCount: nat)

  datatype ScanResult = ScanResult(
    id: nat, outcomes: seq<Outcome>, fallback: bool, traversalComplete: bool, traversalReasons: seq<string>)

  /**
   The stable hashes of sorted names are kept as what they hash: a set of families and a
   multiset of URLs.
   */
  datatype Snapshot = Snapshot(
    id: nat,
    attempted: nat,
    successful: nat,
    families: set<Family>,
    urls: multiset<string>,
    urlCount: nat,
    traversalComplete: bool,
    traversalReasons: seq<string>)
  {
    predicate Complete() { traversalComplete && successful > 0 && successful == attempted }

    function SuccessRatio(): real { if attempted == 0 then 0.0 else successful as real / attempted as real }
  }

  datatype Status = BaselineInvalid | Comparable | FetchIncomplete | Partial | PossibleMigration | ResourceSetChanged

  datatype Stored = Stored(snapshot: Snapshot, status: Status, promoted: bool)

  datatype Verdict = Verdict(
    status: Status, promote: bool, coverage: real, reasons: seq<Reason>, baseline: Option<nat>)

  datatype Policy = Policy(ratioMin: real, ratioMax: real)
  {
    predicate Valid() { 0.0 < ratioMin <= ratioMax }
  }

  // ---------- building a snapshot ----------

  predicate Relevant(fallback: bool, o: Outcome) { !fallback || !o.failed || o.parent.Some? }

  function Select(outcomes: seq<Outcome>, fallback: bool, fetched: bool): (kept: seq<Outcome>)
    ensures |kept| <= |outcomes|
    ensures forall o :: o in kept <==> o in outcomes && Relevant(fallback, o) && (fetched ==> !o.failed)
  {
    if outcomes == [] then []
    else
      var rest := Select(outcomes[1..], fallback, fetched);
      if Relevant(fallback, outcomes[0]) && (fetched ==> !outcomes[0].failed) then [outcomes[0]] + rest else rest
  }

  function Urls(outcomes: seq<Outcome>): multiset<string> {
    if outcomes == [] then multiset{} else multiset{outcomes[0].url} + Urls(outcomes[1..])
  }

  function UrlTotal(outcomes: seq<Outcome>): nat {
    if outcomes == [] then 0
    else (if outcomes[0].kind.Index? then 0 else outcomes[0].urlCount) + UrlTotal(outcomes[1..])
  }

  function BuildSnapshot(result: ScanResult, family: string -> Family): Snapshot {
    var relevant := Select(result.outcomes, result.fallback, false);
    var fetched := Select(result.outcomes, result.fallback, true);
    Snapshot(result.id, |relevant|, |fetched|, set o | o in fetched :: family(o.url), Urls(fetched),
             UrlTotal(fetched), result.traversalComplete, result.traversalReasons)
  }

  /** The scheduler reports success exactly when some outcome did not fail. */
  predicate Successful(result: ScanResult) { exists o :: o in result.outcomes && !o.failed }

  lemma {:induction false} FetchedAmongRelevant(outcomes: seq<Outcome>, fallback: bool)
    ensures |Select(outcomes, fallback, true)| <= |Select(outcomes, fallback, false)|
    ensures |Select(outcomes, fallback, true)| == |Select(outcomes, fallback, false)| <==>
            forall o :: o in outcomes && Relevant(fallback, o) ==> !o.failed
  {
    if outcomes != [] {
      FetchedAmongRelevant(outcomes[1..], fallback);
      assert forall o :: o in outcomes <==> o == outcomes[0] || o in outcomes[1..];
    }
  }

  /** Every relevant resource, at least one, was fetched on a complete traversal. */
  predicate FullyFetched(result: ScanResult) {
    result.traversalComplete && Successful(result) &&
    forall o :: o in result.outcomes && o.failed ==> result.fallback && o.parent.None?
  }

  lemma SuccessIsFetched(result: ScanResult)
    ensures Select(result.outcomes, result.fallback, true) != [] <==> Successful(result)
  {
    var fetched := Select(result.outcomes, result.fallback, true);
    if fetched != [] { assert fetched[0] in fetched; }
    if o :| o in result.outcomes && !o.failed { assert o in fetched; }
  }

  /** A snapshot counts a success exactly for a successful scan, and is complete exactly when fully fetched. */
  lemma SnapshotCounts(result: ScanResult, family: string -> Family)
    ensures var snap := BuildSnapshot(result, family);
      && snap.successful <= snap.attempted
      && (snap.successful > 0 <==> Successful(result))
      && (snap.successful > 0 <==> snap.families != {})
      && (snap.Complete() <==> FullyFetched(result))
  {
    var fetched := Select(result.outcomes, result.fallback, true);
    FetchedAmongRelevant(result.outcomes, result.fallback);
    SuccessIsFetched(result);
    if fetched != [] { assert family(fetched[0].url) in BuildSnapshot(result, family).families; }
  }

  function CountIf(outcomes: seq<Outcome>, test: Outcome -> bool): nat {
    if outcomes == [] then 0 else (if test(outcomes[0]) then 1 else 0) + CountIf(outcomes[1..], test)
  }

  /** The URLs listed by the URL sets that were fetched. */
  function Listed(outcomes: seq<Outcome>): nat {
    if outcomes == [] then 0
    else (if outcomes[0].failed || outcomes[0].kind.Index? then 0 else outcomes[0].urlCount) + Listed(outcomes[1..])
  }

  /** How often a URL was fetched. */
  function Fetches(outcomes: seq<Outcome>, url: string): nat { CountIf(outcomes, (o: Outcome) => !o.failed && o.url == url) }

  lemma {:induction false} SelectCounts(outcomes: seq<Outcome>, fallback: bool, url: string)
    ensures |Select(outcomes, fallback, true)| == CountIf(outcomes, (o: Outcome) => !o.failed)
    ensures |Select(outcomes, fallback, false)| == CountIf(outcomes, (o: Outcome) => !(fallback && o.failed && o.parent.None?))
    ensures UrlTotal(Select(outcomes, fallback, true)) == Listed(outcomes)
    ensures Urls(Select(outcomes, fallback, true))[url] == Fetches(outcomes, url)
  {
    if outcomes != [] { SelectCounts(outcomes[1..], fallback, url); }
  }

  /** A snapshot tells what the outcomes tell; of a fallback scan, failed roots are not even attempted. */
  lemma SnapshotTells(result: ScanResult, family: string -> Family, url: string)
    ensures var snap := BuildSnapshot(result, family);
      && snap.id == result.id && snap.traversalComplete == result.traversalComplete && snap.traversalReasons == result.traversalReasons
      && snap.attempted == CountIf(result.outcomes, (o: Outcome) => !(result.fallback && o.failed && o.parent.None?))
      && snap.successful == CountIf(result.outcomes, (o: Outcome) => !o.failed)
      && snap.families == (set o | o in result.outcomes && !o.failed :: family(o.url))
      && snap.urls[url] == Fetches(result.outcomes, url) && snap.urlCount == Listed(result.outcomes)
  {
    SelectCounts(result.outcomes, result.fallback, url);
    var fetched := Select(result.outcomes, result.fallback, true);
    assert forall o :: o in fetched <==> o in result.outcomes && !o.failed;
    hide Select;
    assert (set o | o in fetched :: family(o.url)) == (set o | o in result.outcomes && !o.failed :: family(o.url));
  }

  // ---------- comparing two scans ----------

  function FamilyCoverage(current: Snapshot, baseline: Snapshot): real {
    if baseline.families == {} then 1.0
    else |baseline.families * current.families| as real / |baseline.families| as real
  }

  function FamilyOverlap(current: Snapshot, baseline: Snapshot): real {
    if baseline.families + current.families == {} then 1.0
    else |baseline.families * current.families| as real / |baseline.families + current.families| as real
  }

  datatype Ratio = Finite(value: real) | Infinite

  function UrlRatio(current: Snapshot, baseline: Snapshot): Ratio {
    if baseline.urlCount == 0 then (if current.urlCount == 0 then Finite(1.0) else Infinite)
    else Finite(current.urlCount as real / baseline.urlCount as real)
  }

  predicate LooksLikeMigration(current: Snapshot, baseline: Snapshot, policy: Policy) {
    var ratio := UrlRatio(current, baseline);
    FamilyOverlap(current, baseline) < 0.5 && ratio.Finite? && policy.ratioMin <= ratio.value <= policy.ratioMax
  }

  function StatusOf(current: Snapshot, baseline: Option<Snapshot>, policy: Policy): Status {
    if current.successful == 0 || !current.traversalComplete then FetchIncomplete
    else if current.successful < current.attempted then Partial
    else if baseline.None? then BaselineInvalid
    else if current.families == baseline.value.families then Comparable
    else if LooksLikeMigration(current, baseline.value, policy) then PossibleMigration
    else ResourceSetChanged
  }

  /** The scan before this one saw the same new family set and drew the same conclusion from it. */
  predicate Confirms(previous: Option<Stored>, current: Snapshot, baseline: Snapshot, status: Status) {
    && previous.Some? && previous.value.snapshot.id != baseline.id && previous.value.status == status
    && previous.value.snapshot.Complete() && previous.value.snapshot.families == current.families
  }

  predicate Promotes(current: Snapshot, baseline: Option<Snapshot>, previous: Option<Stored>, policy: Policy) {
    match StatusOf(current, baseline, policy)
    case FetchIncomplete => false
    case Partial => false
    case BaselineInvalid => true
    case Comparable => true
    case status => baseline.Some? && Confirms(previous, current, baseline.value, status)
  }

  function SnapshotOf(stored: Option<Stored>): Option<Snapshot> {
    if stored.Some? then Some(stored.value.snapshot) else None
  }

  function Coverage(current: Snapshot, baseline: Option<Snapshot>): real {
    if baseline.None? then current.SuccessRatio()
    else
      var covered := FamilyCoverage(current, baseline.value);
      if covered < current.SuccessRatio() then covered else current.SuccessRatio()
  }

  function OfWalks(codes: seq<string>): seq<Reason> { seq(|codes|, i requires 0 <= i < |codes| => OfWalk(codes[i])) }

  /** Less than half of the families of both scans are common, and the URL counts are of the policy's proportion. */
  predicate Migrates(current: Snapshot, before: Snapshot, policy: Policy) {
    && 2 * |before.families * current.families| < |before.families + current.families|
    && (if before.urlCount == 0 then current.urlCount == 0 && policy.ratioMin <= 1.0 <= policy.ratioMax
        else policy.ratioMin * before.urlCount as real <= current.urlCount as real <= policy.ratioMax * before.urlCount as real)
  }

  lemma Proportion(part: nat, whole: nat, bound: real)
    requires whole > 0
    ensures part as real / whole as real < bound <==> (part as real) < bound * whole as real
    ensures part as real / whole as real <= bound <==> part as real <= bound * whole as real
  {
    var ratio := part as real / whole as real;
    assert ratio * whole as real == part as real;
    Scales(ratio, bound, whole as real);
  }

  lemma Scales(a: real, b: real, factor: real)
    requires factor > 0.0
    ensures a < b <==> a * factor < b * factor
    ensures a <= b <==> a * factor <= b * factor
  {
  }

  lemma MigrationTells(current: Snapshot, before: Snapshot, policy: Policy)
    requires current.families != before.families
    ensures LooksLikeMigration(current, before, policy) <==> Migrates(current, before, policy)
  {
    var both, all := before.families * current.families, before.families + current.families;
    var f :| (f in current.families && f !in before.families) || (f in before.families && f !in current.families);
    assert f in all;
    Proportion(|both|, |all|, 0.5);
    if before.urlCount > 0 {
      Proportion(current.urlCount, before.urlCount, policy.ratioMin);
      Proportion(current.urlCount, before.urlCount, policy.ratioMax);
    }
  }

  /** The status, told by what was fetched and what the baseline has. */
  lemma StatusTells(current: Snapshot, before: Option<Snapshot>, policy: Policy)
    requires current.successful <= current.attempted
    ensures var fetched, status := current.successful > 0 && current.traversalComplete, StatusOf(current, before, policy);
      var whole := fetched && current.successful == current.attempted;
      var moved := whole && before.Some? && current.families != before.value.families;
      && (status.FetchIncomplete? <==> !fetched) && (status.Partial? <==> fetched && !whole)
      && (status.BaselineInvalid? <==> whole && before.None?)
      && (status.Comparable? <==> whole && before.Some? && !moved)
      && (status.PossibleMigration? <==> moved && Migrates(current, before.value, policy))
      && (status.ResourceSetChanged? <==> moved && !Migrates(current, before.value, policy))
  {
    if before.Some? && current.families != before.value.families { MigrationTells(current, before.value, policy); }
    hide LooksLikeMigration, Migrates;
  }

  /** The coverage is the lesser of two shares: of the attempts that succeeded, and of the baseline's families that were seen. */
  lemma CoverageTells(current: Snapshot, before: Option<Snapshot>)
    requires current.successful <= current.attempted
    ensures var coverage := Coverage(current, before);
      var seen := if before.Some? then |before.value.families * current.families| else 0;
      && coverage * current.attempted as real <= current.successful as real
      && (before.Some? ==> coverage * |before.value.families| as real <= seen as real)
      && ((coverage * current.attempted as real == current.successful as real && (current.attempted == 0 ==> coverage == 0.0))
          || (before.Some? && before.value.families != {} && coverage * |before.value.families| as real == seen as real))
  {
    hide FamilyCoverage;
    RatioTells(current);
    if before.Some? {
      FamilyCoverageTells(current, before.value);
      if before.value.families != {} {
        Scales(Coverage(current, before), FamilyCoverage(current, before.value), |before.value.families| as real);
      }
    }
    if current.attempted > 0 { Scales(Coverage(current, before), current.SuccessRatio(), current.attempted as real); }
  }

  lemma RatioTells(current: Snapshot)
    requires current.successful <= current.attempted
    ensures current.SuccessRatio() * current.attempted as real == current.successful as real
    ensures 0.0 <= current.SuccessRatio() <= 1.0
  {
    if current.attempted > 0 { Proportion(current.successful, current.attempted, 1.0); }
  }

  lemma FamilyCoverageTells(current: Snapshot, before: Snapshot)
    ensures var seen := |before.families * current.families|;
      if before.families == {} then FamilyCoverage(current, before) == 1.0
      else FamilyCoverage(current, before) * |before.families| as real == seen as real
  {
  }

  /** The judgement of a scan, assigned branch by branch as the source does. */
  method AssessComparability(current: Snapshot, baseline: Option<Stored>, previous: Option<Stored>, policy: Policy)
    returns (r: Verdict)
    requires policy.Valid() && current.successful <= current.attempted
    ensures r.status == StatusOf(current, SnapshotOf(baseline), policy)
    ensures r.promote <==> Promotes(current, SnapshotOf(baseline), previous, policy)
    ensures r.coverage == Coverage(current, SnapshotOf(baseline))
    ensures r.baseline == if baseline.Some? then Some(baseline.value.snapshot.id) else None
    ensures forall code :: code in current.traversalReasons <==> OfWalk(code) in r.reasons
    ensures ReasonsTell(r.reasons, r.status, r.promote, current, SnapshotOf(baseline))
    ensures forall i, j :: 0 <= i < j < |r.reasons| ==> r.reasons[i] != r.reasons[j]
  {
    var status, promote, own := Judge(current, SnapshotOf(baseline), previous, policy);
    var coverage := current.SuccessRatio();
    if baseline.Some? {
      var covered := FamilyCoverage(current, baseline.value.snapshot);
      if covered < coverage { coverage := covered; }
    }
    var all := OfWalks(current.traversalReasons) + own;
    var kept := KeepDistinct(all);
    DistinctKeepsEach(all);
    assert forall reason :: reason in all <==> reason in OfWalks(current.traversalReasons) || reason in own;
    assert forall i :: 0 <= i < |current.traversalReasons| ==>
        OfWalks(current.traversalReasons)[i] == OfWalk(current.traversalReasons[i]);
    hide StatusOf, Promotes, Coverage, Distinct, FamilyCoverage;
    r := Verdict(status, promote, coverage, kept,
                 if baseline.Some? then Some(baseline.value.snapshot.id) else None);
  }

  /** When each reason of the judgement's own is given. */
  predicate ReasonsTell(reasons: seq<Reason>, status: Status, promote: bool, current: Snapshot, before: Option<Snapshot>) {
    && (NoSuccessfulResource in reasons <==> current.successful == 0)
    && (TraversalIncomplete in reasons <==> current.successful > 0 && !current.traversalComplete)
    && (ResourceFetchFailed in reasons <==> status.Partial?) && (BaselineMissing in reasons <==> status.BaselineInvalid?)
    && (PartitionChange in reasons <==> status.Comparable? && before.Some? && current.urls != before.value.urls)
    && (FamilyReplacement in reasons <==> status.PossibleMigration?) && (ResourceSetMoved in reasons <==> status.ResourceSetChanged?)
    && (StableConfirmation in reasons <==> promote && Signal(status))
  }

  /** The branches of assess_comparability. */
  method Judge(current: Snapshot, before: Option<Snapshot>, previous: Option<Stored>, policy: Policy)
    returns (status: Status, promote: bool, reasons: seq<Reason>)
    requires policy.Valid() && current.successful <= current.attempted
    ensures status == StatusOf(current, before, policy)
    ensures promote <==> Promotes(current, before, previous, policy)
    ensures ReasonsTell(reasons, status, promote, current, before)
    ensures forall reason :: reason in reasons ==> !reason.OfWalk?
  {
    promote := false;
    if current.successful == 0 {
      status := FetchIncomplete;
      reasons := [NoSuccessfulResource];
    } else if !current.traversalComplete {
      status := FetchIncomplete;
      reasons := [TraversalIncomplete];
    } else if current.successful < current.attempted {
      status := Partial;
      reasons := [ResourceFetchFailed];
    } else if before.None? {
      status := BaselineInvalid;
      reasons := [BaselineMissing];
      promote := true;
    } else if current.families == before.value.families {
      status := Comparable;
      promote := true;
      reasons := if current.urls != before.value.urls then [PartitionChange] else [];
    } else {
      var ratio := UrlRatio(current, before.value);
      var overlap := FamilyOverlap(current, before.value);
      if overlap < 0.5 && ratio.Finite? && policy.ratioMin <= ratio.value <= policy.ratioMax {
        status := PossibleMigration;
        reasons := [FamilyReplacement];
      } else {
        status := ResourceSetChanged;
        reasons := [ResourceSetMoved];
      }
      if Confirms(previous, current, before.value, status) {
        promote := true;
        reasons := reasons + [StableConfirmation];
      }
    }
  }

  // ---------- one site's scans over time ----------

  datatype Context = Context(baseline: Option<Stored>, previous: Option<Stored>)

  /** `kept` are the committed scans still stored, oldest first; `all` forgets none. */
  datatype Site = Site(baseline: Option<Stored>, kept: seq<Stored>, all: seq<Stored>, context: Option<Context>)

  datatype Step =
    | Begin                        // the job of the current schedule reads its context
    | Commit(snapshot: Snapshot)   // and commits its scan with its completion
    | Superseded(scan: Stored)     // a job of an older schedule commits: the site row does not move
    | Prune(gone: set<nat>)        // maintenance

  function Latest(scans: seq<Stored>): Option<Stored> {
    if scans == [] then None else Some(scans[|scans| - 1])
  }

  predicate Signal(status: Status) { status.ResourceSetChanged? || status.PossibleMigration? }

  function Keep(scans: seq<Stored>, gone: set<nat>): seq<Stored> {
    if scans == [] then []
    else
      var rest := Keep(scans[..|scans| - 1], gone);
      if scans[|scans| - 1].snapshot.id in gone then rest else rest + [scans[|scans| - 1]]
  }

  /** Ids are per attempt, and maintenance spares the baseline and every signal. */
  predicate Possible(site: Site, step: Step) {
    match step
    case Begin => true
    case Commit(snapshot) =>
      site.context.Some? && snapshot.successful <= snapshot.attempted &&
      forall i :: 0 <= i < |site.all| ==> site.all[i].snapshot.id != snapshot.id
    case Superseded(scan) => forall i :: 0 <= i < |site.all| ==> site.all[i].snapshot.id != scan.snapshot.id
    case Prune(gone) =>
      && (site.baseline.Some? ==> site.baseline.value.snapshot.id !in gone)
      && forall i :: 0 <= i < |site.kept| && site.kept[i].snapshot.id in gone ==> !Signal(site.kept[i].status)
  }

  function Judged(snapshot: Snapshot, context: Context, policy: Policy): Stored {
    Stored(snapshot, StatusOf(snapshot, SnapshotOf(context.baseline), policy),
           Promotes(snapshot, SnapshotOf(context.baseline), context.previous, policy))
  }

  function Next(site: Site, step: Step, policy: Policy): Site {
    match step
    case Begin => site.(context := Some(Context(site.baseline, Latest(site.kept))))
    case Commit(snapshot) =>
      if site.context.None? then site
      else
        var scan := Judged(snapshot, site.context.value, policy);
        // finish_job_failure commits the scan of a run without any success, and moves no baseline.
        site.(baseline := if snapshot.successful > 0 && scan.promoted then Some(scan) else site.baseline,
              kept := site.kept + [scan], all := site.all + [scan], context := None)
    case Superseded(scan) => site.(kept := site.kept + [scan], all := site.all + [scan])
    case Prune(gone) => site.(kept := Keep(site.kept, gone))
  }

  predicate Legal(site: Site, steps: seq<Step>, policy: Policy)
    decreases steps
  {
    steps == [] || (Possible(site, steps[0]) && Legal(Next(site, steps[0], policy), steps[1..], policy))
  }

  function After(site: Site, steps: seq<Step>, policy: Policy): Site
    decreases steps
  {
    if steps == [] then site else After(Next(site, steps[0], policy), steps[1..], policy)
  }

  lemma {:induction false} KeepIsAFilter(scans: seq<Stored>, gone: set<nat>)
    ensures forall scan :: scan in Keep(scans, gone) <==> scan in scans && scan.snapshot.id !in gone
    ensures |scans| > 0 && scans[|scans| - 1].snapshot.id !in gone ==> Latest(Keep(scans, gone)) == Latest(scans)
  {
    if scans != [] {
      var front, last := scans[..|scans| - 1], scans[|scans| - 1];
      KeepIsAFilter(front, gone);
      assert forall scan :: scan in scans <==> scan in front || scan == last;
    }
  }

  /** What each step does to a site: a job reads, a scan is committed last and forgotten by no history, pruning takes what it names. */
  lemma StepTells(site: Site, step: Step, policy: Policy)
    ensures var t := Next(site, step, policy);
      match step
      case Begin => t == site.(context := Some(Context(site.baseline, if site.kept == [] then None else Some(site.kept[|site.kept| - 1]))))
      case Commit(snapshot) =>
        if site.context.None? then t == site
        else
          var scan := Judged(snapshot, site.context.value, policy);
          && scan.snapshot == snapshot && t.kept == site.kept + [scan] && t.all == site.all + [scan] && t.context.None?
          && t.baseline == if scan.promoted then Some(scan) else site.baseline
      case Superseded(scan) => t == site.(kept := site.kept + [scan], all := site.all + [scan])
      case Prune(gone) =>
        t == site.(kept := t.kept) && forall scan :: scan in t.kept <==> scan in site.kept && scan.snapshot.id !in gone
  {
    if step.Prune? { KeepIsAFilter(site.kept, step.gone); }
    if step.Commit? && site.context.Some? { NothingFetchedPromotesNothing(step.snapshot, site.context.value, policy); }
  }

  lemma NothingFetchedPromotesNothing(snapshot: Snapshot, context: Context, policy: Policy)
    ensures snapshot.successful == 0 ==> !Judged(snapshot, context, policy).promoted
  {
  }

  const NEW_SITE := Site(None, [], [], None)

  ghost predicate Inv(site: Site) {
    && (site.baseline.Some? ==> site.baseline.value.snapshot.Complete() && site.baseline.value in site.kept)
    && (site.context.Some? ==> site.context.value.baseline == site.baseline)
    && (forall scan :: scan in site.kept ==> scan in site.all)
  }

  lemma {:induction false} KeepSpares(scans: seq<Stored>, gone: set<nat>)
    ensures forall scan :: scan in Keep(scans, gone) <==> scan in scans && scan.snapshot.id !in gone
    ensures scans != [] && scans[|scans| - 1].snapshot.id !in gone ==>
              Latest(Keep(scans, gone)) == Some(scans[|scans| - 1])
  {
    if scans != [] {
      KeepSpares(scans[..|scans| - 1], gone);
      assert forall scan :: scan in scans <==> scan in scans[..|scans| - 1] || scan == scans[|scans| - 1];
    }
  }

  lemma StepKeepsInv(site: Site, step: Step, policy: Policy)
    requires Inv(site) && Possible(site, step)
    ensures Inv(Next(site, step, policy))
    ensures site.baseline.Some? ==> Next(site, step, policy).baseline.Some?
  {
    if step.Prune? { KeepSpares(site.kept, step.gone); }
  }

  /** Whatever interleaving of scans, retries, superseded workers and maintenance: the semantic
      baseline is a stored scan, and never an incomplete one. */
  lemma {:induction false} BaselineNeverIncomplete(site: Site, steps: seq<Step>, policy: Policy)
    requires Inv(site) && Legal(site, steps, policy)
    ensures Inv(After(site, steps, policy))
    decreases steps
  {
    if steps != [] {
      StepKeepsInv(site, steps[0], policy);
      BaselineNeverIncomplete(Next(site, steps[0], policy), steps[1..], policy);
    }
  }

  lemma BaselineOfARunIsComplete(steps: seq<Step>, policy: Policy)
    requires Legal(NEW_SITE, steps, policy)
    ensures var site := After(NEW_SITE, steps, policy);
      site.baseline.Some? ==> site.baseline.value.snapshot.Complete() && site.baseline.value in site.kept
  {
    BaselineNeverIncomplete(NEW_SITE, steps, policy);
  }

  predicate FamiliesMove(site: Site, step: Step, policy: Policy) {
    var t := Next(site, step, policy);
    site.baseline.Some? &&
    (t.baseline.None? || t.baseline.value.snapshot.families != site.baseline.value.snapshot.families)
  }

  /** Two committed scans, complete, that saw the same families and drew the same conclusion. */
  predicate Agree(a: Stored, b: Stored) {
    && a.snapshot.Complete() && b.snapshot.Complete()
    && a.snapshot.families == b.snapshot.families && a.status == b.status && Signal(b.status)
  }

  /**
   Once a baseline exists, its family set moves exactly when the committed scan agrees with the
   latest scan that was stored when the job read its context.
   */
  lemma FamiliesMoveOnlyOnAgreement(site: Site, step: Step, policy: Policy)
    requires Inv(site) && Possible(site, step) && site.baseline.Some?
    ensures FamiliesMove(site, step, policy) <==>
      step.Commit? &&
      site.context.value.previous.Some? &&
      site.context.value.previous.value.snapshot.id != site.baseline.value.snapshot.id &&
      Agree(site.context.value.previous.value, Judged(step.snapshot, site.context.value, policy))
    ensures FamiliesMove(site, step, policy) ==>
      Next(site, step, policy).baseline == Some(Judged(step.snapshot, site.context.value, policy))
  {
  }

  /** The same evidence as far as a promotion is concerned. */
  predicate SameEvidence(a: Stored, b: Stored) {
    a.snapshot.Complete() && b.snapshot.Complete() && a.snapshot.families == b.snapshot.families && a.status == b.status
  }

  /** The committed scan and the one committed just before it agree. */
  predicate LastTwoAgree(site: Site, step: Step, policy: Policy)
    requires step.Commit? && site.context.Some?
  {
    Latest(site.all).Some? && Agree(Latest(site.all).value, Judged(step.snapshot, site.context.value, policy))
  }

  /**
   A move of the family set rests on two consecutive committed scans if and only if the scan that the
   job read as its predecessor gives the same evidence as the one committed last; it does so whenever
   that was the one committed last.
   */
  lemma MovesRestOnTheLastCommitted(site: Site, step: Step, policy: Policy)
    requires Inv(site) && Possible(site, step) && FamiliesMove(site, step, policy)
    ensures step.Commit? && site.context.value.previous.Some?
    ensures LastTwoAgree(site, step, policy) <==>
      Latest(site.all).Some? && SameEvidence(Latest(site.all).value, site.context.value.previous.value)
    ensures site.context.value.previous == Latest(site.all) ==> LastTwoAgree(site, step, policy)
  {
    FamiliesMoveOnlyOnAgreement(site, step, policy);
    hide Next, FamiliesMove, StatusOf, Promotes;
  }

  /** Maintenance spares the scan committed last, and no superseded job commits under a running one. */
  predicate Undisturbed(site: Site, step: Step) {
    match step
    case Prune(gone) => Latest(site.all).Some? ==> Latest(site.all).value.snapshot.id !in gone
    case Superseded(_) => site.context.None?
    case _ => true
  }

  predicate AllUndisturbed(site: Site, steps: seq<Step>, policy: Policy)
    decreases steps
  {
    steps == [] || (Undisturbed(site, steps[0]) && AllUndisturbed(Next(site, steps[0], policy), steps[1..], policy))
  }

  /** What is stored last is what was committed last, and so is what a job read. */
  predicate ReadsLast(site: Site) {
    Latest(site.kept) == Latest(site.all) && (site.context.Some? ==> site.context.value.previous == Latest(site.all))
  }

  lemma StepReadsLast(site: Site, step: Step, policy: Policy)
    requires ReadsLast(site) && Undisturbed(site, step)
    ensures ReadsLast(Next(site, step, policy))
  {
    if step.Prune? {
      KeepSpares(site.kept, step.gone);
      assert site.kept == [] ==> Keep(site.kept, step.gone) == [];
    }
    hide StatusOf, Promotes;
  }

  lemma {:induction false} UndisturbedRunsReadLast(site: Site, steps: seq<Step>, policy: Policy)
    requires ReadsLast(site) && AllUndisturbed(site, steps, policy)
    ensures ReadsLast(After(site, steps, policy))
    decreases steps
  {
    if steps != [] {
      hide Next, ReadsLast, Undisturbed;
      StepReadsLast(site, steps[0], policy);
      UndisturbedRunsReadLast(Next(site, steps[0], policy), steps[1..], policy);
    }
  }

  /**
   Over every undisturbed run of a new site, the family set of an existing baseline moves at a commit
   if and only if that scan and the one committed just before it agree, and the latter is not the baseline.
   */
  lemma FamiliesMoveOnConsecutiveAgreement(steps: seq<Step>, step: Step, policy: Policy)
    requires Legal(NEW_SITE, steps, policy) && AllUndisturbed(NEW_SITE, steps, policy)
    requires var site := After(NEW_SITE, steps, policy); Possible(site, step) && site.baseline.Some?
    ensures var site := After(NEW_SITE, steps, policy);
      FamiliesMove(site, step, policy) <==>
        step.Commit? && LastTwoAgree(site, step, policy)
        && Latest(site.all).value.snapshot.id != site.baseline.value.snapshot.id
  {
    BaselineNeverIncomplete(NEW_SITE, steps, policy);
    UndisturbedRunsReadLast(NEW_SITE, steps, policy);
    FamiliesMoveOnlyOnAgreement(After(NEW_SITE, steps, policy), step, policy);
    hide Next, FamiliesMove, StatusOf, Promotes, After;
  }

  /** Alternating family sets: no two neighbours agree with each other or with the baseline. */
  predicate Alternates(baseline: Stored, scans: seq<Snapshot>) {
    (forall i :: 0 <= i < |scans| ==> scans[i].Complete() && scans[i].families != baseline.snapshot.families) &&
    (forall i :: 0 < i < |scans| ==> scans[i].families != scans[i - 1].families)
  }

  /** Each scan of a job that read its context, with maintenance free to prune before and after. */
  function Cycles(scans: seq<Snapshot>, prunes: seq<set<nat>>): seq<Step>
    requires |prunes| == 2 * |scans|
  {
    if scans == [] then []
    else [Prune(prunes[0]), Begin, Prune(prunes[1]), Commit(scans[0])] + Cycles(scans[1..], prunes[2..])
  }

  lemma RunUnfolds(site: Site, step: Step, rest: seq<Step>, policy: Policy)
    requires Legal(site, [step] + rest, policy)
    ensures Possible(site, step) && Legal(Next(site, step, policy), rest, policy)
    ensures After(site, [step] + rest, policy) == After(Next(site, step, policy), rest, policy)
  {
    assert ([step] + rest)[1..] == rest;
  }

  /** The site when the scan of a cycle is about to be committed. */
  function Ready(site: Site, before: set<nat>, between: set<nat>, policy: Policy): Site {
    Next(Next(Next(site, Prune(before), policy), Begin, policy), Prune(between), policy)
  }

  lemma CycleUnfolds(site: Site, before: set<nat>, between: set<nat>, scan: Snapshot, rest: seq<Step>, policy: Policy)
    requires Inv(site) && Legal(site, [Prune(before), Begin, Prune(between), Commit(scan)] + rest, policy)
    ensures Possible(site, Prune(before))
    ensures var d := Next(Ready(site, before, between, policy), Commit(scan), policy);
      && Inv(d) && Legal(d, rest, policy)
      && After(site, [Prune(before), Begin, Prune(between), Commit(scan)] + rest, policy) == After(d, rest, policy)
  {
    var r3 := [Commit(scan)] + rest;
    var r2 := [Prune(between)] + r3;
    var r1 := [Begin] + r2;
    assert [Prune(before), Begin, Prune(between), Commit(scan)] + rest == [Prune(before)] + r1;
    RunUnfolds(site, Prune(before), r1, policy);
    StepKeepsInv(site, Prune(before), policy);
    var a := Next(site, Prune(before), policy);
    RunUnfolds(a, Begin, r2, policy);
    StepKeepsInv(a, Begin, policy);
    var b := Next(a, Begin, policy);
    RunUnfolds(b, Prune(between), r3, policy);
    StepKeepsInv(b, Prune(between), policy);
    var c := Next(b, Prune(between), policy);
    RunUnfolds(c, Commit(scan), rest, policy);
    StepKeepsInv(c, Commit(scan), policy);
  }

  /** The scan left last disagrees with the next one, so the baseline stays. */
  lemma CycleKeepsBaseline(site: Site, before: set<nat>, between: set<nat>, scan: Snapshot, policy: Policy)
    requires Inv(site) && site.baseline.Some? && Possible(site, Prune(before))
    requires scan.Complete() && scan.families != site.baseline.value.snapshot.families
    requires site.kept != [] && site.kept[|site.kept| - 1].snapshot.families != scan.families
    requires site.kept[|site.kept| - 1] == site.baseline.value || Signal(site.kept[|site.kept| - 1].status)
    ensures var d := Next(Ready(site, before, between, policy), Commit(scan), policy);
      && d.baseline == site.baseline
      && d.kept != [] && d.kept[|d.kept| - 1].snapshot == scan && Signal(d.kept[|d.kept| - 1].status)
  {
    KeepSpares(site.kept, before);
    assert Latest(Next(site, Prune(before), policy).kept) == Some(site.kept[|site.kept| - 1]);
  }

  lemma AlternatesTail(baseline: Stored, scans: seq<Snapshot>)
    requires scans != [] && Alternates(baseline, scans)
    ensures Alternates(baseline, scans[1..])
    ensures scans[0].Complete() && scans[0].families != baseline.snapshot.families
    ensures |scans| > 1 ==> scans[0].families != scans[1].families
  {
    assert forall i :: 0 < i < |scans[1..]| ==> scans[1..][i] == scans[i + 1] && scans[1..][i - 1] == scans[i];
  }

  /** Family sets that keep alternating never become the baseline, whatever maintenance prunes. */
  lemma {:induction false} AlternatingSetsNeverPromote(
    site: Site, scans: seq<Snapshot>, prunes: seq<set<nat>>, policy: Policy)
    requires Inv(site) && site.baseline.Some? && |prunes| == 2 * |scans|
    requires Alternates(site.baseline.value, scans)
    requires site.kept != [] && (scans != [] ==> site.kept[|site.kept| - 1].snapshot.families != scans[0].families)
    requires site.kept[|site.kept| - 1] == site.baseline.value || Signal(site.kept[|site.kept| - 1].status)
    requires Legal(site, Cycles(scans, prunes), policy)
    ensures After(site, Cycles(scans, prunes), policy).baseline == site.baseline
    decreases |scans|
  {
    if scans != [] {
      AlternatesTail(site.baseline.value, scans);
      hide Next, Ready, Legal, Inv, Alternates;
      var d := Next(Ready(site, prunes[0], prunes[1], policy), Commit(scans[0]), policy);
      CycleUnfolds(site, prunes[0], prunes[1], scans[0], Cycles(scans[1..], prunes[2..]), policy);
      CycleKeepsBaseline(site, prunes[0], prunes[1], scans[0], policy);
      AlternatingSetsNeverPromote(d, scans[1..], prunes[2..], policy);
    }
  }

  /** Two scans a policy cannot tell apart get the same verdict against one baseline. */
  lemma SameVerdict(a: Snapshot, b: Snapshot, baseline: Option<Snapshot>, policy: Policy)
    requires a.Complete() && b.Complete() && a.families == b.families && a.urlCount == b.urlCount
    ensures StatusOf(a, baseline, policy) == StatusOf(b, baseline, policy)
  {
  }

  /** After a complete scan the baseline has its families, or it waits as the latest scan for confirmation. */
  predicate Settled(site: Site, scan: Stored) {
    site.baseline.Some? &&
    (site.baseline.value.snapshot.families == scan.snapshot.families ||
     (Signal(scan.status) && site.kept != [] && site.kept[|site.kept| - 1] == scan))
  }

  lemma CompleteScanSettles(site: Site, a: Snapshot, policy: Policy)
    requires Inv(site) && Possible(site, Commit(a)) && a.Complete()
    ensures Settled(Next(site, Commit(a), policy), Judged(a, site.context.value, policy))
    ensures Next(site, Commit(a), policy).baseline == site.baseline ||
            Next(site, Commit(a), policy).baseline == Some(Judged(a, site.context.value, policy))
  {
  }

  lemma PruneKeepsSettled(site: Site, scan: Stored, gone: set<nat>, policy: Policy)
    requires Settled(site, scan) && Possible(site, Prune(gone))
    ensures Settled(Next(site, Prune(gone), policy), scan)
  {
    KeepSpares(site.kept, gone);
  }

  /**
   Two complete scans in a row that see the same families and as many URLs always leave the
   baseline at that family set, whatever it was and whatever maintenance prunes in between.
   */
  lemma TwoAgreeingScansSettle(site: Site, a: Snapshot, b: Snapshot, before: set<nat>, between: set<nat>, policy: Policy)
    requires Inv(site) && Possible(site, Commit(a)) && a.Complete() && b.Complete()
    requires a.families == b.families && a.urlCount == b.urlCount
    requires var s := Next(site, Commit(a), policy);
      Possible(s, Prune(before)) && Possible(Ready(s, before, between, policy), Commit(b))
    ensures var t := Next(Ready(Next(site, Commit(a), policy), before, between, policy), Commit(b), policy);
      t.baseline.Some? && t.baseline.value.snapshot.families == b.families
  {
    var s := Next(site, Commit(a), policy);
    var scan := Judged(a, site.context.value, policy);
    CompleteScanSettles(site, a, policy);
    PruneKeepsSettled(s, scan, before, policy);
    if s.baseline.value.snapshot.families != a.families {
      SameVerdict(a, b, SnapshotOf(site.baseline), policy);
      assert site.baseline.value in site.all;
    }
  }

  // ---------- "consecutive" means consecutive among the stored scans ----------

  function Lone(id: nat, family: Family, attempted: nat): Snapshot {
    Snapshot(id, attempted, 1, {family}, multiset{family}, 10, true, [])
  }

  const FIRST: Stored := Stored(Lone(0, "/a", 1), BaselineInvalid, true)

  /** Context, new families; context, a partial scan. */
  const UNCONFIRMED: seq<Step> := [Begin, Commit(Lone(1, "/b", 1)), Begin, Commit(Lone(2, "/a", 2))]

  const CONFIRMED: seq<Step> := [Begin, Commit(Lone(3, "/b", 1))]

  const OPENING: seq<Step> := [Begin, Commit(Lone(0, "/a", 1))]

  /** The site after its first scan. */
  function Opened(): Site { Site(Some(FIRST), [FIRST], [FIRST], None) }

  lemma FirstScan(policy: Policy)
    requires policy.Valid()
    ensures Legal(NEW_SITE, OPENING, policy) && After(NEW_SITE, OPENING, policy) == Opened()
  {
    var s1 := Next(NEW_SITE, OPENING[0], policy);
    var s2 := Next(s1, OPENING[1], policy);
    assert Possible(s1, OPENING[1]) && s2 == Opened();
    assert OPENING[1..][1..] == [];
    assert After(s1, OPENING[1..], policy) == s2 && Legal(s1, OPENING[1..], policy);
  }

  lemma {:induction false} RunsJoin(site: Site, a: seq<Step>, b: seq<Step>, policy: Policy)
    requires Legal(site, a, policy) && Legal(After(site, a, policy), b, policy)
    ensures Legal(site, a + b, policy) && After(site, a + b, policy) == After(After(site, a, policy), b, policy)
    decreases |a|
  {
    hide Next, Possible;
    if a == [] {
      assert a + b == b;
    } else {
      assert (a + b)[1..] == a[1..] + b;
      RunsJoin(Next(site, a[0], policy), a[1..], b, policy);
    }
  }

  lemma UnconfirmedState(policy: Policy)
    requires policy.Valid()
    ensures var s := After(Opened(), UNCONFIRMED, policy);
      && Legal(Opened(), UNCONFIRMED, policy) && s.baseline == Some(FIRST) && s.context == None
      && |s.kept| == 3 && s.kept == s.all
      && s.kept[0] == FIRST && s.kept[2] == Stored(Lone(2, "/a", 2), Partial, false)
      && s.kept[1] == Judged(Lone(1, "/b", 1), Context(Some(FIRST), Some(FIRST)), policy)
  {
    var s1 := Next(Opened(), UNCONFIRMED[0], policy);
    var s2 := Next(s1, UNCONFIRMED[1], policy);
    var s3 := Next(s2, UNCONFIRMED[2], policy);
    var s4 := Next(s3, UNCONFIRMED[3], policy);
    assert Possible(s1, UNCONFIRMED[1]) && Possible(s3, UNCONFIRMED[3]);
    assert UNCONFIRMED[1..][1..][1..][1..] == [];
    assert After(s3, UNCONFIRMED[1..][1..][1..], policy) == s4;
    assert After(s2, UNCONFIRMED[1..][1..], policy) == s4;
    assert After(s1, UNCONFIRMED[1..], policy) == s4;
    assert Legal(s3, UNCONFIRMED[1..][1..][1..], policy);
    assert Legal(s2, UNCONFIRMED[1..][1..], policy);
    assert Legal(s1, UNCONFIRMED[1..], policy);
  }

  /**
   A run of a new site in which a partial scan between two agreeing ones blocks the promotion, until
   maintenance prunes it: then the same commit moves the family set, though the scan committed just
   before does not agree with it.
   */
  lemma PruningMakesScansNeighbours(policy: Policy)
    requires policy.Valid()
    ensures Legal(NEW_SITE, OPENING + UNCONFIRMED, policy)
    ensures var s := After(NEW_SITE, OPENING + UNCONFIRMED, policy);
      var apart, near := Next(s, CONFIRMED[0], policy), Next(Next(s, Prune({2}), policy), CONFIRMED[0], policy);
      && Possible(s, Prune({2})) && Possible(near, CONFIRMED[1])
      && !FamiliesMove(apart, CONFIRMED[1], policy)
      && FamiliesMove(near, CONFIRMED[1], policy) && !LastTwoAgree(near, CONFIRMED[1], policy)
  {
    FirstScan(policy);
    UnconfirmedState(policy);
    RunsJoin(NEW_SITE, OPENING, UNCONFIRMED, policy);
    hide After, Legal, Next, FamiliesMove, LastTwoAgree;
    PruningMoves(After(Opened(), UNCONFIRMED, policy), policy);
  }

  lemma PruningMoves(s: Site, policy: Policy)
    requires policy.Valid() && s.baseline == Some(FIRST) && s.context == None && |s.kept| == 3 && s.kept == s.all
    requires s.kept[0] == FIRST && s.kept[2] == Stored(Lone(2, "/a", 2), Partial, false)
    requires s.kept[1] == Judged(Lone(1, "/b", 1), Context(Some(FIRST), Some(FIRST)), policy)
    ensures var apart, near := Next(s, CONFIRMED[0], policy), Next(Next(s, Prune({2}), policy), CONFIRMED[0], policy);
      && Possible(s, Prune({2})) && Possible(near, CONFIRMED[1])
      && !FamiliesMove(apart, CONFIRMED[1], policy)
      && FamiliesMove(near, CONFIRMED[1], policy) && !LastTwoAgree(near, CONFIRMED[1], policy)
  {
    KeepSpares(s.kept[..2], {2});
    var p := Next(s, Prune({2}), policy);
    assert p.kept == Keep(s.kept[..2], {2});
    assert Latest(p.kept) == Some(s.kept[1]) by { assert s.kept[..2][1] == s.kept[1]; }
  }
}
