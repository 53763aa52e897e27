/** What a finished walk has seen. */
module TraversalTheorems {
  import opened Prelude
  import opened Traversal
  import opened TraversalSafety

  ghost predicate Running(w: Walk, limits: Limits, check: Url -> Checked) {
    Inv(w, limits, check) && !w.full
  }

  ghost predicate Ended(w: Walk, limits: Limits, check: Url -> Checked) {
    && Books(w.seen.visited, w.seen.order, w.seen.depths, limits) && Reached(w.seen.depths, w.seen.roots, check)
    && (if w.full then |w.seen.visited| == limits.maxResources
        else w.queue == [] && Running(w, limits, check))
  }

  lemma StartRuns(plan: Plan, limits: Limits, check: Url -> Checked)
    ensures Running(Start(plan), limits, check)
  {
  }

  lemma TurnRuns(w: Walk, plan: Plan, limits: Limits, check: Url -> Checked)
    requires Running(w, limits, check) && w.queue != [] && !MoveOf(w, plan, limits).Full?
    ensures Running(Turn(w, plan, check, limits), limits, check)
  {
    match MoveOf(w, plan, limits)
    case Known => DropKeeps(w, plan, limits, check);
    case Deep => DeepKeeps(w, plan, limits, check);
    case Superfluous => DropKeeps(w, plan, limits, check);
    case Look => VisitKeeps(w, plan, limits, check);
  }

  /** The walk as the resource limit breaks it off, its queue untouched, or else at its end. */
  function Break(w: Walk, plan: Plan, check: Url -> Checked, limits: Limits): Walk
    decreases Room(w, limits), |w.queue|
  {
    if w.queue == [] || MoveOf(w, plan, limits).Full? then w
    else
      TurnShrinks(w, plan, check, limits);
      Break(Turn(w, plan, check, limits), plan, check, limits)
  }

  lemma {:induction false} RunBreaks(w: Walk, plan: Plan, limits: Limits, check: Url -> Checked)
    requires Running(w, limits, check)
    ensures var b := Break(w, plan, check, limits);
      && Running(b, limits, check) && (b.queue == [] || MoveOf(b, plan, limits).Full?)
      && Run(w, plan, check, limits) == if b.queue == [] then b else b.(queue := [], full := true)
    decreases Room(w, limits), |w.queue|
  {
    if w.queue != [] {
      var t := Turn(w, plan, check, limits);
      TurnShrinks(w, plan, check, limits);
      RunTurns(w, plan, check, limits);
      if MoveOf(w, plan, limits).Full? {
        assert Run(t, plan, check, limits) == t;
      } else {
        TurnRuns(w, plan, limits, check);
        RunBreaks(t, plan, limits, check);
      }
    }
  }

  lemma WalkEnds(plan: Plan, limits: Limits, check: Url -> Checked)
    ensures Ended(Run(Start(plan), plan, check, limits), limits, check)
  {
    StartRuns(plan, limits, check);
    RunBreaks(Start(plan), plan, limits, check);
  }

  ghost predicate Closed(depths: Depths, check: Url -> Checked) {
    forall u, v :: u in depths && v in Children(check(u)) ==> v in depths
  }

  lemma Parent(depths: Depths, centre: set<Url>, u: Url, check: Url -> Checked) returns (p: Url)
    requires Reached(depths, centre, check) && u in depths && depths[u] > 0
    ensures p in depths && depths[p] == depths[u] - 1 && u in Children(check(p))
  {
    assert ChildAt(depths, u, depths[u], check);
    p :| p in depths && depths[p] == depths[u] - 1 && u in Children(check(p));
  }

  lemma CentreIsWithin(depths: Depths, u: Url, radius: nat, centre: set<Url>, check: Url -> Checked)
    requires Reached(depths, centre, check) && u in depths && depths[u] == 0
    ensures Within(u, radius, centre, check)
  {
    WithinGrows(u, 0, radius, centre, check);
  }

  lemma ChildIsWithin(u: Url, p: Url, radius: nat, centre: set<Url>, check: Url -> Checked)
    requires Within(p, radius, centre, check) && u in Children(check(p))
    ensures Within(u, radius + 1, centre, check)
  {
    assert ByLink(u, radius, centre, check);
  }

  lemma {:induction false} ReachedIsWithin(depths: Depths, centre: set<Url>, radius: nat, u: Url, check: Url -> Checked)
    requires Reached(depths, centre, check) && u in depths && depths[u] <= radius
    ensures Within(u, radius, centre, check)
    decreases radius
  {
    hide Within, ByLink, Reached;
    if depths[u] == 0 {
      CentreIsWithin(depths, u, radius, centre, check);
    } else {
      var p := Parent(depths, centre, u, check);
      ReachedIsWithin(depths, centre, radius - 1, p, check);
      ChildIsWithin(u, p, radius - 1, centre, check);
    }
  }

  lemma {:induction false} WithinIsReached(depths: Depths, centre: set<Url>, radius: nat, u: Url, deep: bool,
                                           limits: Limits, check: Url -> Checked)
    requires Reached(depths, centre, check) && LinksMet(depths, [], deep, limits, check)
    requires radius <= limits.maxDepth && Within(u, radius, centre, check)
    ensures u in depths && depths[u] <= radius
    decreases radius
  {
    if radius > 0 {
      hide Reached;
      if Within(u, radius - 1, centre, check) {
        WithinIsReached(depths, centre, radius - 1, u, deep, limits, check);
      } else {
        assert ByLink(u, radius - 1, centre, check);
        var p :| Within(p, radius - 1, centre, check) && u in Children(check(p));
        WithinIsReached(depths, centre, radius - 1, p, deep, limits, check);
        assert LinkMet(depths, [], p, u, deep, limits);
      }
    }
  }

  /** Each URL within reach is visited, at its distance, and no other URL is. */
  ghost predicate Covers(depths: Depths, centre: set<Url>, limits: Limits, check: Url -> Checked) {
    forall u, radius: nat :: radius <= limits.maxDepth ==>
      (Within(u, radius, centre, check) <==> u in depths && depths[u] <= radius)
  }

  lemma LinksMetCover(depths: Depths, centre: set<Url>, deep: bool, limits: Limits, check: Url -> Checked)
    requires Reached(depths, centre, check) && LinksMet(depths, [], deep, limits, check)
    ensures Covers(depths, centre, limits, check)
  {
    forall u, radius: nat | radius <= limits.maxDepth
      ensures Within(u, radius, centre, check) <==> u in depths && depths[u] <= radius
    {
      if Within(u, radius, centre, check) {
        WithinIsReached(depths, centre, radius, u, deep, limits, check);
      } else if u in depths && depths[u] <= radius {
        ReachedIsWithin(depths, centre, radius, u, check);
      }
    }
  }

  /** A walk checks no URL twice and no more than it may. */
  lemma NoUrlTwice(plan: Plan, limits: Limits, check: Url -> Checked)
    ensures var w := Run(Start(plan), plan, check, limits);
      && NoDuplicates(w.seen.order) && |w.seen.order| <= limits.maxResources
      && (forall u :: u in w.seen.order <==> u in w.seen.visited)
      && (w.full ==> |w.seen.order| == limits.maxResources)
  {
    WalkEnds(plan, limits, check);
  }

  /** A walk checks only what lies within maxDepth same-site links of a root it checked. */
  lemma WalkStaysWithinReach(plan: Plan, limits: Limits, check: Url -> Checked)
    ensures var w := Run(Start(plan), plan, check, limits);
      forall u :: u in w.seen.visited ==> Within(u, limits.maxDepth, w.seen.roots, check)
  {
    var w := Run(Start(plan), plan, check, limits);
    WalkEnds(plan, limits, check);
    forall u | u in w.seen.visited ensures Within(u, limits.maxDepth, w.seen.roots, check) {
      ReachedIsWithin(w.seen.depths, w.seen.roots, limits.maxDepth, u, check);
    }
  }

  /** A walk that ended of itself has met every link its depth allows. */
  lemma EndMeetsLinks(w: Walk, limits: Limits, check: Url -> Checked)
    requires Ended(w, limits, check) && !w.full
    ensures Reached(w.seen.depths, w.seen.roots, check) && w.seen.depths.Keys == w.seen.visited
    ensures LinksMet(w.seen.depths, [], w.deep, limits, check) && (w.deep ==> Missed(w.seen.depths, [], limits, check))
  {
    hide Reached, LinksMet, Missed, ByDepth, Beyond, ItemsFit;
  }

  /** Unless the resource limit is hit it checks all of that, each URL at its shortest distance. */
  lemma WalkCoversItsReach(plan: Plan, limits: Limits, check: Url -> Checked)
    ensures var w := Run(Start(plan), plan, check, limits);
      !w.full ==>
        && Covers(w.seen.depths, w.seen.roots, limits, check)
        && forall u :: u in w.seen.visited <==> Within(u, limits.maxDepth, w.seen.roots, check)
  {
    hide Run, Start, Reached, LinksMet, Missed, Ended, Within;
    var w := Run(Start(plan), plan, check, limits);
    WalkEnds(plan, limits, check);
    if !w.full {
      EndMeetsLinks(w, limits, check);
      LinksMetCover(w.seen.depths, w.seen.roots, w.deep, limits, check);
      DepthsBounded(w, limits, check);
      CoversToTheLimit(w.seen.depths, w.seen.roots, limits, check);
    }
  }

  lemma DepthsBounded(w: Walk, limits: Limits, check: Url -> Checked)
    requires Ended(w, limits, check)
    ensures forall u :: u in w.seen.depths ==> w.seen.depths[u] <= limits.maxDepth
  {
    hide Reached, QueueFits, NoDuplicates;
  }

  lemma CoversToTheLimit(depths: Depths, centre: set<Url>, limits: Limits, check: Url -> Checked)
    requires Covers(depths, centre, limits, check) && forall u :: u in depths ==> depths[u] <= limits.maxDepth
    ensures forall u :: u in depths <==> Within(u, limits.maxDepth, centre, check)
  {
    hide Within;
  }

  lemma ClosedWhenMet(depths: Depths, deep: bool, limits: Limits, check: Url -> Checked)
    requires LinksMet(depths, [], deep, limits, check) && (deep ==> Missed(depths, [], limits, check))
    ensures Closed(depths, check) <==> !deep
  {
    if !deep {
      forall u, v | u in depths && v in Children(check(u)) ensures v in depths {
        assert LinkMet(depths, [], u, v, deep, limits);
      }
    }
  }

  /**
   A traversal reported complete has left no same-site child of an index unvisited; short of the
   resource limit, the report is exact.
   */
  lemma CompleteMeansClosed(plan: Plan, limits: Limits, check: Url -> Checked)
    ensures var w := Run(Start(plan), plan, check, limits);
      && w.seen.depths.Keys == w.seen.visited
      && (!w.deep && !w.full ==> Closed(w.seen.depths, check))
      && (!w.full ==> (!w.deep <==> Closed(w.seen.depths, check)))
  {
    hide Run, Start, Reached, LinksMet, Missed, Closed;
    var w := Run(Start(plan), plan, check, limits);
    WalkEnds(plan, limits, check);
    if !w.full {
      EndMeetsLinks(w, limits, check);
      ClosedWhenMet(w.seen.depths, w.deep, limits, check);
    }
  }

  predicate NoRoots(queue: seq<Item>) { forall item :: item in queue ==> !item.root }

  /** Once only children are queued, the set of checked roots is final. */
  lemma {:induction false} RootsStay(w: Walk, plan: Plan, limits: Limits, check: Url -> Checked)
    requires Running(w, limits, check) && NoRoots(w.queue)
    ensures var b := Break(w, plan, check, limits); b.seen.roots == w.seen.roots && NoRoots(b.queue)
    decreases Room(w, limits), |w.queue|
  {
    if w.queue != [] && !MoveOf(w, plan, limits).Full? {
      TurnShrinks(w, plan, check, limits);
      TurnRuns(w, plan, limits, check);
      ChildTurn(w, plan, limits, check);
      RootsStay(Turn(w, plan, check, limits), plan, limits, check);
    }
  }

  lemma ChildTurn(w: Walk, plan: Plan, limits: Limits, check: Url -> Checked)
    requires ItemsFit(w.seen.depths, w.queue, check) && w.seen.depths.Keys == w.seen.visited
    requires w.queue != [] && NoRoots(w.queue) && !MoveOf(w, plan, limits).Full?
    ensures var t := Turn(w, plan, check, limits); t.seen.roots == w.seen.roots && NoRoots(t.queue)
  {
    assert ItemFits(w.seen.depths, w.queue[0], check) by { assert w.queue[0] in w.queue; }
    forall item | item in w.queue[1..] ensures !item.root { TailIn(w.queue, item); }
  }

  /** Children enter the queue behind every root, and the roots are settled in their order. */
  lemma {:induction false} RootsSettle(w: Walk, roots: seq<Url>, rest: seq<Item>, plan: Plan, limits: Limits, check: Url -> Checked)
    returns (left: seq<Url>, more: seq<Item>)
    requires Running(w, limits, check) && w.queue == Items(roots, true, 0) + rest && NoRoots(rest)
    ensures var b := Break(w, plan, check, limits);
      && b.queue == Items(left, true, 0) + more && NoRoots(more)
      && CheckedRoots(roots, plan.fallback, check, w.seen.roots, w.found)
           == CheckedRoots(left, plan.fallback, check, b.seen.roots, b.found)
    decreases |roots|
  {
    if roots == [] {
      assert w.queue == rest;
      RootsStay(w, plan, limits, check);
      left, more := [], Break(w, plan, check, limits).queue;
    } else if MoveOf(w, plan, limits).Full? {
      left, more := roots, rest;
    } else {
      assert w.queue[0] == Item(roots[0], true, 0);
      TurnShrinks(w, plan, check, limits);
      TurnRuns(w, plan, limits, check);
      RootTurn(w, roots, rest, plan, limits, check);
      left, more := RootsSettle(Turn(w, plan, check, limits), roots[1..], RestAfter(w, rest, plan, limits, check),
                                plan, limits, check);
    }
  }

  function RestAfter(w: Walk, rest: seq<Item>, plan: Plan, limits: Limits, check: Url -> Checked): seq<Item>
    requires w.queue != []
  {
    if !MoveOf(w, plan, limits).Look? then rest else rest + Items(Children(check(w.queue[0].url)), false, 1)
  }

  lemma RootTurn(w: Walk, roots: seq<Url>, rest: seq<Item>, plan: Plan, limits: Limits, check: Url -> Checked)
    requires Beyond(w.seen.depths, w.queue) && w.seen.depths.Keys == w.seen.visited
    requires Reached(w.seen.depths, w.seen.roots, check)
    requires roots != [] && w.queue == Items(roots, true, 0) + rest && NoRoots(rest) && !MoveOf(w, plan, limits).Full?
    ensures var t := Turn(w, plan, check, limits); var more := RestAfter(w, rest, plan, limits, check);
      && t.queue == Items(roots[1..], true, 0) + more && NoRoots(more)
      && CheckedRoots(roots, plan.fallback, check, w.seen.roots, w.found)
           == CheckedRoots(roots[1..], plan.fallback, check, t.seen.roots, t.found)
  {
    hide Reached, CheckedRoots;
    assert w.queue[0] == Item(roots[0], true, 0);
    assert w.queue[1..] == Items(roots[1..], true, 0) + rest;
    RootSeen(w.seen.depths, w.seen.roots, w.queue, check);
    NextRoot(roots, plan.fallback, check, w.seen.roots, w.found);
    if MoveOf(w, plan, limits).Look? {
      var kids := Items(Children(check(roots[0])), false, 1);
      assert NoRoots(rest + kids);
      assert w.queue[1..] + kids == Items(roots[1..], true, 0) + (rest + kids);
    }
  }

  /** While a root heads the queue, only roots have been visited. */
  lemma RootSeen(depths: Depths, centre: set<Url>, queue: seq<Item>, check: Url -> Checked)
    requires Beyond(depths, queue) && Reached(depths, centre, check) && queue != [] && queue[0].depth == 0
    ensures forall u :: u in depths <==> u in centre
  {
    assert queue[0] in queue;
  }

  lemma NextRoot(roots: seq<Url>, fallback: set<Url>, check: Url -> Checked, seen: set<Url>, found: bool)
    requires roots != []
    ensures CheckedRoots(roots, fallback, check, seen, found) ==
      if roots[0] in seen || (roots[0] in fallback && found) then CheckedRoots(roots[1..], fallback, check, seen, found)
      else CheckedRoots(roots[1..], fallback, check, seen + {roots[0]}, found || !check(roots[0]).Failed?)
  {
  }

  lemma RootsAtBreak(plan: Plan, limits: Limits, check: Url -> Checked) returns (left: seq<Url>, more: seq<Item>)
    ensures var b := Break(Start(plan), plan, check, limits);
      && b.queue == Items(left, true, 0) + more && NoRoots(more)
      && CheckedRoots(plan.roots, plan.fallback, check, {}, false)
           == CheckedRoots(left, plan.fallback, check, b.seen.roots, b.found)
  {
    StartRuns(plan, limits, check);
    assert Start(plan).queue == Items(plan.roots, true, 0) + [];
    left, more := RootsSettle(Start(plan), plan.roots, [], plan, limits, check);
  }

  /** Unless the resource limit is hit, the checked roots are every authoritative one, and each
      alternative that no root before it made unnecessary. */
  lemma RootsOfAWalk(plan: Plan, limits: Limits, check: Url -> Checked)
    ensures var w := Run(Start(plan), plan, check, limits);
      !w.full ==>
        w.seen.roots == CheckedRoots(plan.roots, plan.fallback, check, {}, false)
  {
    var left, more := RootsAtBreak(plan, limits, check);
    StartRuns(plan, limits, check);
    RunBreaks(Start(plan), plan, limits, check);
  }

  lemma {:induction false} AuthoritativeRootsAreChecked(
    roots: seq<Url>, fallback: set<Url>, check: Url -> Checked, seen: set<Url>, found: bool)
    ensures var checked := CheckedRoots(roots, fallback, check, seen, found);
      && seen <= checked
      && (forall u :: u in roots && u !in fallback ==> u in checked)
      && (forall u :: u in checked ==> u in seen || u in roots)
    decreases |roots|
  {
    if roots != [] {
      var skip := roots[0] in seen || (roots[0] in fallback && found);
      AuthoritativeRootsAreChecked(roots[1..], fallback, check, if skip then seen else seen + {roots[0]},
                                   if skip then found else found || !check(roots[0]).Failed?);
      assert forall u :: u in roots <==> u == roots[0] || u in roots[1..];
    }
  }

  // ---------- what a report of the resource limit means ----------

  /** Nothing was missed: the roots that count were checked, and every link of them leads somewhere visited. */
  ghost predicate Complete(seen: Seen, plan: Plan, check: Url -> Checked) {
    Closed(seen.depths, check) && seen.roots == CheckedRoots(plan.roots, plan.fallback, check, {}, false)
  }

  /** The item would have been passed over: visited already, or an alternative no longer needed. */
  predicate PassedOver(w: Walk, plan: Plan, item: Item) {
    item.url in w.seen.visited || (item.root && item.url in plan.fallback && w.found)
  }

  predicate AllPassedOver(w: Walk, plan: Plan) {
    forall item :: item in w.queue ==> PassedOver(w, plan, item)
  }

  lemma {:induction false} SkippedRootsAddNothing(
    roots: seq<Url>, fallback: set<Url>, check: Url -> Checked, seen: set<Url>, found: bool)
    requires forall u :: u in roots ==> u in seen || (u in fallback && found)
    ensures CheckedRoots(roots, fallback, check, seen, found) == seen
    decreases |roots|
  {
    if roots != [] {
      assert roots[0] in roots;
      SkippedRootsAddNothing(roots[1..], fallback, check, seen, found);
    }
  }

  /** An unvisited child in the queue leaves its parent's link open; no such child, no open link. */
  lemma OpenLinks(w: Walk, plan: Plan, limits: Limits, check: Url -> Checked)
    requires Running(w, limits, check)
    requires w.queue != [] && !w.queue[0].root ==> w.queue[0].url !in w.seen.visited
    ensures AllPassedOver(w, plan) && w.queue != [] ==> Closed(w.seen.depths, check)
    ensures forall item :: item in w.queue && !item.root && !PassedOver(w, plan, item) ==> !Closed(w.seen.depths, check)
  {
    if AllPassedOver(w, plan) && w.queue != [] {
      assert w.queue[0] in w.queue && ItemFits(w.seen.depths, w.queue[0], check);
      forall u, v | u in w.seen.depths && v in Children(check(u)) ensures v in w.seen.depths {
        assert LinkMet(w.seen.depths, w.queue, u, v, w.deep, limits);
      }
    }
    forall item | item in w.queue && !item.root && !PassedOver(w, plan, item) ensures !Closed(w.seen.depths, check) {
      assert ItemFits(w.seen.depths, item, check);
    }
  }

  /** The first root still queued tells whether a root that counts is left. */
  lemma OpenRoots(w: Walk, left: seq<Url>, more: seq<Item>, plan: Plan, check: Url -> Checked)
    requires Beyond(w.seen.depths, w.queue) && Reached(w.seen.depths, w.seen.roots, check)
    requires w.seen.depths.Keys == w.seen.visited
    requires w.queue == Items(left, true, 0) + more && NoRoots(more) && w.queue != []
    requires w.queue[0].url !in w.seen.visited
    ensures CheckedRoots(left, plan.fallback, check, w.seen.roots, w.found) == w.seen.roots
       <==> forall u :: u in left ==> PassedOver(w, plan, Item(u, true, 0))
  {
    if left != [] {
      assert w.queue[0] == Item(left[0], true, 0);
      RootSeen(w.seen.depths, w.seen.roots, w.queue, check);
      if forall u :: u in left ==> PassedOver(w, plan, Item(u, true, 0)) {
        SkippedRootsAddNothing(left, plan.fallback, check, w.seen.roots, w.found);
      } else {
        var u :| u in left && !PassedOver(w, plan, Item(u, true, 0));
        if left[0] in plan.fallback && w.found {
          AuthoritativeRootsAreChecked(left, plan.fallback, check, w.seen.roots, w.found);
        } else {
          NextRoot(left, plan.fallback, check, w.seen.roots, w.found);
          AuthoritativeRootsAreChecked(left[1..], plan.fallback, check, w.seen.roots + {left[0]},
                                       w.found || !check(left[0]).Failed?);
        }
      }
    }
  }

  lemma QueueSplits(left: seq<Url>, more: seq<Item>, item: Item)
    requires NoRoots(more)
    ensures item in Items(left, true, 0) + more <==> item in more || (item.root && item.depth == 0 && item.url in left)
  {
    if item.root && item.depth == 0 && item.url in left {
      var i :| 0 <= i < |left| && left[i] == item.url;
      assert Items(left, true, 0)[i] == item;
    }
  }

  /**
   A report of the resource limit is true, something was missed, unless every item left in the
   queue would have been passed over.
   */
  lemma FullMissesSomething(plan: Plan, limits: Limits, check: Url -> Checked)
    ensures var b := Break(Start(plan), plan, check, limits); var w := Run(Start(plan), plan, check, limits);
      && w.seen == b.seen && (w.full <==> b.queue != [])
      && (w.full ==> (Complete(w.seen, plan, check) <==> AllPassedOver(b, plan)))
  {
    var b := Break(Start(plan), plan, check, limits);
    StartRuns(plan, limits, check);
    RunBreaks(Start(plan), plan, limits, check);
    if b.queue != [] {
      var left, more := RootsAtBreak(plan, limits, check);
      OpenLinks(b, plan, limits, check);
      OpenRoots(b, left, more, plan, check);
      forall item ensures item in b.queue <==> item in more || (item.root && item.depth == 0 && item.url in left) {
        QueueSplits(left, more, item);
      }
    }
  }

  /** It is false only after a walk that checked as many roots as the limit allows, every one that
      counts, none of them leading anywhere else, and then came upon an alternative to them. */
  lemma FalseReportsAreOfRoots(plan: Plan, limits: Limits, check: Url -> Checked)
    ensures var w := Run(Start(plan), plan, check, limits);
      w.full && Complete(w.seen, plan, check) ==>
        && w.seen.visited == CheckedRoots(plan.roots, plan.fallback, check, {}, false)
        && |w.seen.visited| == limits.maxResources && w.found
        && exists u :: u in plan.fallback && u !in w.seen.visited
  {
    var b := Break(Start(plan), plan, check, limits);
    WalkEnds(plan, limits, check);
    StartRuns(plan, limits, check);
    RunBreaks(Start(plan), plan, limits, check);
    FullMissesSomething(plan, limits, check);
    if b.queue != [] && AllPassedOver(b, plan) {
      assert b.queue[0] in b.queue && ItemFits(b.seen.depths, b.queue[0], check);
      RootSeen(b.seen.depths, b.seen.roots, b.queue, check);
    }
  }

  /** The report of a walk is exact, but for that case: with no alternatives it always is. */
  lemma ReportIsExact(plan: Plan, limits: Limits, check: Url -> Checked)
    ensures var b := Break(Start(plan), plan, check, limits); var w := Run(Start(plan), plan, check, limits);
      Reasons(w) == [] <==> Complete(w.seen, plan, check) && (b.queue == [] || !AllPassedOver(b, plan))
    ensures var w := Run(Start(plan), plan, check, limits);
      plan.fallback == {} ==> (Reasons(w) == [] <==> Complete(w.seen, plan, check))
  {
    hide Run, Start, Break, Closed, CheckedRoots, Reached, LinksMet, Missed, PassedOver;
    FullMissesSomething(plan, limits, check);
    FalseReportsAreOfRoots(plan, limits, check);
    CompleteMeansClosed(plan, limits, check);
    RootsOfAWalk(plan, limits, check);
  }

  /** What each reason tells: the limit on resources is used up; and short of it, the limit on depth left a child unvisited. */
  lemma ReasonsTell(plan: Plan, limits: Limits, check: Url -> Checked)
    ensures var w := Run(Start(plan), plan, check, limits);
      && (ResourceLimit in Reasons(w) ==> |w.seen.order| == limits.maxResources)
      && (ResourceLimit !in Reasons(w) ==>
            (DepthLimit in Reasons(w) <==>
               exists u, v :: u in w.seen.visited && v in Children(check(u)) && v !in w.seen.visited))
  {
    hide Run, Start, NoDuplicates, Children;
    NoUrlTwice(plan, limits, check);
    CompleteMeansClosed(plan, limits, check);
  }

  /** Which roots a scan starts from, in which order, and which of them are only alternatives. */
  lemma PlansTell(explicit: bool, authoritative: seq<Url>, common: seq<Url>)
    ensures var plan := PlanRoots(explicit, authoritative, common);
      && (plan.authoritative <==> authoritative != [])
      && (authoritative == [] ==> plan.roots == common && forall u :: u in plan.fallback <==> u in common)
      && (authoritative != [] && explicit ==> plan.roots == authoritative && plan.fallback == {})
      && (authoritative != [] && !explicit ==>
            && Apart(plan.roots) && (forall u :: u in plan.roots <==> u in authoritative || u in common)
            && (forall i, j :: 0 <= i < j < |plan.roots| ==> ComesFirst(authoritative + common, plan.roots[i], plan.roots[j]))
            && forall u :: u in plan.fallback <==> u in common && u !in authoritative)
  {
    DistinctKeepsEach(authoritative + common);
    DistinctKeepsOrder(authoritative + common);
    hide ComesFirst, Distinct;
    forall u ensures u in Distinct(authoritative + common) <==> u in authoritative || u in common { DistinctKeeps(authoritative + common, u); }
  }

  lemma {:induction false} SameSiteJoins(xs: seq<Link>, ys: seq<Link>)
    ensures SameSite(xs + ys) == SameSite(xs) + SameSite(ys)
  {
    if xs == [] {
      assert xs + ys == ys;
    } else {
      SameSiteJoins(xs[1..], ys);
      assert (xs + ys)[1..] == xs[1..] + ys;
    }
  }

  /** A child is a link of an index that stays on the site, in the order of the links. */
  lemma ChildrenTell(checked: Checked, xs: seq<Link>, link: Link, ys: seq<Link>)
    ensures checked.Failed? || !checked.index || checked.links == [] ==> Children(checked) == []
    ensures Children(Fetched(true, xs + [link] + ys)) ==
      Children(Fetched(true, xs)) + (if link.sameSite then [link.url] else []) + Children(Fetched(true, ys))
  {
    SameSiteJoins(xs, [link]);
    SameSiteJoins(xs + [link], ys);
    assert [link][1..] == [];
  }

  lemma PlannedRoots(explicit: bool, authoritative: seq<Url>, common: seq<Url>)
    ensures var plan := PlanRoots(explicit, authoritative, common);
      && (forall u :: u in authoritative ==> u in plan.roots && (plan.authoritative ==> u !in plan.fallback))
      && (forall u :: u in plan.fallback ==> u in common && u !in authoritative)
      && (explicit && authoritative != [] ==> plan.fallback == {})
  {
    DistinctKeepsEach(authoritative + common);
  }

  /**
   For a scan as it is planned: short of the resource limit every authoritative root is checked, with
   explicit sitemaps the report is exact, and else only an unvisited common path makes it false.
   */
  lemma PlannedScans(explicit: bool, authoritative: seq<Url>, common: seq<Url>, limits: Limits, check: Url -> Checked)
    ensures var plan := PlanRoots(explicit, authoritative, common); var w := Run(Start(plan), plan, check, limits);
      && (!w.full && authoritative != [] ==> forall u :: u in authoritative ==> u in w.seen.roots)
      && (explicit && authoritative != [] ==> (Reasons(w) == [] <==> Complete(w.seen, plan, check)))
      && (w.full && Complete(w.seen, plan, check) ==>
            exists u :: u in common && u !in authoritative && u !in w.seen.visited)
  {
    var plan := PlanRoots(explicit, authoritative, common);
    PlannedRoots(explicit, authoritative, common);
    assert authoritative != [] ==> plan.authoritative;
    RootsOfAWalk(plan, limits, check);
    AuthoritativeRootsAreChecked(plan.roots, plan.fallback, check, {}, false);
    ReportIsExact(plan, limits, check);
    FalseReportsAreOfRoots(plan, limits, check);
    hide Run, Start, Break, Complete, CheckedRoots, PlanRoots, AllPassedOver, Reasons;
  }

  /**
   The limit is tested before a root is found superfluous: with room for one resource, the
   skipped alternative makes a walk that missed nothing report itself incomplete.
   */
  lemma LimitCountsSkippedRoots(a: Url, b: Url, check: Url -> Checked)
    requires a != b && check(a) == Fetched(false, [])
    ensures var plan := Plan([a, b], {b}, true); var w := Run(Start(plan), plan, check, Limits(1, 3));
      && w.seen.visited == {a} && Complete(w.seen, plan, check) && Reasons(w) == [ResourceLimit]
      && Run(Start(plan), plan, check, Limits(2, 3)).seen.visited == {a}
      && Reasons(Run(Start(plan), plan, check, Limits(2, 3))) == []
  {
    var plan := Plan([a, b], {b}, true);
    var w0 := Start(plan);
    var w1 := Visit(w0, plan, check);
    assert w0.queue[0] == Item(a, true, 0) && w1.queue == [Item(b, true, 0)];
    RootsOfAWalk(plan, Limits(2, 3), check);
    assert Turn(w0, plan, check, Limits(1, 3)) == w1 == Turn(w0, plan, check, Limits(2, 3));
    var w2 := Turn(w1, plan, check, Limits(1, 3));
    assert w2.queue == [] && Run(w1, plan, check, Limits(1, 3)) == Run(w2, plan, check, Limits(1, 3)) == w2;
    var w3 := Turn(w1, plan, check, Limits(2, 3));
    assert w3.queue == [] && Run(w1, plan, check, Limits(2, 3)) == Run(w3, plan, check, Limits(2, 3)) == w3;
  }

  // ---------- what the flags tell ----------

  /** Some URL that was checked as a root, among these, did not fail. */
  ghost predicate FoundAmong(roots: set<Url>, check: Url -> Checked) { exists u :: u in roots && !check(u).Failed? }

  ghost predicate FlagsTell(w: Walk, plan: Plan, check: Url -> Checked) {
    && (w.found <==> FoundAmong(w.seen.roots, check))
    && (w.usedFallback <==> !plan.authoritative || FoundAmong(w.seen.roots * plan.fallback, check))
  }

  /** One more root among them. */
  lemma OneMoreRoot(roots: set<Url>, url: Url, check: Url -> Checked)
    ensures FoundAmong(roots + {url}, check) <==> FoundAmong(roots, check) || !check(url).Failed?
  {
    if FoundAmong(roots, check) {
      var u :| u in roots && !check(u).Failed?;
      assert u in roots + {url};
    }
    if !check(url).Failed? { assert url in roots + {url}; }
  }

  lemma TurnMovesFlags(w: Walk, plan: Plan, limits: Limits, check: Url -> Checked)
    requires w.queue != []
    ensures var t, item := Turn(w, plan, check, limits), w.queue[0];
      if !MoveOf(w, plan, limits).Look? then t.seen == w.seen && t.found == w.found && t.usedFallback == w.usedFallback
      else
        var success := item.root && !check(item.url).Failed?;
        && t.seen.roots == (if item.root then w.seen.roots + {item.url} else w.seen.roots)
        && t.found == (w.found || success) && t.usedFallback == (w.usedFallback || (success && item.url in plan.fallback))
  {
    hide Children, Items;
  }

  lemma TurnKeepsFlags(w: Walk, plan: Plan, limits: Limits, check: Url -> Checked)
    requires w.queue != [] && FlagsTell(w, plan, check)
    ensures FlagsTell(Turn(w, plan, check, limits), plan, check)
  {
    hide Turn, FoundAmong, MoveOf;
    var item, t := w.queue[0], Turn(w, plan, check, limits);
    TurnMovesFlags(w, plan, limits, check);
    OneMoreRoot(w.seen.roots, item.url, check);
    OneMoreRoot(w.seen.roots * plan.fallback, item.url, check);
    assert (w.seen.roots + {item.url}) * plan.fallback ==
      if item.url in plan.fallback then w.seen.roots * plan.fallback + {item.url} else w.seen.roots * plan.fallback;
  }

  lemma {:induction false} RunKeepsFlags(w: Walk, plan: Plan, limits: Limits, check: Url -> Checked)
    requires FlagsTell(w, plan, check)
    ensures FlagsTell(Run(w, plan, check, limits), plan, check)
    decreases Room(w, limits), |w.queue|
  {
    RunTurns(w, plan, check, limits);
    if w.queue != [] {
      hide Run, Turn, FlagsTell;
      TurnShrinks(w, plan, check, limits);
      TurnKeepsFlags(w, plan, limits, check);
      RunKeepsFlags(Turn(w, plan, check, limits), plan, limits, check);
    }
  }

  /** A scan used the fallback if and only if nothing was authoritative, or a fallback root was checked and did not fail. */
  lemma FallbackIsTold(plan: Plan, limits: Limits, check: Url -> Checked)
    ensures var w := Run(Start(plan), plan, check, limits);
      w.usedFallback <==> !plan.authoritative || exists u :: u in w.seen.roots && u in plan.fallback && !check(u).Failed?
  {
    RunKeepsFlags(Start(plan), plan, limits, check);
    var w := Run(Start(plan), plan, check, limits);
    hide Run;
    assert FoundAmong(w.seen.roots * plan.fallback, check) <==>
           exists u :: u in w.seen.roots && u in plan.fallback && !check(u).Failed?;
  }

  // ---------- the walk looks at nothing but the answers ----------

  ghost predicate SameAnswers(a: Url -> Checked, b: Url -> Checked) {
    forall u :: a(u) == b(u)
  }

  /** Two services that answer alike are walked alike, turn by turn. */
  lemma {:induction false} WalkFollowsAnswers(w: Walk, plan: Plan, limits: Limits, a: Url -> Checked, b: Url -> Checked)
    requires SameAnswers(a, b)
    ensures Run(w, plan, a, limits) == Run(w, plan, b, limits)
    decreases Room(w, limits), |w.queue|
  {
    if w.queue != [] {
      TurnShrinks(w, plan, a, limits);
      assert a(w.queue[0].url) == b(w.queue[0].url);
      assert Turn(w, plan, a, limits) == Turn(w, plan, b, limits);
      WalkFollowsAnswers(Turn(w, plan, a, limits), plan, limits, a, b);
    }
  }
}
