/** What every turn of the walk keeps. */
module TraversalSafety {
  import opened Traversal

  type Depths = map<Url, nat>

  ghost predicate NoDuplicates(order: seq<Url>) {
    forall i, j :: 0 <= i < j < |order| ==> order[i] != order[j]
  }

  /** Bookkeeping: the order lists the visited set once, within the limits, and depths follow it. */
  ghost predicate Books(visited: set<Url>, order: seq<Url>, depths: Depths, limits: Limits) {
    && (forall u :: u in visited <==> u in order) && NoDuplicates(order)
    && |visited| == |order| <= limits.maxResources
    && depths.Keys == visited
    && (forall u :: u in depths ==> depths[u] <= limits.maxDepth)
  }

  /** The queue is sorted by depth and spans two depths at most. */
  ghost predicate ByDepth(queue: seq<Item>) {
    forall i, j :: 0 <= i < j < |queue| ==> queue[i].depth <= queue[j].depth <= queue[i].depth + 1
  }

  /** It lies beyond everything visited. */
  ghost predicate Beyond(depths: Depths, queue: seq<Item>) {
    forall u, item :: u in depths && item in queue ==> depths[u] <= item.depth
  }

  /** `url` is a same-site child of a visited index one level up. */
  ghost predicate ChildAt(depths: Depths, url: Url, depth: int, check: Url -> Checked) {
    exists u :: u in depths && depths[u] == depth - 1 && url in Children(check(u))
  }

  /** Everything visited was a root or reached by a link. */
  ghost predicate Reached(depths: Depths, centre: set<Url>, check: Url -> Checked) {
    && (forall u :: u in centre <==> u in depths && depths[u] == 0)
    && (forall u :: u in depths && depths[u] > 0 ==> ChildAt(depths, u, depths[u], check))
  }

  ghost predicate ItemFits(depths: Depths, item: Item, check: Url -> Checked) {
    if item.root then item.depth == 0 else item.depth > 0 && ChildAt(depths, item.url, item.depth, check)
  }

  ghost predicate ItemsFit(depths: Depths, queue: seq<Item>, check: Url -> Checked) {
    forall item :: item in queue ==> ItemFits(depths, item, check)
  }

  /** The obligation a link leaves behind until its target is visited. */
  ghost predicate LinkMet(depths: Depths, queue: seq<Item>, u: Url, v: Url, deep: bool, limits: Limits)
    requires u in depths
  {
    || (v in depths && depths[v] <= depths[u] + 1)
    || Item(v, false, depths[u] + 1) in queue
    || (depths[u] == limits.maxDepth && deep)
  }

  ghost predicate LinksMet(depths: Depths, queue: seq<Item>, deep: bool, limits: Limits, check: Url -> Checked) {
    forall u, v :: u in depths && v in Children(check(u)) ==> LinkMet(depths, queue, u, v, deep, limits)
  }

  /** A depth limit was reached: some child of a visited index is, and stays, unvisited. */
  ghost predicate Missed(depths: Depths, queue: seq<Item>, limits: Limits, check: Url -> Checked) {
    && (exists u, v :: u in depths && v in Children(check(u)) && v !in depths)
    && (forall item :: item in queue ==> item.depth > limits.maxDepth)
  }

  ghost predicate SeenFits(seen: Seen, limits: Limits, check: Url -> Checked) {
    Books(seen.visited, seen.order, seen.depths, limits) && Reached(seen.depths, seen.roots, check)
  }

  ghost predicate QueueFits(depths: Depths, queue: seq<Item>, deep: bool, limits: Limits, check: Url -> Checked) {
    && ByDepth(queue) && Beyond(depths, queue) && ItemsFit(depths, queue, check)
    && LinksMet(depths, queue, deep, limits, check)
    && (deep ==> Missed(depths, queue, limits, check))
  }

  ghost predicate Inv(w: Walk, limits: Limits, check: Url -> Checked) {
    SeenFits(w.seen, limits, check) && QueueFits(w.seen.depths, w.queue, w.deep, limits, check)
  }

  lemma TailIn(queue: seq<Item>, item: Item)
    requires queue != []
    ensures item in queue <==> item == queue[0] || item in queue[1..]
  {
  }

  lemma HeadFits(depths: Depths, queue: seq<Item>, check: Url -> Checked)
    requires queue != [] && ItemsFit(depths, queue, check)
    ensures ItemFits(depths, queue[0], check)
  {
    assert queue[0] in queue;
  }

  // ---------- a turn that only drops the head ----------

  lemma TailFits(depths: Depths, queue: seq<Item>, check: Url -> Checked)
    requires queue != [] && ByDepth(queue) && Beyond(depths, queue) && ItemsFit(depths, queue, check)
    ensures ByDepth(queue[1..]) && Beyond(depths, queue[1..]) && ItemsFit(depths, queue[1..], check)
  {
    var tail := queue[1..];
    forall i, j | 0 <= i < j < |tail| ensures tail[i].depth <= tail[j].depth <= tail[i].depth + 1 {
      assert queue[i + 1].depth <= queue[j + 1].depth <= queue[i + 1].depth + 1;
    }
    forall item | item in tail ensures item in queue { TailIn(queue, item); }
  }

  /** The head stands for no link still to be met. */
  predicate Idle(depths: Depths, head: Item, deep: bool, limits: Limits) {
    head.root || (head.url in depths && depths[head.url] <= head.depth) || (head.depth > limits.maxDepth && deep)
  }

  lemma TailMeetsLinks(depths: Depths, queue: seq<Item>, before: bool, deep: bool, limits: Limits, check: Url -> Checked)
    requires queue != [] && LinksMet(depths, queue, before, limits, check)
    requires Idle(depths, queue[0], deep, limits) && (before ==> deep)
    requires forall u :: u in depths ==> depths[u] <= limits.maxDepth
    ensures LinksMet(depths, queue[1..], deep, limits, check)
  {
    forall u, v | u in depths && v in Children(check(u)) ensures LinkMet(depths, queue[1..], u, v, deep, limits) {
      assert LinkMet(depths, queue, u, v, before, limits);
      TailIn(queue, Item(v, false, depths[u] + 1));
    }
  }

  lemma DropKeeps(w: Walk, plan: Plan, limits: Limits, check: Url -> Checked)
    requires Inv(w, limits, check) && w.queue != []
    requires MoveOf(w, plan, limits).Known? || MoveOf(w, plan, limits).Superfluous?
    ensures Inv(Turn(w, plan, check, limits), limits, check)
  {
    assert w.queue[0] in w.queue;
    TailFits(w.seen.depths, w.queue, check);
    TailMeetsLinks(w.seen.depths, w.queue, w.deep, w.deep, limits, check);
    forall item | item in w.queue[1..] ensures item in w.queue { TailIn(w.queue, item); }
  }

  lemma HeadIsDeep(depths: Depths, queue: seq<Item>, limits: Limits, check: Url -> Checked)
    requires queue != [] && ByDepth(queue) && ItemFits(depths, queue[0], check)
    requires queue[0].url !in depths && queue[0].depth > limits.maxDepth
    ensures Missed(depths, queue[1..], limits, check)
  {
    forall item | item in queue[1..] ensures item.depth > limits.maxDepth {
      var i :| 0 <= i < |queue| - 1 && queue[i + 1] == item;
      assert queue[0].depth <= queue[i + 1].depth;
    }
  }

  lemma InvParts(w: Walk, limits: Limits, check: Url -> Checked)
    requires Inv(w, limits, check)
    ensures SeenFits(w.seen, limits, check) && QueueFits(w.seen.depths, w.queue, w.deep, limits, check)
    ensures w.seen.depths.Keys == w.seen.visited && forall u :: u in w.seen.depths ==> w.seen.depths[u] <= limits.maxDepth
  {
    hide QueueFits, Reached;
  }

  lemma DeepKeepsQueue(depths: Depths, queue: seq<Item>, deep: bool, limits: Limits, check: Url -> Checked)
    requires queue != [] && QueueFits(depths, queue, deep, limits, check)
    requires queue[0].url !in depths && queue[0].depth > limits.maxDepth && forall u :: u in depths ==> depths[u] <= limits.maxDepth
    ensures QueueFits(depths, queue[1..], true, limits, check)
  {
    hide ByDepth, Beyond, ItemsFit, LinksMet, Missed, ItemFits;
    HeadFits(depths, queue, check);
    TailFits(depths, queue, check);
    TailMeetsLinks(depths, queue, deep, true, limits, check);
    HeadIsDeep(depths, queue, limits, check);
  }

  lemma DeepKeeps(w: Walk, plan: Plan, limits: Limits, check: Url -> Checked)
    requires Inv(w, limits, check) && w.queue != [] && MoveOf(w, plan, limits).Deep?
    ensures Inv(Turn(w, plan, check, limits), limits, check)
  {
    InvParts(w, limits, check);
    hide SeenFits, QueueFits;
    DeepKeepsQueue(w.seen.depths, w.queue, w.deep, limits, check);
  }

  // ---------- a turn that visits ----------

  lemma VisitKeepsBooks(visited: set<Url>, order: seq<Url>, depths: Depths, url: Url, depth: nat, limits: Limits)
    requires Books(visited, order, depths, limits) && url !in visited
    requires |visited| < limits.maxResources && depth <= limits.maxDepth
    ensures Books(visited + {url}, order + [url], depths[url := depth], limits)
  {
    assert forall u :: u in order + [url] <==> u in order || u == url;
  }

  lemma VisitKeepsSorted(queue: seq<Item>, kids: seq<Url>)
    requires queue != [] && ByDepth(queue)
    ensures ByDepth(queue[1..] + Items(kids, false, queue[0].depth + 1))
  {
    var after := queue[1..] + Items(kids, false, queue[0].depth + 1);
    forall i, j | 0 <= i < j < |after| ensures after[i].depth <= after[j].depth <= after[i].depth + 1 {
      assert i < |queue| - 1 ==> queue[0].depth <= queue[i + 1].depth <= queue[0].depth + 1 && after[i] == queue[i + 1];
      assert j < |queue| - 1 ==> queue[i + 1].depth <= queue[j + 1].depth <= queue[i + 1].depth + 1 && after[j] == queue[j + 1];
    }
  }

  /** What a visit leaves in the queue. */
  lemma VisitQueues(queue: seq<Item>, kids: seq<Url>, depth: nat, item: Item)
    requires queue != []
    ensures item in queue[1..] + Items(kids, false, depth) <==>
            item in queue[1..] || (!item.root && item.depth == depth && item.url in kids)
  {
    var more := Items(kids, false, depth);
    if !item.root && item.depth == depth && item.url in kids {
      var i :| 0 <= i < |kids| && kids[i] == item.url;
      assert more[i] == item;
    }
  }

  lemma VisitKeepsBeyond(depths: Depths, queue: seq<Item>, kids: seq<Url>)
    requires queue != [] && ByDepth(queue) && Beyond(depths, queue)
    ensures Beyond(depths[queue[0].url := queue[0].depth], queue[1..] + Items(kids, false, queue[0].depth + 1))
  {
    var after := queue[1..] + Items(kids, false, queue[0].depth + 1);
    assert queue[0] in queue;
    forall item | item in after
      ensures item.depth >= queue[0].depth && forall u :: u in depths ==> depths[u] <= item.depth
    {
      VisitQueues(queue, kids, queue[0].depth + 1, item);
      if item in queue[1..] {
        var i :| 0 <= i < |queue| - 1 && queue[i + 1] == item;
        assert item in queue;
      } else {
        assert forall u :: u in depths ==> depths[u] <= queue[0].depth;
      }
    }
  }

  lemma ChildAtLasts(depths: Depths, url: Url, depth: int, check: Url -> Checked, visited: Url, at: nat)
    requires ChildAt(depths, url, depth, check) && visited !in depths
    ensures ChildAt(depths[visited := at], url, depth, check)
  {
    var u :| u in depths && depths[u] == depth - 1 && url in Children(check(u));
    assert u in depths[visited := at];
  }

  lemma VisitKeepsReached(depths: Depths, centre: set<Url>, head: Item, check: Url -> Checked)
    requires Reached(depths, centre, check) && ItemFits(depths, head, check) && head.url !in depths
    ensures Reached(depths[head.url := head.depth], if head.root then centre + {head.url} else centre, check)
  {
    var after := depths[head.url := head.depth];
    forall u | u in after && after[u] > 0 ensures ChildAt(after, u, after[u], check) {
      ChildAtLasts(depths, u, after[u], check, head.url, head.depth);
    }
  }

  lemma VisitKeepsItems(depths: Depths, queue: seq<Item>, check: Url -> Checked)
    requires queue != [] && ItemsFit(depths, queue, check) && queue[0].url !in depths
    ensures ItemsFit(depths[queue[0].url := queue[0].depth],
                     queue[1..] + Items(Children(check(queue[0].url)), false, queue[0].depth + 1), check)
  {
    var head, kids := queue[0], Children(check(queue[0].url));
    var after := depths[head.url := head.depth];
    forall item | item in queue[1..] + Items(kids, false, head.depth + 1) ensures ItemFits(after, item, check) {
      VisitQueues(queue, kids, head.depth + 1, item);
      TailIn(queue, item);
      if item in queue[1..] {
        assert ItemFits(depths, item, check);
        if !item.root { ChildAtLasts(depths, item.url, item.depth, check, head.url, head.depth); }
      } else {
        assert after[head.url] == item.depth - 1;
      }
    }
  }

  lemma VisitMeetsLinks(depths: Depths, queue: seq<Item>, deep: bool, limits: Limits, check: Url -> Checked)
    requires queue != [] && LinksMet(depths, queue, deep, limits, check) && queue[0].url !in depths
    ensures LinksMet(depths[queue[0].url := queue[0].depth],
                     queue[1..] + Items(Children(check(queue[0].url)), false, queue[0].depth + 1), deep, limits, check)
  {
    hide Items, Children;
    var head, kids := queue[0], Children(check(queue[0].url));
    var after, rest := depths[head.url := head.depth], queue[1..] + Items(kids, false, head.depth + 1);
    forall u, v | u in after && v in Children(check(u)) ensures LinkMet(after, rest, u, v, deep, limits) {
      VisitQueues(queue, kids, head.depth + 1, Item(v, false, after[u] + 1));
      if u != head.url {
        assert LinkMet(depths, queue, u, v, deep, limits);
        TailIn(queue, Item(v, false, depths[u] + 1));
      }
    }
  }

  lemma VisitKeepsQueue(depths: Depths, queue: seq<Item>, deep: bool, limits: Limits, check: Url -> Checked)
    requires queue != [] && QueueFits(depths, queue, deep, limits, check)
    requires queue[0].url !in depths && queue[0].depth <= limits.maxDepth
    ensures QueueFits(depths[queue[0].url := queue[0].depth],
                      queue[1..] + Items(Children(check(queue[0].url)), false, queue[0].depth + 1), deep, limits, check)
  {
    assert !deep by { assert queue[0] in queue; }
    VisitKeepsSorted(queue, Children(check(queue[0].url)));
    VisitKeepsBeyond(depths, queue, Children(check(queue[0].url)));
    VisitKeepsItems(depths, queue, check);
    VisitMeetsLinks(depths, queue, deep, limits, check);
  }

  lemma VisitKeepsSeen(seen: Seen, item: Item, limits: Limits, check: Url -> Checked)
    requires SeenFits(seen, limits, check) && ItemFits(seen.depths, item, check)
    requires item.url !in seen.visited && |seen.visited| < limits.maxResources && item.depth <= limits.maxDepth
    ensures SeenFits(See(seen, item), limits, check)
  {
    VisitKeepsBooks(seen.visited, seen.order, seen.depths, item.url, item.depth, limits);
    VisitKeepsReached(seen.depths, seen.roots, item, check);
  }

  lemma VisitKeeps(w: Walk, plan: Plan, limits: Limits, check: Url -> Checked)
    requires Inv(w, limits, check) && w.queue != [] && MoveOf(w, plan, limits).Look?
    ensures Inv(Visit(w, plan, check), limits, check)
  {
    hide *;
    InvParts(w, limits, check);
    LooksAtHead(w, plan, limits);
    VisitParts(w, plan, check);
    QueueHead(w.seen.depths, w.queue, w.deep, limits, check);
    VisitKeepsSeen(w.seen, w.queue[0], limits, check);
    VisitKeepsQueue(w.seen.depths, w.queue, w.deep, limits, check);
    FitsBoth(Visit(w, plan, check), limits, check);
  }

  lemma LooksAtHead(w: Walk, plan: Plan, limits: Limits)
    requires w.queue != [] && MoveOf(w, plan, limits).Look?
    ensures w.queue[0].url !in w.seen.visited && |w.seen.visited| < limits.maxResources && w.queue[0].depth <= limits.maxDepth
  {
  }

  lemma VisitParts(w: Walk, plan: Plan, check: Url -> Checked)
    requires w.queue != []
    ensures var t, head := Visit(w, plan, check), w.queue[0];
      && t.seen == See(w.seen, head) && t.seen.depths == w.seen.depths[head.url := head.depth] && t.deep == w.deep
      && t.queue == w.queue[1..] + Items(Children(check(head.url)), false, head.depth + 1)
  {
    hide Items, Children;
  }

  lemma QueueHead(depths: Depths, queue: seq<Item>, deep: bool, limits: Limits, check: Url -> Checked)
    requires queue != [] && QueueFits(depths, queue, deep, limits, check)
    ensures ItemFits(depths, queue[0], check)
  {
    HeadFits(depths, queue, check);
  }

  lemma FitsBoth(w: Walk, limits: Limits, check: Url -> Checked)
    requires SeenFits(w.seen, limits, check) && QueueFits(w.seen.depths, w.queue, w.deep, limits, check)
    ensures Inv(w, limits, check)
  {
  }
}
