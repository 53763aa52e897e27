/** The walk of SitemapMonitor.scan_site over a possibly cyclic graph of sitemap indexes. */
module Traversal {
  import opened Prelude
  import opened Entries

  type Url = Text

  datatype Link = Link(url: Url, sameSite: bool)

  /** What check_resource reports of one URL, as far as the walk looks at it. */
  datatype Checked = Failed | Fetched(index: bool, links: seq<Link>)

  datatype Limits = Limits(maxResources: nat, maxDepth: nat)

  datatype Plan = Plan(roots: seq<Url>, fallback: set<Url>, authoritative: bool)

  datatype Item = Item(url: Url, root: bool, depth: nat)

  datatype Reason = ResourceLimit | DepthLimit

  /** Where a walk may start: robots and explicit sitemaps, with the common paths as a fallback. */
  function PlanRoots(explicit: bool, authoritative: seq<Url>, common: seq<Url>): Plan {
    if explicit && authoritative != [] then Plan(authoritative, {}, true)
    else if authoritative != [] then
      Plan(Distinct(authoritative + common), (set u | u in common) - (set u | u in authoritative), true)
    else Plan(common, set u | u in common, false)
  }

  // ---------- the graph ----------

  function SameSite(links: seq<Link>): seq<Url> {
    if links == [] then []
    else if links[0].sameSite then [links[0].url] + SameSite(links[1..]) else SameSite(links[1..])
  }

  function Children(checked: Checked): seq<Url> {
    if checked.Fetched? && checked.index then SameSite(checked.links) else []
  }

  /** The URL lies at most `radius` same-site links away from the centre. */
  ghost predicate Within(url: Url, radius: nat, centre: set<Url>, check: Url -> Checked)
    decreases radius, 0
  {
    if radius == 0 then url in centre
    else Within(url, radius - 1, centre, check) || ByLink(url, radius - 1, centre, check)
  }

  ghost predicate ByLink(url: Url, radius: nat, centre: set<Url>, check: Url -> Checked)
    decreases radius, 1
  {
    exists p :: Within(p, radius, centre, check) && url in Children(check(p))
  }

  lemma {:induction false} WithinGrows(url: Url, small: nat, large: nat, centre: set<Url>, check: Url -> Checked)
    requires small <= large && Within(url, small, centre, check)
    ensures Within(url, large, centre, check)
  {
    if small < large { WithinGrows(url, small, large - 1, centre, check); }
  }

  /** The roots that are checked: an alternative only while no root before it was found. */
  function CheckedRoots(roots: seq<Url>, fallback: set<Url>, check: Url -> Checked, seen: set<Url>, found: bool): set<Url>
    decreases |roots|
  {
    if roots == [] then seen
    else if roots[0] in seen || (roots[0] in fallback && found) then
      CheckedRoots(roots[1..], fallback, check, seen, found)
    else
      CheckedRoots(roots[1..], fallback, check, seen + {roots[0]}, found || !check(roots[0]).Failed?)
  }

  // ---------- the walk as a function ----------

  /** `roots` and `depths` only keep account: what was checked as a root, and how deep each URL lay. */
  datatype Seen = Seen(visited: set<Url>, order: seq<Url>, roots: set<Url>, depths: map<Url, nat>)

  datatype Walk = Walk(queue: seq<Item>, seen: Seen, deep: bool, full: bool, found: bool, usedFallback: bool)

  function Items(urls: seq<Url>, root: bool, depth: nat): (items: seq<Item>)
    ensures |items| == |urls| && forall i :: 0 <= i < |urls| ==> items[i] == Item(urls[i], root, depth)
  {
    seq(|urls|, i requires 0 <= i < |urls| => Item(urls[i], root, depth))
  }

  function Start(plan: Plan): Walk {
    Walk(Items(plan.roots, true, 0), Seen({}, [], {}, map[]), false, false, false, !plan.authoritative)
  }

  function See(seen: Seen, item: Item): Seen {
    Seen(seen.visited + {item.url}, seen.order + [item.url],
         if item.root then seen.roots + {item.url} else seen.roots, seen.depths[item.url := item.depth])
  }

  function Visit(w: Walk, plan: Plan, check: Url -> Checked): Walk
    requires w.queue != []
  {
    var item := w.queue[0];
    var checked := check(item.url);
    var success := item.root && !checked.Failed?;
    w.(queue := w.queue[1..] + Items(Children(checked), false, item.depth + 1),
       seen := See(w.seen, item),
       found := w.found || success,
       usedFallback := w.usedFallback || (success && item.url in plan.fallback))
  }

  /** What the loop does with the head of the queue. */
  datatype Move = Known | Full | Deep | Superfluous | Look

  function MoveOf(w: Walk, plan: Plan, limits: Limits): Move
    requires w.queue != []
  {
    var item := w.queue[0];
    if item.url in w.seen.visited then Known
    else if |w.seen.visited| >= limits.maxResources then Full
    else if item.depth > limits.maxDepth then Deep
    else if item.root && item.url in plan.fallback && w.found then Superfluous
    else Look
  }

  /** One turn of the loop; the resource limit empties the queue. */
  function Turn(w: Walk, plan: Plan, check: Url -> Checked, limits: Limits): Walk
    requires w.queue != []
  {
    match MoveOf(w, plan, limits)
    case Known => w.(queue := w.queue[1..])
    case Full => w.(queue := [], full := true)
    case Deep => w.(queue := w.queue[1..], deep := true)
    case Superfluous => w.(queue := w.queue[1..])
    case Look => Visit(w, plan, check)
  }

  /** How many more resources the walk may check. */
  function Room(w: Walk, limits: Limits): nat {
    if |w.seen.visited| < limits.maxResources then limits.maxResources - |w.seen.visited| else 0
  }

  lemma TurnShrinks(w: Walk, plan: Plan, check: Url -> Checked, limits: Limits)
    requires w.queue != []
    ensures var t := Turn(w, plan, check, limits);
      Room(t, limits) < Room(w, limits) || (Room(t, limits) == Room(w, limits) && |t.queue| < |w.queue|)
  {
    if MoveOf(w, plan, limits).Look? {
      assert |w.seen.visited + {w.queue[0].url}| == |w.seen.visited| + 1;
    }
  }

  function Run(w: Walk, plan: Plan, check: Url -> Checked, limits: Limits): Walk
    decreases Room(w, limits), |w.queue|
  {
    if w.queue == [] then w
    else
      TurnShrinks(w, plan, check, limits);
      Run(Turn(w, plan, check, limits), plan, check, limits)
  }

  lemma RunTurns(w: Walk, plan: Plan, check: Url -> Checked, limits: Limits)
    ensures Run(w, plan, check, limits) == if w.queue == [] then w else Run(Turn(w, plan, check, limits), plan, check, limits)
  {
  }

  // ---------- reasons ----------

  function Reasons(w: Walk): seq<Reason> {
    (if w.deep then [DepthLimit] else []) + (if w.full then [ResourceLimit] else [])
  }

  lemma NoReasons()
    ensures Distinct<Reason>([]) == []
  {
  }

  lemma AnotherReason(reasons: seq<Reason>, reason: Reason)
    ensures Distinct(reasons + [reason]) == if reason in Distinct(reasons) then Distinct(reasons) else Distinct(reasons) + [reason]
  {
    assert (reasons + [reason])[..|reasons|] == reasons;
  }
}
