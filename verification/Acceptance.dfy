/** taxonomy_precision.primary_acceptance: when a leaf decision may become a primary without a human. */
module Acceptance {
  import opened Prelude
  import opened Assignments

  /** A term of the primary tree; a root is its own parent. */
  datatype Term = Term(id: TermId, parent: Option<TermId>, detection: bool)

  datatype Hit = Hit(term: TermId, confidence: real)

  datatype Leaf = Leaf(term: Term, confidence: real, grounded: bool)

  /** What the gate reads of a stored profile; the text patterns are booleans. */
  datatype Profile = Profile(
    upstream: bool,            // from upstream metadata instead of the product's own site
    accepted: bool,            // the entity decision was accepted
    eligibleKind: bool,        // as an independent product, an app or an extension
    signal: bool,              // something to classify by
    capabilities: bool,        // raw capabilities were extracted
    workflow: bool,            // quotes for the main workflow
    detects: bool, denies: bool, edits: bool,
    rest: nat)

  datatype Reason =
    | NoValidLeaf | LowPrimaryConfidence | MissingGroundedEvidence | UpstreamMetadata | EntityNotEligible
    | MissingWorkflowEvidence | UnsupportedParent | UnresolvedAmbiguity
    | DetectionNotEstablished | DetectionDenied | DetectionEditing

  datatype Gate = Gate(threshold: real, minGap: real)

  function ParentOf(term: Term): TermId { if term.parent.Some? then term.parent.value else term.id }

  /** The first hit on the parent market. */
  function SelectedConfidence(hits: seq<Hit>, parent: TermId): Option<real>
  {
    if hits == [] then None
    else if hits[0].term == parent then Some(ValidConfidence(hits[0].confidence))
    else SelectedConfidence(hits[1..], parent)
  }

  function Largest(hits: seq<Hit>): real {
    if hits == [] then 0.0
    else
      var rest := Largest(hits[1..]);
      if ValidConfidence(hits[0].confidence) < rest then rest else ValidConfidence(hits[0].confidence)
  }

  /** The second largest confidence, counted with repetition. */
  function Runner(hits: seq<Hit>): real {
    if |hits| <= 1 then 0.0
    else
      var c, top, second := ValidConfidence(hits[0].confidence), Largest(hits[1..]), Runner(hits[1..]);
      if c >= top then top else if c >= second then c else second
  }

  predicate Ambiguous(hits: seq<Hit>, minGap: real) {
    |hits| > 1 && Largest(hits) - Runner(hits) < (if minGap < 0.0 then 0.0 else minGap)
  }

  predicate SupportedParent(term: Term, hits: seq<Hit>) {
    SelectedConfidence(hits, ParentOf(term)).Some? && SelectedConfidence(hits, ParentOf(term)).value >= MIN_AUTO_PRIMARY
  }

  predicate DetectionFits(term: Term, p: Profile) { term.detection ==> p.detects && !p.denies && !p.edits }

  /** The whole gate as one condition. */
  predicate Eligible(decision: Option<Leaf>, p: Profile, hits: seq<Hit>, gate: Gate) {
    && decision.Some?
    && ValidConfidence(decision.value.confidence) >= Threshold(gate.threshold)
    && decision.value.grounded && !p.upstream && p.accepted && p.eligibleKind && p.workflow
    && SupportedParent(decision.value.term, hits) && !Ambiguous(hits, gate.minGap)
    && DetectionFits(decision.value.term, p)
  }

  function Confidence(decision: Option<Leaf>): real { if decision.Some? then ValidConfidence(decision.value.confidence) else 0.0 }

  /** What each reason says. */
  predicate GivesReason(r: Reason, decision: Option<Leaf>, p: Profile, hits: seq<Hit>, gate: Gate) {
    match r
    case NoValidLeaf => decision.None?
    case LowPrimaryConfidence => Confidence(decision) < Threshold(gate.threshold)
    case MissingGroundedEvidence => decision.None? || !decision.value.grounded
    case UpstreamMetadata => p.upstream
    case EntityNotEligible => !p.accepted || !p.eligibleKind
    case MissingWorkflowEvidence => !p.workflow
    case UnsupportedParent => decision.Some? && !SupportedParent(decision.value.term, hits)
    case UnresolvedAmbiguity => decision.Some? && Ambiguous(hits, gate.minGap)
    case DetectionNotEstablished => decision.Some? && decision.value.term.detection && !p.detects
    case DetectionDenied => decision.Some? && decision.value.term.detection && p.denies
    case DetectionEditing => decision.Some? && decision.value.term.detection && p.edits
  }

  /** The order in which the reasons are tested. */
  function TestOrder(r: Reason): nat {
    match r
    case NoValidLeaf => 0
    case LowPrimaryConfidence => 1
    case MissingGroundedEvidence => 2
    case UpstreamMetadata => 3
    case EntityNotEligible => 4
    case MissingWorkflowEvidence => 5
    case UnsupportedParent => 6
    case UnresolvedAmbiguity => 7
    case DetectionNotEstablished => 8
    case DetectionDenied => 9
    case DetectionEditing => 10
  }

  /** Exactly the reasons of these ranks that apply, each once and in order. */
  ghost predicate Collects(reasons: seq<Reason>, from: nat, to: nat, decision: Option<Leaf>, p: Profile, hits: seq<Hit>, gate: Gate) {
    && (forall r :: r in reasons <==> from <= TestOrder(r) < to && GivesReason(r, decision, p, hits, gate))
    && (forall i, j :: 0 <= i < j < |reasons| ==> TestOrder(reasons[i]) < TestOrder(reasons[j]))
  }

  lemma CollectsNext(reasons: seq<Reason>, from: nat, r: Reason, decision: Option<Leaf>, p: Profile, hits: seq<Hit>, gate: Gate)
    requires Collects(reasons, from, TestOrder(r), decision, p, hits, gate) && from <= TestOrder(r)
    ensures Collects(if GivesReason(r, decision, p, hits, gate) then reasons + [r] else reasons, from, TestOrder(r) + 1, decision, p, hits, gate)
  {
    hide GivesReason, TestOrder;
    var after := if GivesReason(r, decision, p, hits, gate) then reasons + [r] else reasons;
    assert forall q :: q in after <==> q in reasons || (q == r && GivesReason(r, decision, p, hits, gate));
    assert forall i :: 0 <= i < |reasons| ==> reasons[i] in reasons;
    OrderTells(r);
  }

  lemma OrderTells(r: Reason)
    ensures forall q :: TestOrder(q) == TestOrder(r) ==> q == r
  {
  }

  lemma CollectsJoin(a: seq<Reason>, b: seq<Reason>, from: nat, mid: nat, to: nat, decision: Option<Leaf>, p: Profile, hits: seq<Hit>, gate: Gate)
    requires Collects(a, from, mid, decision, p, hits, gate) && Collects(b, mid, to, decision, p, hits, gate) && from <= mid <= to
    ensures Collects(a + b, from, to, decision, p, hits, gate)
  {
    hide GivesReason, TestOrder;
    assert forall q :: q in a + b <==> q in a || q in b;
    assert forall i :: 0 <= i < |a| ==> a[i] in a;
    assert forall i :: 0 <= i < |b| ==> b[i] in b;
  }

  /** Nothing applies exactly if the whole gate is met. */
  lemma EligibleMeansNoReason(decision: Option<Leaf>, p: Profile, hits: seq<Hit>, gate: Gate)
    ensures Eligible(decision, p, hits, gate) <==> forall r :: !GivesReason(r, decision, p, hits, gate)
  {
    hide SupportedParent, Ambiguous, Threshold, ValidConfidence;
    if !Eligible(decision, p, hits, gate) {
      var r := if decision.None? then NoValidLeaf
               else if Confidence(decision) < Threshold(gate.threshold) then LowPrimaryConfidence
               else if !decision.value.grounded then MissingGroundedEvidence
               else if p.upstream then UpstreamMetadata
               else if !p.accepted || !p.eligibleKind then EntityNotEligible
               else if !p.workflow then MissingWorkflowEvidence
               else if !SupportedParent(decision.value.term, hits) then UnsupportedParent
               else if Ambiguous(hits, gate.minGap) then UnresolvedAmbiguity
               else if !p.detects then DetectionNotEstablished
               else if p.denies then DetectionDenied else DetectionEditing;
      assert GivesReason(r, decision, p, hits, gate);
    }
  }

  datatype Verdict = Verdict(status: Status, eligible: bool, reasons: seq<Reason>)

  /** The gate as the source runs it, collecting every reason. */
  method PrimaryAcceptance(decision: Option<Leaf>, p: Profile, hits: seq<Hit>, gate: Gate) returns (v: Verdict)
    ensures v.eligible <==> Eligible(decision, p, hits, gate)
    ensures v.eligible <==> v.reasons == []
    ensures v.eligible <==> v.status.AutoAccepted?
    ensures forall r :: r in v.reasons <==> GivesReason(r, decision, p, hits, gate)
    ensures forall i, j :: 0 <= i < j < |v.reasons| ==> TestOrder(v.reasons[i]) < TestOrder(v.reasons[j])
    ensures !v.eligible ==> v.status == if Confidence(decision) >= MIN_PROVISIONAL then Provisional else Unresolved
  {
    hide SupportedParent, Ambiguous, Eligible, Collects;
    var confidence := if decision.Some? then ValidConfidence(decision.value.confidence) else 0.0;
    var leafReasons := LeafReasons(decision, p, hits, gate);
    var reasons: seq<Reason> := [];
    CollectsNothing(0, decision, p, hits, gate);
    CollectsNext(reasons, 0, NoValidLeaf, decision, p, hits, gate);
    if decision.None? { reasons := reasons + [NoValidLeaf]; }
    CollectsNext(reasons, 0, LowPrimaryConfidence, decision, p, hits, gate);
    if confidence < Threshold(gate.threshold) { reasons := reasons + [LowPrimaryConfidence]; }
    CollectsNext(reasons, 0, MissingGroundedEvidence, decision, p, hits, gate);
    if decision.None? || !decision.value.grounded { reasons := reasons + [MissingGroundedEvidence]; }
    CollectsNext(reasons, 0, UpstreamMetadata, decision, p, hits, gate);
    if p.upstream { reasons := reasons + [UpstreamMetadata]; }
    CollectsNext(reasons, 0, EntityNotEligible, decision, p, hits, gate);
    if !p.accepted || !p.eligibleKind { reasons := reasons + [EntityNotEligible]; }
    CollectsNext(reasons, 0, MissingWorkflowEvidence, decision, p, hits, gate);
    if !p.workflow { reasons := reasons + [MissingWorkflowEvidence]; }
    CollectsJoin(reasons, leafReasons, 0, 6, 11, decision, p, hits, gate);
    reasons := reasons + leafReasons;
    CollectsAll(reasons, decision, p, hits, gate);
    var status := if reasons == [] then AutoAccepted else if confidence >= MIN_PROVISIONAL then Provisional else Unresolved;
    v := Verdict(status, reasons == [], reasons);
  }

  lemma CollectsNothing(from: nat, decision: Option<Leaf>, p: Profile, hits: seq<Hit>, gate: Gate)
    ensures Collects([], from, from, decision, p, hits, gate)
  {
  }

  lemma CollectsAll(reasons: seq<Reason>, decision: Option<Leaf>, p: Profile, hits: seq<Hit>, gate: Gate)
    requires Collects(reasons, 0, 11, decision, p, hits, gate)
    ensures forall r :: r in reasons <==> GivesReason(r, decision, p, hits, gate)
    ensures forall i, j :: 0 <= i < j < |reasons| ==> TestOrder(reasons[i]) < TestOrder(reasons[j])
    ensures reasons == [] <==> Eligible(decision, p, hits, gate)
  {
    hide GivesReason, Eligible;
    assert reasons != [] ==> reasons[0] in reasons;
    EligibleMeansNoReason(decision, p, hits, gate);
  }

  method LeafReasons(decision: Option<Leaf>, p: Profile, hits: seq<Hit>, gate: Gate) returns (reasons: seq<Reason>)
    ensures Collects(reasons, 6, 11, decision, p, hits, gate)
  {
    hide SupportedParent, Ambiguous;
    reasons := [];
    if decision.Some? {
      hide Collects;
      var detection := DetectionReasons(decision.value, p, hits, gate);
      CollectsNothing(6, decision, p, hits, gate);
      CollectsNext(reasons, 6, UnsupportedParent, decision, p, hits, gate);
      if !SupportedParent(decision.value.term, hits) { reasons := reasons + [UnsupportedParent]; }
      CollectsNext(reasons, 6, UnresolvedAmbiguity, decision, p, hits, gate);
      if Ambiguous(hits, gate.minGap) { reasons := reasons + [UnresolvedAmbiguity]; }
      CollectsJoin(reasons, detection, 6, 8, 11, decision, p, hits, gate);
      reasons := reasons + detection;
    }
  }

  method DetectionReasons(leaf: Leaf, p: Profile, hits: seq<Hit>, gate: Gate) returns (reasons: seq<Reason>)
    ensures Collects(reasons, 8, 11, Some(leaf), p, hits, gate)
  {
    hide Collects, SupportedParent, Ambiguous;
    reasons := [];
    if leaf.term.detection {
      CollectsNothing(8, Some(leaf), p, hits, gate);
      CollectsNext(reasons, 8, DetectionNotEstablished, Some(leaf), p, hits, gate);
      if !p.detects { reasons := reasons + [DetectionNotEstablished]; }
      CollectsNext(reasons, 8, DetectionDenied, Some(leaf), p, hits, gate);
      if p.denies { reasons := reasons + [DetectionDenied]; }
      CollectsNext(reasons, 8, DetectionEditing, Some(leaf), p, hits, gate);
      if p.edits { reasons := reasons + [DetectionEditing]; }
    } else {
      NoDetection(leaf, p, hits, gate);
    }
  }

  lemma NoDetection(leaf: Leaf, p: Profile, hits: seq<Hit>, gate: Gate)
    requires !leaf.term.detection
    ensures Collects([], 8, 11, Some(leaf), p, hits, gate)
  {
    hide SupportedParent, Ambiguous, Threshold, ValidConfidence;
  }

  /** An eligible decision is auto-accepted by the write state, under the same threshold. */
  lemma EligibleIsAutoAccepted(decision: Option<Leaf>, p: Profile, hits: seq<Hit>, gate: Gate)
    requires Eligible(decision, p, hits, gate)
    ensures DecidePrimaryStatus(decision.value.confidence, gate.threshold) == AutoAccepted
    ensures decision.value.confidence >= MIN_AUTO_PRIMARY
  {
  }

  /** Positions i and j hold the two largest confidences. */
  predicate TopTwo(hits: seq<Hit>, i: int, j: int) {
    && 0 <= i < |hits| && 0 <= j < |hits| && i != j
    && ValidConfidence(hits[i].confidence) == Largest(hits) && ValidConfidence(hits[j].confidence) == Runner(hits)
    && Runner(hits) <= Largest(hits)
    && forall k :: 0 <= k < |hits| && k != i ==> ValidConfidence(hits[k].confidence) <= Runner(hits)
  }

  lemma {:induction false} LargestIsHit(hits: seq<Hit>) returns (i: nat)
    requires hits != []
    ensures i < |hits| && ValidConfidence(hits[i].confidence) == Largest(hits)
    ensures forall k :: 0 <= k < |hits| ==> ValidConfidence(hits[k].confidence) <= Largest(hits)
  {
    if |hits| == 1 {
      i := 0;
    } else {
      var m := LargestIsHit(hits[1..]);
      assert forall k :: 0 < k < |hits| ==> hits[k] == hits[1..][k - 1];
      i := if ValidConfidence(hits[0].confidence) < Largest(hits[1..]) then m + 1 else 0;
    }
  }

  /** The gap the gate compares is that of the two best hits, as sorting them would show. */
  lemma {:induction false} GapIsOfTheTopTwo(hits: seq<Hit>) returns (i: int, j: int)
    requires |hits| > 1
    ensures TopTwo(hits, i, j)
  {
    var rest, c := hits[1..], ValidConfidence(hits[0].confidence);
    var m := LargestIsHit(rest);
    assert forall k :: 0 < k < |hits| ==> hits[k] == rest[k - 1];
    if c >= Largest(rest) {
      i, j := 0, m + 1;
    } else if |rest| > 1 {
      var a, b := GapIsOfTheTopTwo(rest);
      i, j := a + 1, if c >= Runner(rest) then 0 else b + 1;
    } else {
      i, j := 1, 0;
    }
  }

  // ---------- the gate in plain terms ----------

  /** Confidences outside [0, 1] count as none. */
  function Weight(hit: Hit): real { if hit.confidence < 0.0 || hit.confidence > 1.0 then 0.0 else hit.confidence }

  /** The parent market was recalled, and where it was first, with half a weight or more. */
  ghost predicate Supported(parent: TermId, hits: seq<Hit>) {
    exists i :: 0 <= i < |hits| && hits[i].term == parent && (forall k :: 0 <= k < i ==> hits[k].term != parent) && Weight(hits[i]) >= 0.5
  }

  lemma {:induction false} SupportTells(term: Term, hits: seq<Hit>)
    ensures SupportedParent(term, hits) <==> Supported(if term.parent.Some? then term.parent.value else term.id, hits)
  {
    if hits != [] && hits[0].term != ParentOf(term) {
      var parent, rest := ParentOf(term), hits[1..];
      SupportTells(term, rest);
      hide ValidConfidence;
      if Supported(parent, rest) {
        var i :| 0 <= i < |rest| && rest[i].term == parent && (forall k :: 0 <= k < i ==> rest[k].term != parent) && Weight(rest[i]) >= 0.5;
        assert forall k :: 0 < k < |hits| ==> hits[k] == rest[k - 1];
        assert hits[i + 1].term == parent;
      }
      if Supported(parent, hits) {
        var i :| 0 <= i < |hits| && hits[i].term == parent && (forall k :: 0 <= k < i ==> hits[k].term != parent) && Weight(hits[i]) >= 0.5;
        assert rest[i - 1] == hits[i];
        assert forall k :: 0 <= k < i - 1 ==> rest[k] == hits[k + 1];
      }
    } else if hits != [] {
      assert hits[0].term == ParentOf(term);
    }
  }

  /** One hit is ahead of every other by the gap, which is at least zero. */
  ghost predicate StandsOut(hits: seq<Hit>, minGap: real) {
    exists i :: 0 <= i < |hits| && forall k :: 0 <= k < |hits| && k != i ==>
      Weight(hits[i]) - Weight(hits[k]) >= minGap && Weight(hits[i]) >= Weight(hits[k])
  }

  lemma AmbiguityTells(hits: seq<Hit>, minGap: real)
    ensures Ambiguous(hits, minGap) <==> hits != [] && !StandsOut(hits, minGap)
  {
    if |hits| > 1 {
      var i, j := GapIsOfTheTopTwo(hits);
      hide Largest, Runner;
      assert forall k :: 0 <= k < |hits| ==> Weight(hits[k]) == ValidConfidence(hits[k].confidence);
      if StandsOut(hits, minGap) {
        var m :| 0 <= m < |hits| && forall k :: 0 <= k < |hits| && k != m ==>
          Weight(hits[m]) - Weight(hits[k]) >= minGap && Weight(hits[m]) >= Weight(hits[k]);
        assert m != i ==> Weight(hits[m]) - Weight(hits[i]) >= minGap;
        assert m == i ==> Weight(hits[m]) - Weight(hits[j]) >= minGap;
      }
    } else if |hits| == 1 {
      assert StandsOut(hits, minGap) by { assert Weight(hits[0]) == Weight(hits[0]); }
    }
  }

  /** A primary needs no human exactly if all of this holds. */
  lemma GateTells(leaf: Leaf, p: Profile, hits: seq<Hit>, gate: Gate)
    ensures !Eligible(None, p, hits, gate)
    ensures Eligible(Some(leaf), p, hits, gate) <==>
      && 0.5 <= leaf.confidence <= 1.0 && !(leaf.confidence < gate.threshold <= 1.0)
      && leaf.grounded && !p.upstream && p.accepted && p.eligibleKind && p.workflow
      && Supported(if leaf.term.parent.Some? then leaf.term.parent.value else leaf.term.id, hits) && StandsOut(hits, gate.minGap)
      && !(leaf.term.detection && (!p.detects || p.denies || p.edits))
  {
    SupportTells(leaf.term, hits);
    AmbiguityTells(hits, gate.minGap);
    hide Ambiguous, StandsOut, SupportedParent;
    if hits == [] { assert !Supported(if leaf.term.parent.Some? then leaf.term.parent.value else leaf.term.id, hits); }
  }
}
