/** Lease tokens fence out stale workers: what holds, and the one instant at which it does not. */
module LedgerFencing {
  import opened Prelude
  import opened Ledger
  import opened LedgerSafety

  // ---------- completions that carry an out-of-date token ----------

  lemma {:induction false} Bound(xs: set<nat>) returns (b: nat)
    ensures forall x :: x in xs ==> x < b
  {
    if xs == {} {
      b := 0;
    } else {
      var x :| x in xs;
      var rest := Bound(xs - {x});
      b := Max(rest, x + 1);
      assert forall y :: y in xs ==> y == x || y in xs - {x};
    }
  }

  lemma FreshAttempt(s: State, id: JobId) returns (attempt: nat)
    ensures ScanId(id, attempt) !in s.scans
  {
    var used := set c | c in s.scans :: c.attempt;
    attempt := Bound(used);
    assert ScanId(id, attempt) in s.scans ==> ScanId(id, attempt).attempt in used;
  }

  /** Whatever a worker without the lease reports, nothing changes. */
  ghost predicate Fenced(s: State, id: JobId, token: Token, outcome: Outcome, at: int) {
    forall attempt: nat, scan: Option<Scan> :: Finish(s, id, token, attempt, outcome, scan, at) == s
  }

  /**
   A completion with an out-of-date token is without effect exactly when the row does not
   already carry the same outcome at the same instant.
   */
  lemma FencingNeedsDistinctInstants(s: State, id: JobId, token: Token, outcome: Outcome, at: int)
    requires !Holds(s, id, token)
    ensures Fenced(s, id, token, outcome, at) <==> !FinishedAs(s, id, outcome, at)
  {
    if FinishedAs(s, id, outcome, at) {
      var attempt := FreshAttempt(s, id);
      var scan := Some(Scan(None, Comparable, false, at));
      assert ScanId(id, attempt) in Finish(s, id, token, attempt, outcome, scan, at).scans;
      assert Finish(s, id, token, attempt, outcome, scan, at) != s;
    } else {
      forall attempt: nat, scan: Option<Scan>
        ensures Finish(s, id, token, attempt, outcome, scan, at) == s
      {
        StaleCompletionIsIdle(s, id, token, attempt, outcome, scan, at);
      }
    }
  }

  ghost predicate AdaptersAgree(s: State, id: JobId, token: Token, outcome: Outcome, at: int) {
    forall attempt: nat, scan: Option<Scan> ::
      Finish(s, id, token, attempt, outcome, scan, at) == FinishLocally(s, id, token, attempt, outcome, scan, at)
  }

  /**
   The D1 adapter and the SQLite adapter keep the same contract exactly outside that
   coincidence; with the lease in hand they always agree.
   */
  lemma AdaptersAgreeOffTheInstant(s: State, id: JobId, token: Token, outcome: Outcome, at: int)
    ensures AdaptersAgree(s, id, token, outcome, at) <==> !FinishedAs(s, id, outcome, at)
  {
    if Holds(s, id, token) {
      FinishedIsFinal(s.jobs[id], outcome, at);
      assert FinishedAs(LandCompletion(s, id, token, outcome, at), id, outcome, at);
    } else {
      FencingNeedsDistinctInstants(s, id, token, outcome, at);
      assert forall attempt: nat, scan: Option<Scan> :: FinishLocally(s, id, token, attempt, outcome, scan, at) == s;
    }
  }

  /** A renewal by anyone but the holder of the lease changes nothing. */
  lemma StaleRenewalIsIdle(s: State, id: JobId, token: Token, owner: string, duration: int, now: int)
    ensures RenewLease(s, id, token, owner, duration, now) != s ==>
              Holds(s, id, token) && s.jobs[id].lease.value.owner == owner
    ensures Holds(s, id, token) && s.jobs[id].lease.value.owner == owner ==>
              RenewLease(s, id, token, owner, duration, now).jobs
                == s.jobs[id := s.jobs[id].(lease := Some(Holder(owner, token, now + duration)), updatedAt := now)]
  {
  }

  /** A worker of a superseded schedule may finish its job; the site does not move. */
  lemma SupersededCompletionKeepsSites(s: State, id: JobId, token: Token, attempt: nat, outcome: Outcome,
                                       scan: Option<Scan>, at: int)
    requires Inv(s) && Holds(s, id, token) && s.sites[id.site].version != id.version
    ensures var t := Finish(s, id, token, attempt, outcome, scan, at);
      t.sites == s.sites && id in t.jobs && t.jobs[id].status == FinalStatus(outcome) && t.jobs[id].lease.None?
  {
    CompletionLands(s, id, token, attempt, outcome, scan, at);
    FinishedIsFinal(s.jobs[id], outcome, at);
  }

  /** The winner's own completion, sent again because its answer was lost, changes nothing more. */
  lemma ResentCompletionIsIdle(s: State, id: JobId, token: Token, attempt: nat, outcome: Outcome, scan: Option<Scan>, at: int)
    requires Holds(s, id, token)
    ensures var t := Finish(s, id, token, attempt, outcome, scan, at); Finish(t, id, token, attempt, outcome, scan, at) == t
  {
    FinishedIsFinal(s.jobs[id], outcome, at);
    var t := Finish(s, id, token, attempt, outcome, scan, at);
    FinishHolds(s, id, token, attempt, outcome, scan, at);
    if id.site in s.sites && s.sites[id.site].version == id.version {
      AdvancedTwice(s.sites[id.site], id, t.jobs[id], attempt, outcome, scan, at);
    }
    hide Finished, Advanced, Released;
  }

  lemma FinishHolds(s: State, id: JobId, token: Token, attempt: nat, outcome: Outcome, scan: Option<Scan>, at: int)
    requires Holds(s, id, token)
    ensures var t := Finish(s, id, token, attempt, outcome, scan, at);
      && t.jobs == s.jobs[id := Finished(s.jobs[id], outcome, at)]
      && t.scans == (if scan.Some? && ScanId(id, attempt) !in s.scans then s.scans[ScanId(id, attempt) := scan.value] else s.scans)
      && t.sites == (if id.site in s.sites && s.sites[id.site].version == id.version
                     then s.sites[id.site := Advanced(s.sites[id.site], id, t.jobs[id], attempt, outcome, scan, at)] else s.sites)
  {
    FinishedIsFinal(s.jobs[id], outcome, at);
    hide Finished, Advanced, Released;
  }

  lemma AdvancedTwice(site: Site, id: JobId, row: Job, attempt: nat, outcome: Outcome, scan: Option<Scan>, at: int)
    ensures var once := Advanced(site, id, row, attempt, outcome, scan, at);
      once.version == site.version && Advanced(once, id, row, attempt, outcome, scan, at) == once
  {
  }
}
