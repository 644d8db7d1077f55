/**
  What the execution protocol guarantees in every reachable state and over every run.
 */
module ProtocolTheorems {
  import opened Wrappers
  import opened Policy
  import opened Protocol
  import opened ProtocolInvariant

  function Reach(prices: map<Slot, real>, schedule: seq<Label>): State { Run(Start(prices), schedule) }

  lemma Reachable(prices: map<Slot, real>, schedule: seq<Label>)
    ensures Inv(Reach(prices, schedule))
  {
    StartKeeps(prices);
    RunKeeps(Start(prices), schedule);
  }

  /** The idempotency key on whose behalf a decision was proposed. */
  function KeyOf(s: State, d: DecisionId): Key
    requires d in s.decisions && s.decisions[d].proposer in s.workers
  {
    s.workers[s.decisions[d].proposer].key
  }

  ghost predicate Traceable(s: State) {
    && (forall d | d in s.decisions :: s.decisions[d].proposer in s.workers)
    && (forall i | 0 <= i < |s.events| :: s.events[i].decision in s.decisions)
  }

  lemma InvTraceable(s: State)
    requires Inv(s)
    ensures Traceable(s)
  {
    forall d | d in s.decisions ensures s.decisions[d].proposer in s.workers {
      assert DecisionOk(s, s.decisions[d], d);
    }
    forall i | 0 <= i < |s.events| ensures s.events[i].decision in s.decisions {
      assert EventOk(s, s.events[i]);
    }
  }

  lemma OneDecision(s: State, d: DecisionId, e: DecisionId)
    requires Inv(s) && Traceable(s)
    requires d in s.decisions && e in s.decisions && KeyOf(s, d) == KeyOf(s, e)
    ensures d == e
  {
    var v, w := s.decisions[d].proposer, s.decisions[e].proposer;
    assert DecisionOk(s, s.decisions[d], d) && DecisionOk(s, s.decisions[e], e);
    assert WorkerOk(s, v, s.workers[v]) && WorkerOk(s, w, s.workers[w]);
  }

  lemma OneEvent(s: State, i: int, j: int)
    requires Inv(s) && 0 <= i < |s.events| && 0 <= j < |s.events|
    requires s.events[i].decision == s.events[j].decision
    ensures i == j
  {
    assert EventOk(s, s.events[i]) && EventOk(s, s.events[j]);
  }

  /**
    Over every interleaving of workers, crashes, stale claims, redeliveries and human
    approvals, a tenant's idempotency key has at most one owner, at most one decision and at
    most one event, counting the autonomous and the approved path together.
   */
  lemma AtMostOncePerKey(prices: map<Slot, real>, schedule: seq<Label>)
    ensures var s := Reach(prices, schedule);
      && Traceable(s)
      && (forall v, w | v in s.workers && w in s.workers && s.workers[v].owned && s.workers[w].owned ::
            s.workers[v].key == s.workers[w].key ==> v == w)
      && (forall d, e | d in s.decisions && e in s.decisions :: KeyOf(s, d) == KeyOf(s, e) ==> d == e)
      && (forall i, j | 0 <= i < |s.events| && 0 <= j < |s.events| ::
            KeyOf(s, s.events[i].decision) == KeyOf(s, s.events[j].decision) ==> i == j)
  {
    Reachable(prices, schedule);
    var s := Reach(prices, schedule);
    InvTraceable(s);
    forall v, w | v in s.workers && w in s.workers && s.workers[v].owned && s.workers[w].owned
                  && s.workers[v].key == s.workers[w].key
      ensures v == w
    {
      assert WorkerOk(s, v, s.workers[v]) && WorkerOk(s, w, s.workers[w]);
    }
    forall d, e | d in s.decisions && e in s.decisions && KeyOf(s, d) == KeyOf(s, e) ensures d == e {
      OneDecision(s, d, e);
    }
    forall i, j | 0 <= i < |s.events| && 0 <= j < |s.events|
                  && KeyOf(s, s.events[i].decision) == KeyOf(s, s.events[j].decision)
      ensures i == j
    {
      OneDecision(s, s.events[i].decision, s.events[j].decision);
      OneEvent(s, i, j);
    }
  }

  /** A request whose fingerprint differs from the key's never owns it and never sees its result. */
  lemma ForeignFingerprintGetsNothing(prices: map<Slot, real>, schedule: seq<Label>, w: WorkerId)
    ensures var s := Reach(prices, schedule);
      w in s.workers && s.workers[w].key in s.keys
      && s.keys[s.workers[w].key].fingerprint != s.workers[w].fingerprint ==>
        !s.workers[w].owned && !s.workers[w].outcome.Replayed?
  {
    Reachable(prices, schedule);
    var s := Reach(prices, schedule);
    if w in s.workers { assert WorkerOk(s, w, s.workers[w]); }
  }

  function EventsFor(events: seq<AgentEvent>, d: DecisionId): nat {
    if events == [] then 0
    else EventsFor(events[..|events| - 1], d) + if events[|events| - 1].decision == d then 1 else 0
  }

  lemma {:induction false} NoEvents(events: seq<AgentEvent>, d: DecisionId)
    requires forall i | 0 <= i < |events| :: events[i].decision != d
    ensures EventsFor(events, d) == 0
  {
    if events != [] { NoEvents(events[..|events| - 1], d); }
  }

  lemma {:induction false} ExactlyOneEvent(events: seq<AgentEvent>, d: DecisionId, i: int)
    requires 0 <= i < |events| && events[i].decision == d
    requires forall j | 0 <= j < |events| && events[j].decision == d :: j == i
    ensures EventsFor(events, d) == 1
  {
    var rest := events[..|events| - 1];
    if i == |events| - 1 {
      NoEvents(rest, d);
    } else {
      ExactlyOneEvent(rest, d, i);
    }
  }

  /** What put a decision through: the classifier under the lock, or a reviewer. */
  ghost predicate Authorised(s: State, d: DecisionId)
    requires d in s.decisions
  {
    || (&& s.decisions[d].executor.Some? && s.decisions[d].executor.value in s.workers
        && LowRisk(s.workers[s.decisions[d].executor.value], s.decisions[d]))
    || (exists r :: r in s.approvals && s.approvals[r].decision == d && s.approvals[r].status.Approved?)
  }

  lemma TakenIsAuthorised(s: State, d: DecisionId)
    requires Inv(s) && d in s.decisions && s.decisions[d].executor.Some?
    ensures s.decisions[d].cleared && Authorised(s, d)
  {
    var row := s.decisions[d];
    var x := row.executor.value;
    assert DecisionOk(s, row, d);
    assert WorkerOk(s, x, s.workers[x]);
    if s.workers[x].kind.Approver? {
      var r := s.workers[x].kind.approval;
      assert r in s.approvals && s.approvals[r].decision == d && s.approvals[r].status.Approved?;
    }
  }

  lemma AppendedHasOneEvent(s: State, w: WorkerId)
    requires Inv(s) && w in s.workers && s.workers[w].appended
    ensures s.workers[w].decision.Some?
    ensures EventsFor(s.events, s.workers[w].decision.value) == 1
  {
    assert WorkerOk(s, w, s.workers[w]);
    var i :| 0 <= i < |s.events| && s.events[i].worker == w;
    assert EventOk(s, s.events[i]);
    forall j | 0 <= j < |s.events| && s.events[j].decision == s.events[i].decision ensures j == i {
      OneEvent(s, i, j);
    }
    ExactlyOneEvent(s.events, s.events[i].decision, i);
  }

  /**
    The audit log tells the truth: a row with executed=True has exactly one event behind it;
    an event means its decision is EVALUATED; an executed or evaluated decision cleared the
    confidence gate and was either low risk under the lock or approved.
   */
  lemma ExecutionIsAccountedFor(prices: map<Slot, real>, schedule: seq<Label>)
    ensures var s := Reach(prices, schedule);
      && (forall i | 0 <= i < |s.log| && s.log[i].executed ::
            s.log[i].decision.Some? && EventsFor(s.events, s.log[i].decision.value) == 1)
      && (forall i | 0 <= i < |s.events| ::
            s.events[i].decision in s.decisions && s.decisions[s.events[i].decision].status.Evaluated?)
      && (forall d | d in s.decisions && (s.decisions[d].status.Executed? || s.decisions[d].status.Evaluated?) ::
            s.decisions[d].cleared && Authorised(s, d))
  {
    Reachable(prices, schedule);
    var s := Reach(prices, schedule);
    forall i | 0 <= i < |s.log| && s.log[i].executed
      ensures s.log[i].decision.Some? && EventsFor(s.events, s.log[i].decision.value) == 1
    {
      assert LogOk(s, s.log[i]);
      AppendedHasOneEvent(s, s.log[i].worker);
    }
    forall i | 0 <= i < |s.events|
      ensures s.events[i].decision in s.decisions && s.decisions[s.events[i].decision].status.Evaluated?
    {
      assert EventOk(s, s.events[i]);
    }
    forall d | d in s.decisions && (s.decisions[d].status.Executed? || s.decisions[d].status.Evaluated?)
      ensures s.decisions[d].cleared && Authorised(s, d)
    {
      assert DecisionOk(s, s.decisions[d], d);
      TakenIsAuthorised(s, d);
    }
  }

  /** A key whose stored result says "executed" has exactly one event behind it. */
  lemma StoredResultIsTrue(prices: map<Slot, real>, schedule: seq<Label>, key: Key)
    ensures var s := Reach(prices, schedule);
      key in s.keys && s.keys[key].result.DidExecute? ==>
        exists d :: d in s.decisions && s.decisions[d].proposer == s.keys[key].owner
                    && EventsFor(s.events, d) == 1
  {
    Reachable(prices, schedule);
    var s := Reach(prices, schedule);
    if key in s.keys && s.keys[key].result.DidExecute? {
      var w := s.keys[key].owner;
      assert KeyOk(s, key, s.keys[key]);
      AppendedHasOneEvent(s, w);
      assert WorkerOk(s, w, s.workers[w]);
    }
  }

  /**
    One request per decision, and nothing happens to a decision that was sent to a reviewer
    unless and until that reviewer approves.
   */
  lemma NoEventWithoutApproval(prices: map<Slot, real>, schedule: seq<Label>)
    ensures var s := Reach(prices, schedule);
      && OneRequestEach(s.approvals)
      && (forall r | r in s.approvals && !s.approvals[r].status.Approved? ::
            EventsFor(s.events, s.approvals[r].decision) == 0)
  {
    Reachable(prices, schedule);
    var s := Reach(prices, schedule);
    forall r | r in s.approvals && !s.approvals[r].status.Approved?
      ensures EventsFor(s.events, s.approvals[r].decision) == 0
    {
      forall i | 0 <= i < |s.events| ensures s.events[i].decision != s.approvals[r].decision {
        var e := s.events[i];
        assert EventOk(s, e) && ApprovalOk(s, s.approvals[r]);
        assert WorkerOk(s, e.worker, s.workers[e.worker]);
      }
      NoEvents(s.events, s.approvals[r].decision);
    }
  }
}
