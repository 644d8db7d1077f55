/**
  The execution protocol with its database locks: a transaction opens, takes the row locks its
  statements need one after another, waits where another transaction has a conflicting one, and
  commits or rolls back. Every run of this machine is a schedule of `Protocol`, and in every
  state it reaches a worker waits only for a lock ranked above all it holds.
 */
module ProtocolLocks {
  import opened Wrappers
  import opened Policy
  import opened Protocol
  import opened ProtocolInvariant
  import opened ProtocolHistory
  import opened ProtocolProgress

  /** What can be locked: advisory locks, rows, and the unique index entries that inserts wait on. */
  datatype Lockable =
    | CycleLock(tenant: int)
    | Advisory(resource: Resource)
    | KeyEntry(key: Key)
    | RequestEntry(key: Key)
    | RequestOf(request: RowId)
    | DecisionEntry(id: DecisionId)
    | ApprovalEntry(id: DecisionId)
    | ApprovalOf(approval: RowId)
    | TenantOf(tenant: int)
    | DecisionOf(id: DecisionId)
    | ProjectionOf(tenant: int)

  /** PostgreSQL's row lock modes, as far as these statements use them. */
  datatype Mode = KeyShare | NoKeyUpdate | ForUpdate

  predicate Conflicts(a: Mode, b: Mode) { a.ForUpdate? || b.ForUpdate? || (a.NoKeyUpdate? && b.NoKeyUpdate?) }

  datatype Need = Need(lock: Lockable, mode: Mode)

  /** An open transaction: what it will do at its commit, its locks in order, and how many it has. */
  datatype Transaction = Transaction(move: Label, needs: seq<Need>, got: nat)

  datatype LockState = LockState(s: State, open: map<WorkerId, Transaction>, cycles: map<int, WorkerId>)

  /**
    The order of the two foreign keys that the log and the approvals have on the tenant and the
    decision is the database's choice, the same for both tables.
   */
  function Rank(tenantFirst: bool, l: Lockable): nat {
    match l
    case CycleLock(_) => 0
    case Advisory(_) => 1
    case TenantOf(_) => if tenantFirst then 3 else 4
    case DecisionOf(_) => if tenantFirst then 4 else 3
    case ProjectionOf(_) => 5
    case _ => 2
  }

  function Shares(tenantFirst: bool, tenant: int, d: Option<DecisionId>): seq<Need> {
    var onTenant := Need(TenantOf(tenant), KeyShare);
    match d
    case None => [onTenant]
    case Some(id) =>
      var onDecision := Need(DecisionOf(id), KeyShare);
      if tenantFirst then [onTenant, onDecision] else [onDecision, onTenant]
  }

  /** The locks of the statements of a transaction, in the order they are executed. */
  function Needs(tenantFirst: bool, s: State, move: Label): seq<Need> {
    if move.Resolve? then [Need(ApprovalOf(move.approval), NoKeyUpdate)]
    else if move.w !in s.workers then []
    else
      var k := s.workers[move.w];
      var onTenant := Need(TenantOf(k.key.tenant), KeyShare);
      match move
      case InsertRequest(_) => if k.phase.Submitting? then [Need(RequestEntry(k.key), ForUpdate), onTenant] else []
      case MarkProcessing(_, _) =>
        if k.phase.Fetched? && k.kind.Handler? then [Need(RequestOf(k.kind.request), NoKeyUpdate)] else []
      case Report(_, transient) =>
        if k.phase.Reporting? && k.kind.Handler? && !(k.outcome.Raised? && transient)
        then [Need(RequestOf(k.kind.request), NoKeyUpdate)] else []
      case Claim(_, _) => if k.phase.Claiming? then [Need(KeyEntry(k.key), ForUpdate), onTenant] else []
      case ResolveConflict(_) =>
        if k.phase.Conflicted? && k.phase.stale then [Need(KeyEntry(k.key), NoKeyUpdate)] else []
      case Settle(_) => if k.phase.Settling? then [Need(KeyEntry(k.key), NoKeyUpdate)] else []
      case Propose(_, d, _) => if k.phase.Proposing? then [Need(DecisionEntry(d), ForUpdate), onTenant] else []
      case RequestReview(_, _) =>
        if k.phase.Requesting? && k.decision.Some?
        then [Need(ApprovalEntry(k.decision.value), ForUpdate)] + Shares(tenantFirst, k.key.tenant, k.decision) else []
      case Take(_) =>
        if k.phase.Taking? && k.decision.Some? then [Need(DecisionOf(k.decision.value), ForUpdate)] else []
      case Evaluate(_) =>
        if k.phase.Evaluating? && k.decision.Some? then [Need(DecisionOf(k.decision.value), NoKeyUpdate)] else []
      case Append(_) =>
        if k.phase.Appending? then [Need(TenantOf(k.key.tenant), ForUpdate),
                                    Need(ProjectionOf(k.key.tenant), NoKeyUpdate)]
        else []
      case Record(_) => if k.phase.Recording? then Shares(tenantFirst, k.key.tenant, k.phase.row.decision) else []
      case _ => []
  }

  // ---------------------------------------------------------------- holding and waiting

  predicate HasGranted(t: Transaction, i: nat, l: Lockable) { i < t.got && i < |t.needs| && t.needs[i].lock == l }

  /** The worker holds the lock: in an open transaction, or as an advisory lock. */
  ghost predicate HoldsLock(ls: LockState, w: WorkerId, l: Lockable) {
    || (w in ls.open && exists i: nat :: HasGranted(ls.open[w], i, l))
    || (l.Advisory? && l.resource in ls.s.locks && ls.s.locks[l.resource] == w)
    || (l.CycleLock? && l.tenant in ls.cycles && ls.cycles[l.tenant] == w)
  }

  /** A granted lock that the need conflicts with. */
  ghost predicate GrantedAgainst(t: Transaction, need: Need) {
    exists i: nat :: HasGranted(t, i, need.lock) && Conflicts(t.needs[i].mode, need.mode)
  }

  /** Who keeps a worker from its next lock. */
  ghost predicate BlockedBy(ls: LockState, w: WorkerId, x: WorkerId) {
    && w != x && w in ls.open && x in ls.open && ls.open[w].got < |ls.open[w].needs|
    && GrantedAgainst(ls.open[x], ls.open[w].needs[ls.open[w].got])
  }

  /** Inside `pg_advisory_xact_lock`. */
  predicate AtAdvisoryLock(ls: LockState, w: WorkerId) {
    && w in ls.s.workers && ls.s.workers[w].phase.Locking? && (w in ls.open ==> ls.open[w].move.Acquire?)
  }

  /** The lock a worker is at; it waits there as long as somebody else has it. */
  function Awaited(ls: LockState, w: WorkerId): Option<Lockable> {
    if w in ls.open && ls.open[w].got < |ls.open[w].needs| then Some(ls.open[w].needs[ls.open[w].got].lock)
    else if AtAdvisoryLock(ls, w) then Some(Advisory(Lock(ls.s.workers[w])))
    else None
  }

  ghost predicate WaitsFor(ls: LockState, w: WorkerId, x: WorkerId) {
    || BlockedBy(ls, w, x)
    || (AtAdvisoryLock(ls, w) && Lock(ls.s.workers[w]) in ls.s.locks && ls.s.locks[Lock(ls.s.workers[w])] == x)
  }

  // ---------------------------------------------------------------- the machine

  datatype Move =
    | EnterCycle(w: WorkerId, tenant: int)
    | LeaveCycle(w: WorkerId, tenant: int)
    | Begin(w: WorkerId, move: Label)
    | Grab(w: WorkerId)
    | Commit(w: WorkerId)
    | Rollback(w: WorkerId)

  predicate CanBegin(ls: LockState, w: WorkerId, move: Label) {
    w !in ls.open && if move.Resolve? then w !in ls.s.workers else move.w == w
  }

  ghost predicate CanGrab(ls: LockState, w: WorkerId) {
    w in ls.open && ls.open[w].got < |ls.open[w].needs| && forall x :: !BlockedBy(ls, w, x)
  }

  /** Every lock is there: the transaction takes effect as a whole. */
  predicate CanCommit(ls: LockState, w: WorkerId) { w in ls.open && ls.open[w].got == |ls.open[w].needs| }

  ghost function Next(tenantFirst: bool, ls: LockState, move: Move): LockState {
    match move
    case EnterCycle(w, tenant) =>
      if tenant in ls.cycles then ls else ls.(cycles := ls.cycles[tenant := w])
    case LeaveCycle(w, tenant) =>
      if tenant in ls.cycles && ls.cycles[tenant] == w then ls.(cycles := ls.cycles - {tenant}) else ls
    case Begin(w, l) =>
      if CanBegin(ls, w, l) then ls.(open := ls.open[w := Transaction(l, Needs(tenantFirst, ls.s, l), 0)]) else ls
    case Grab(w) =>
      if CanGrab(ls, w) then ls.(open := ls.open[w := ls.open[w].(got := ls.open[w].got + 1)]) else ls
    case Commit(w) =>
      if CanCommit(ls, w) then ls.(s := Step(ls.s, ls.open[w].move), open := ls.open - {w}) else ls
    case Rollback(w) => ls.(open := ls.open - {w})
  }

  ghost function LockRun(tenantFirst: bool, prices: map<Slot, real>, moves: seq<Move>): LockState
    decreases |moves|
  {
    if moves == [] then LockState(Start(prices), map[], map[])
    else Next(tenantFirst, LockRun(tenantFirst, prices, moves[..|moves| - 1]), moves[|moves| - 1])
  }

  /** The transactions that took effect, in the order of their commits. */
  ghost function Committed(tenantFirst: bool, prices: map<Slot, real>, moves: seq<Move>): seq<Label>
    decreases |moves|
  {
    if moves == [] then []
    else
      var before, last := moves[..|moves| - 1], moves[|moves| - 1];
      var ls := LockRun(tenantFirst, prices, before);
      Committed(tenantFirst, prices, before)
      + if last.Commit? && CanCommit(ls, last.w) then [ls.open[last.w].move] else []
  }

  /**
    However transactions overlap, the tables are those of a schedule that runs the committed
    ones one at a time: the machine of `Protocol` loses no behaviour.
   */
  lemma {:induction false} LockRunIsASchedule(tenantFirst: bool, prices: map<Slot, real>, moves: seq<Move>)
    ensures LockRun(tenantFirst, prices, moves).s == Run(Start(prices), Committed(tenantFirst, prices, moves))
    decreases |moves|
  {
    hide Step, CanGrab, Needs;
    if moves != [] {
      var before, last := moves[..|moves| - 1], moves[|moves| - 1];
      LockRunIsASchedule(tenantFirst, prices, before);
      var ls := LockRun(tenantFirst, prices, before);
      if last.Commit? && CanCommit(ls, last.w) {
        RunConcat(Start(prices), Committed(tenantFirst, prices, before), [ls.open[last.w].move]);
        RunOne(ls.s, ls.open[last.w].move);
      } else {
        var earlier := Committed(tenantFirst, prices, before);
        assert earlier + [] == earlier;
      }
    }
  }

  // ---------------------------------------------------------------- the invariant

  ghost predicate OpenOk(tenantFirst: bool, ls: LockState, w: WorkerId, t: Transaction) {
    && t.needs == Needs(tenantFirst, ls.s, t.move) && t.got <= |t.needs|
    && if t.move.Resolve? then w !in ls.s.workers else t.move.w == w
  }

  ghost predicate Compatible(t: Transaction, u: Transaction) {
    forall i: nat, j: nat, l | HasGranted(t, i, l) && HasGranted(u, j, l) ::
      !Conflicts(t.needs[i].mode, u.needs[j].mode)
  }

  ghost predicate LockInv(tenantFirst: bool, ls: LockState) {
    && Inv(ls.s)
    && (forall w | w in ls.open :: OpenOk(tenantFirst, ls, w, ls.open[w]))
    && (forall w, x | w in ls.open && x in ls.open && w != x :: Compatible(ls.open[w], ls.open[x]))
  }

  lemma CommitKeeps(tenantFirst: bool, ls: LockState, w: WorkerId)
    requires LockInv(tenantFirst, ls) && CanCommit(ls, w)
    ensures LockInv(tenantFirst, Next(tenantFirst, ls, Commit(w)))
  {
    hide Inv, Step, Compatible;
    var ls', move := Next(tenantFirst, ls, Commit(w)), ls.open[w].move;
    StepKeeps(ls.s, move);
    forall x | x in ls'.open ensures OpenOk(tenantFirst, ls', x, ls'.open[x]) {
      assert OpenOk(tenantFirst, ls, x, ls.open[x]) && OpenOk(tenantFirst, ls, w, ls.open[w]);
      OthersKept(ls.s, move, x);
    }
  }

  lemma GrabKeeps(tenantFirst: bool, ls: LockState, w: WorkerId)
    requires LockInv(tenantFirst, ls) && CanGrab(ls, w)
    ensures LockInv(tenantFirst, Next(tenantFirst, ls, Grab(w)))
  {
    hide Inv, Step, Needs;
    var ls' := Next(tenantFirst, ls, Grab(w));
    forall x | x in ls'.open ensures OpenOk(tenantFirst, ls', x, ls'.open[x]) {
      assert OpenOk(tenantFirst, ls, x, ls.open[x]);
    }
    forall x | x in ls.open && x != w
      ensures Compatible(ls'.open[w], ls.open[x]) && Compatible(ls.open[x], ls'.open[w])
    {
      GrabIsCompatible(ls, w, x);
    }
  }

  lemma GrabIsCompatible(ls: LockState, w: WorkerId, x: WorkerId)
    requires w in ls.open && x in ls.open && w != x && ls.open[w].got < |ls.open[w].needs|
    requires Compatible(ls.open[w], ls.open[x]) && !BlockedBy(ls, w, x)
    ensures var t := ls.open[w].(got := ls.open[w].got + 1);
            Compatible(t, ls.open[x]) && Compatible(ls.open[x], t)
  {
    var t, u := ls.open[w].(got := ls.open[w].got + 1), ls.open[x];
    forall i: nat, j: nat, l | HasGranted(t, i, l) && HasGranted(u, j, l)
      ensures !Conflicts(t.needs[i].mode, u.needs[j].mode)
    {
      if i < ls.open[w].got { assert HasGranted(ls.open[w], i, l); }
    }
  }

  lemma BeginKeeps(tenantFirst: bool, ls: LockState, w: WorkerId, move: Label)
    requires LockInv(tenantFirst, ls) && CanBegin(ls, w, move)
    ensures LockInv(tenantFirst, Next(tenantFirst, ls, Begin(w, move)))
  {
    hide Inv, Step, Needs;
    var ls' := Next(tenantFirst, ls, Begin(w, move));
    forall x | x in ls'.open ensures OpenOk(tenantFirst, ls', x, ls'.open[x]) {
      if x != w { assert OpenOk(tenantFirst, ls, x, ls.open[x]); }
    }
  }

  lemma NextKeeps(tenantFirst: bool, ls: LockState, move: Move)
    requires LockInv(tenantFirst, ls)
    ensures LockInv(tenantFirst, Next(tenantFirst, ls, move))
  {
    match move
    case Begin(w, l) => if CanBegin(ls, w, l) { BeginKeeps(tenantFirst, ls, w, l); }
    case Grab(w) => if CanGrab(ls, w) { GrabKeeps(tenantFirst, ls, w); }
    case Commit(w) => if CanCommit(ls, w) { CommitKeeps(tenantFirst, ls, w); }
    case _ =>
      hide Inv, Step, Needs, Compatible;
      var ls' := Next(tenantFirst, ls, move);
      forall x | x in ls'.open ensures OpenOk(tenantFirst, ls', x, ls'.open[x]) {
        assert OpenOk(tenantFirst, ls, x, ls.open[x]);
      }
  }

  lemma {:induction false} LockRunKeeps(tenantFirst: bool, prices: map<Slot, real>, moves: seq<Move>)
    ensures LockInv(tenantFirst, LockRun(tenantFirst, prices, moves))
    decreases |moves|
  {
    hide Next, LockInv;
    if moves == [] {
      StartIsLockInv(tenantFirst, prices);
    } else {
      LockRunKeeps(tenantFirst, prices, moves[..|moves| - 1]);
      NextKeeps(tenantFirst, LockRun(tenantFirst, prices, moves[..|moves| - 1]), moves[|moves| - 1]);
    }
  }

  lemma StartIsLockInv(tenantFirst: bool, prices: map<Slot, real>)
    ensures LockInv(tenantFirst, LockState(Start(prices), map[], map[]))
  {
    StartKeeps(prices);
    hide Inv;
  }

  // ---------------------------------------------------------------- no waits-for cycle

  /** Every transaction takes its locks in ascending rank, above the advisory ones. */
  lemma NeedsAscend(tenantFirst: bool, s: State, move: Label, i: nat, j: nat)
    requires i < j < |Needs(tenantFirst, s, move)|
    ensures var needs := Needs(tenantFirst, s, move);
            Rank(tenantFirst, needs[i].lock) < Rank(tenantFirst, needs[j].lock)
  {
  }

  lemma NeedsAreRows(tenantFirst: bool, s: State, move: Label, i: nat)
    requires i < |Needs(tenantFirst, s, move)|
    ensures Rank(tenantFirst, Needs(tenantFirst, s, move)[i].lock) >= 2 && !move.Acquire?
  {
  }

  /** A worker waits only for a lock ranked above every lock it holds. */
  lemma WaitsUpward(tenantFirst: bool, prices: map<Slot, real>, moves: seq<Move>, w: WorkerId, h: Lockable)
    ensures var ls := LockRun(tenantFirst, prices, moves);
            Awaited(ls, w).Some? && HoldsLock(ls, w, h) ==>
              Rank(tenantFirst, h) < Rank(tenantFirst, Awaited(ls, w).value)
  {
    LockRunKeeps(tenantFirst, prices, moves);
    var ls := LockRun(tenantFirst, prices, moves);
    if Awaited(ls, w).Some? && HoldsLock(ls, w, h) { UpwardHere(tenantFirst, ls, w, h); }
  }

  lemma UpwardHere(tenantFirst: bool, ls: LockState, w: WorkerId, h: Lockable)
    requires LockInv(tenantFirst, ls) && Awaited(ls, w).Some? && HoldsLock(ls, w, h)
    ensures Rank(tenantFirst, h) < Rank(tenantFirst, Awaited(ls, w).value)
  {
    hide Inv, Needs;
    if w in ls.open {
      var t := ls.open[w];
      assert OpenOk(tenantFirst, ls, w, t);
      if t.got < |t.needs| {
        NeedsAreRows(tenantFirst, ls.s, t.move, t.got);
        if i: nat :| HasGranted(t, i, h) { NeedsAscend(tenantFirst, ls.s, t.move, i, t.got); }
      } else if i: nat :| HasGranted(t, i, h) {
        NeedsAreRows(tenantFirst, ls.s, t.move, i);
      } else {
        WaiterHasNoAdvisory(ls.s, w);
      }
    } else {
      WaiterHasNoAdvisory(ls.s, w);
    }
  }

  lemma WaiterHasNoAdvisory(s: State, w: WorkerId)
    requires Inv(s) && w in s.workers && s.workers[w].phase.Locking?
    ensures forall r | r in s.locks :: s.locks[r] != w
  {
    forall r | r in s.locks ensures s.locks[r] != w { assert LockOk(s, r, s.locks[r]); }
  }

  /** Whoever one waits for holds what one awaits. */
  lemma BlockerHolds(ls: LockState, w: WorkerId, x: WorkerId)
    requires WaitsFor(ls, w, x)
    requires AtAdvisoryLock(ls, w) && w in ls.open ==> ls.open[w].got == |ls.open[w].needs|
    ensures Awaited(ls, w).Some? && HoldsLock(ls, x, Awaited(ls, w).value)
  {
  }

  lemma AcquireNeedsNothing(tenantFirst: bool, ls: LockState, w: WorkerId)
    requires LockInv(tenantFirst, ls) && AtAdvisoryLock(ls, w) && w in ls.open
    ensures ls.open[w].got == |ls.open[w].needs| == 0
  {
    hide Inv;
    assert OpenOk(tenantFirst, ls, w, ls.open[w]);
  }

  ghost predicate IsWaitingPath(ls: LockState, path: seq<WorkerId>) {
    forall i | 0 <= i < |path| - 1 :: WaitsFor(ls, path[i], path[i + 1])
  }

  lemma EdgeClimbs(tenantFirst: bool, ls: LockState, w: WorkerId, x: WorkerId)
    requires LockInv(tenantFirst, ls) && WaitsFor(ls, w, x)
    ensures Awaited(ls, w).Some? && HoldsLock(ls, x, Awaited(ls, w).value)
    ensures Awaited(ls, x).Some? ==> Rank(tenantFirst, Awaited(ls, w).value) < Rank(tenantFirst, Awaited(ls, x).value)
  {
    hide Inv, Needs, LockInv;
    if AtAdvisoryLock(ls, w) && w in ls.open { AcquireNeedsNothing(tenantFirst, ls, w); }
    BlockerHolds(ls, w, x);
    if Awaited(ls, x).Some? { UpwardHere(tenantFirst, ls, x, Awaited(ls, w).value); }
  }

  lemma {:induction false} PathClimbs(tenantFirst: bool, ls: LockState, path: seq<WorkerId>, n: nat)
    requires LockInv(tenantFirst, ls) && IsWaitingPath(ls, path) && 0 < n < |path| - 1
    ensures Awaited(ls, path[0]).Some? && Awaited(ls, path[n]).Some?
    ensures Rank(tenantFirst, Awaited(ls, path[0]).value) + n <= Rank(tenantFirst, Awaited(ls, path[n]).value)
  {
    hide LockInv, WaitsFor, Awaited, HoldsLock;
    assert WaitsFor(ls, path[n - 1], path[n]) && WaitsFor(ls, path[n], path[n + 1]);
    EdgeClimbs(tenantFirst, ls, path[n - 1], path[n]);
    EdgeClimbs(tenantFirst, ls, path[n], path[n + 1]);
    if n > 1 { PathClimbs(tenantFirst, ls, path, n - 1); }
  }

  lemma PathIsNoCycle(tenantFirst: bool, ls: LockState, path: seq<WorkerId>)
    requires LockInv(tenantFirst, ls) && IsWaitingPath(ls, path) && |path| >= 2
    ensures path[0] != path[|path| - 1]
  {
    hide LockInv, WaitsFor, Awaited, HoldsLock;
    var n := |path| - 2;
    assert WaitsFor(ls, path[n], path[n + 1]);
    assert WaitsFor(ls, path[0], path[1]);
    EdgeClimbs(tenantFirst, ls, path[n], path[n + 1]);
    EdgeClimbs(tenantFirst, ls, path[0], path[1]);
    if n > 0 { PathClimbs(tenantFirst, ls, path, n); }
  }

  /**
    No cycle of any length in the waits-for graph of any reachable state, over advisory locks,
    unique keys and rows together.
   */
  lemma NoWaitsForCycle(tenantFirst: bool, prices: map<Slot, real>, moves: seq<Move>, path: seq<WorkerId>)
    ensures var ls := LockRun(tenantFirst, prices, moves);
            |path| >= 2 && IsWaitingPath(ls, path) ==> path[0] != path[|path| - 1]
  {
    LockRunKeeps(tenantFirst, prices, moves);
    hide LockInv, WaitsFor;
    var ls := LockRun(tenantFirst, prices, moves);
    if |path| >= 2 && IsWaitingPath(ls, path) { PathIsNoCycle(tenantFirst, ls, path); }
  }

  // ---------------------------------------------------------------- somebody can move

  ghost predicate Waiting(ls: LockState, w: WorkerId) { exists x :: WaitsFor(ls, w, x) }

  /** The next lock is free, or all are there; or a step of the protocol is open to the worker. */
  ghost predicate CanMove(ls: LockState, w: WorkerId) {
    || CanGrab(ls, w) || CanCommit(ls, w)
    || (w !in ls.open && w in ls.s.workers && (CanAdvance(ls.s, w) || CanRaise(ls.s, w)))
  }

  lemma NotWaitingCanMove(tenantFirst: bool, ls: LockState, w: WorkerId, x: WorkerId)
    requires LockInv(tenantFirst, ls) && WaitsFor(ls, w, x) && !Waiting(ls, x)
    ensures CanMove(ls, x)
  {
    hide Inv, Needs, CanAdvance, CanRaise;
    if x in ls.open {
      assert OpenOk(tenantFirst, ls, x, ls.open[x]);
      forall y ensures !BlockedBy(ls, x, y) { assert !WaitsFor(ls, x, y); }
    } else {
      var r := Lock(ls.s.workers[w]);
      HolderCanMove(ls.s, r);
    }
  }

  lemma HolderCanMove(s: State, r: Resource)
    requires Inv(s) && r in s.locks
    ensures s.locks[r] in s.workers && (CanAdvance(s, s.locks[r]) || CanRaise(s, s.locks[r]))
  {
    var x := s.locks[r];
    assert LockOk(s, r, x);
  }

  lemma AwaitedIsRanked(tenantFirst: bool, ls: LockState, w: WorkerId)
    requires LockInv(tenantFirst, ls) && Awaited(ls, w).Some?
    ensures 1 <= Rank(tenantFirst, Awaited(ls, w).value) <= 5
  {
    hide Inv, Needs;
    if w in ls.open && ls.open[w].got < |ls.open[w].needs| {
      assert OpenOk(tenantFirst, ls, w, ls.open[w]);
      NeedsAreRows(tenantFirst, ls.s, ls.open[w].move, ls.open[w].got);
    }
  }

  lemma {:induction false} PathToAMover(tenantFirst: bool, ls: LockState, w: WorkerId, x: WorkerId)
    returns (path: seq<WorkerId>)
    requires LockInv(tenantFirst, ls) && WaitsFor(ls, w, x) && Awaited(ls, w).Some?
    ensures 2 <= |path| <= 7 - Rank(tenantFirst, Awaited(ls, w).value)
    ensures path[0] == w && IsWaitingPath(ls, path) && CanMove(ls, path[|path| - 1])
    decreases 5 - Rank(tenantFirst, Awaited(ls, w).value)
  {
    hide LockInv, WaitsFor, Awaited, HoldsLock, CanMove;
    AwaitedIsRanked(tenantFirst, ls, w);
    EdgeClimbs(tenantFirst, ls, w, x);
    if Waiting(ls, x) {
      var y :| WaitsFor(ls, x, y);
      EdgeClimbs(tenantFirst, ls, x, y);
      AwaitedIsRanked(tenantFirst, ls, x);
      var rest := PathToAMover(tenantFirst, ls, x, y);
      path := [w] + rest;
    } else {
      NotWaitingCanMove(tenantFirst, ls, w, x);
      path := [w, x];
    }
  }

  /** From every waiting worker of a reachable state, at most five waits lead to one that can move. */
  lemma SomebodyCanMove(tenantFirst: bool, prices: map<Slot, real>, moves: seq<Move>, w: WorkerId)
    returns (path: seq<WorkerId>)
    requires Waiting(LockRun(tenantFirst, prices, moves), w)
    ensures 2 <= |path| <= 6 && path[0] == w && IsWaitingPath(LockRun(tenantFirst, prices, moves), path)
    ensures CanMove(LockRun(tenantFirst, prices, moves), path[|path| - 1])
  {
    hide LockInv, WaitsFor, HoldsLock, CanMove, LockRun;
    var ls := LockRun(tenantFirst, prices, moves);
    LockRunKeeps(tenantFirst, prices, moves);
    var x :| WaitsFor(ls, w, x);
    EdgeClimbs(tenantFirst, ls, w, x);
    AwaitedIsRanked(tenantFirst, ls, w);
    path := PathToAMover(tenantFirst, ls, w, x);
  }

  // ---------------------------------------------------------------- what a lock protects

  /** The rows, or the absence of rows, that a lock stands for are the same in both states. */
  ghost predicate Untouched(l: Lockable, s: State, s': State) {
    match l
    case KeyEntry(key) => (key in s.keys <==> key in s'.keys) && (key in s.keys ==> s'.keys[key] == s.keys[key])
    case RequestEntry(key) => KeyTaken(s, key) <==> KeyTaken(s', key)
    case RequestOf(r) => r in s.requests ==> r in s'.requests && s'.requests[r] == s.requests[r]
    case DecisionEntry(d) => d in s.decisions <==> d in s'.decisions
    case DecisionOf(d) => d in s.decisions ==> d in s'.decisions && s'.decisions[d] == s.decisions[d]
    case ApprovalEntry(d) => HasRequest(s, d) <==> HasRequest(s', d)
    case ApprovalOf(r) => r in s.approvals ==> r in s'.approvals && s'.approvals[r] == s.approvals[r]
    case TenantOf(t) => s.events <= s'.events && forall i | |s.events| <= i < |s'.events| :: s'.events[i].tenant != t
    case ProjectionOf(t) =>
      forall slot: Slot | slot.tenant == t ::
        (slot in s.values <==> slot in s'.values) && (slot in s.values ==> s'.values[slot] == s.values[slot])
    case _ => true
  }

  ghost predicate Writes(needs: seq<Need>, l: Lockable) {
    exists i | 0 <= i < |needs| :: needs[i].lock == l && !needs[i].mode.KeyShare?
  }

  /** Nothing a row lock stands for has changed. */
  predicate SameTables(s: State, s': State) {
    && s'.keys == s.keys && s'.decisions == s.decisions && s'.approvals == s.approvals
    && s'.events == s.events && s'.values == s.values && s'.requests == s.requests
  }

  lemma SameIsUntouched(l: Lockable, s: State, s': State)
    requires SameTables(s, s')
    ensures Untouched(l, s, s')
  {
  }

  lemma InsertTouches(s: State, w: WorkerId, l: Lockable)
    requires CanInsertRequest(s, w)
    ensures Untouched(l, s, AfterInsertRequest(s, w)) || l == RequestEntry(s.workers[w].key)
  {
    var s' := AfterInsertRequest(s, w);
    if l.RequestEntry? && l != RequestEntry(s.workers[w].key) {
      if r :| r in s.requests && s.requests[r].key == l.key { assert s'.requests[r].key == l.key; }
    }
  }

  lemma StatusTouches(s: State, s': State, r: RowId, status: WorkStatus, l: Lockable)
    requires SameTables(s.(requests := s'.requests), s') && s'.requests == SetStatus(s.requests, r, status)
    ensures Untouched(l, s, s') || l == RequestOf(r)
  {
    if l.RequestEntry? {
      if q :| q in s.requests && s.requests[q].key == l.key { assert s'.requests[q].key == l.key; }
    }
  }

  lemma KeyTouches(s: State, s': State, key: Key, l: Lockable)
    requires SameTables(s.(keys := s'.keys), s') && s'.keys - {key} == s.keys - {key}
    ensures Untouched(l, s, s') || l == KeyEntry(key)
  {
    if l.KeyEntry? && l.key != key {
      assert l.key in s.keys <==> l.key in s.keys - {key};
      assert l.key in s'.keys <==> l.key in s'.keys - {key};
      if l.key in s.keys { assert (s.keys - {key})[l.key] == (s'.keys - {key})[l.key]; }
    }
  }

  lemma VerdictTouches(s: State, r: RowId, approve: bool, l: Lockable)
    requires CanResolve(s, r)
    ensures Untouched(l, s, AfterResolve(s, r, approve)) || l == ApprovalOf(r)
  {
    var s' := AfterResolve(s, r, approve);
    if l.ApprovalEntry? {
      if q :| q in s.approvals && s.approvals[q].decision == l.id { assert s'.approvals[q].decision == l.id; }
    }
  }

  lemma ReviewTouches(s: State, w: WorkerId, r: RowId, l: Lockable)
    requires CanRequestReview(s, w, r)
    ensures Untouched(l, s, AfterRequestReview(s, w, r)) || l == ApprovalEntry(s.workers[w].decision.value)
  {
    var s' := AfterRequestReview(s, w, r);
    if l.ApprovalEntry? && l.id != s.workers[w].decision.value {
      if q :| q in s.approvals && s.approvals[q].decision == l.id { assert s'.approvals[q].decision == l.id; }
    }
  }

  lemma AppendTouches(s: State, w: WorkerId, l: Lockable)
    requires CanAppend(s, w)
    ensures var t := s.workers[w].key.tenant;
            Untouched(l, s, AfterAppend(s, w)) || l == TenantOf(t) || l == ProjectionOf(t)
  {
    hide CanApply, CurrentValue;
  }

  lemma WritesAt(needs: seq<Need>, i: nat, l: Lockable)
    requires i < |needs| && needs[i].lock == l && !needs[i].mode.KeyShare?
    ensures Writes(needs, l)
  {
  }

  /** What a transaction changes, it has locked against other writers. */
  lemma WritesAreLocked(tenantFirst: bool, s: State, move: Label, l: Lockable)
    ensures Untouched(l, s, Step(s, move)) || Writes(Needs(tenantFirst, s, move), l)
  {
    if IsIntake(move) {
      IntakeWrites(tenantFirst, s, move, l);
    } else if IsBookkeeping(move) {
      BookkeepingWrites(tenantFirst, s, move, l);
    } else if IsDeciding(move) {
      DecidingWrites(tenantFirst, s, move, l);
    } else {
      ExecutingWrites(tenantFirst, s, move, l);
    }
  }

  lemma IntakeWrites(tenantFirst: bool, s: State, move: Label, l: Lockable)
    requires IsIntake(move)
    ensures Untouched(l, s, Step(s, move)) || Writes(Needs(tenantFirst, s, move), l)
  {
    hide Step, Untouched, Writes, Needs, SameTables;
    if move.InsertRequest? {
      InsertWrites(tenantFirst, s, move.w, l);
    } else if move.MarkProcessing? || move.Report? {
      StatusWrites(tenantFirst, s, move, l);
    } else {
      IntakeSame(s, move);
      SameIsUntouched(l, s, Step(s, move));
    }
  }

  lemma IntakeSame(s: State, move: Label)
    requires move.Submit? || move.LoseRace? || move.Publish? || move.Deliver? || move.Call?
    ensures SameTables(s, Step(s, move))
  {
    IntakeAddsOrMoves(s, move.w);
    hide StepBookkeeping, StepDeciding, StepExecuting, CanSubmit, CanDeliver, CanCall, SameTables,
      AfterSubmit, AfterDeliver, AfterCall, AfterLoseRace, AfterPublish;
    match move
    case Submit(w, key, action, r) =>
      if CanSubmit(s, w, key) { SubmitSame(s, w, key, action, r); } else { SameIsSame(s); }
    case Deliver(w, m, fingerprint) =>
      if CanDeliver(s, w, m) { DeliverSame(s, w, m, fingerprint); } else { SameIsSame(s); }
    case Call(w, key, fingerprint, action) =>
      if CanCall(s, w) { CallSame(s, w, key, fingerprint, action); } else { SameIsSame(s); }
    case _ => SameIsSame(s);
  }

  lemma SameIsSame(s: State)
    ensures SameTables(s, s)
  {
  }

  lemma IntakeAddsOrMoves(s: State, w: WorkerId)
    ensures CanLoseRace(s, w) ==> SameTables(s, AfterLoseRace(s, w))
    ensures CanPublish(s, w) ==> SameTables(s, AfterPublish(s, w))
  {
  }

  lemma SubmitSame(s: State, w: WorkerId, key: Key, action: Action, r: RowId)
    ensures SameTables(s, AfterSubmit(s, w, key, action, r))
  {
  }

  lemma DeliverSame(s: State, w: WorkerId, m: Message, fingerprint: int)
    requires CanDeliver(s, w, m)
    ensures SameTables(s, AfterDeliver(s, w, m, fingerprint))
  {
  }

  lemma CallSame(s: State, w: WorkerId, key: Key, fingerprint: int, action: Action)
    ensures SameTables(s, AfterCall(s, w, key, fingerprint, action))
  {
  }

  lemma InsertWrites(tenantFirst: bool, s: State, w: WorkerId, l: Lockable)
    ensures Untouched(l, s, Step(s, InsertRequest(w))) || Writes(Needs(tenantFirst, s, InsertRequest(w)), l)
  {
    hide StepBookkeeping, StepDeciding, StepExecuting, Untouched, Writes, Shares, KeyTaken;
    if CanInsertRequest(s, w) {
      InsertTouches(s, w, l);
      if !Untouched(l, s, AfterInsertRequest(s, w)) { WritesAt(Needs(tenantFirst, s, InsertRequest(w)), 0, l); }
    } else {
      SameIsUntouched(l, s, s);
    }
  }

  lemma StatusWrites(tenantFirst: bool, s: State, move: Label, l: Lockable)
    requires move.MarkProcessing? || move.Report?
    ensures Untouched(l, s, Step(s, move)) || Writes(Needs(tenantFirst, s, move), l)
  {
    hide StepBookkeeping, StepDeciding, StepExecuting, Shares, Untouched, Writes;
    var s', needs := Step(s, move), Needs(tenantFirst, s, move);
    if s'.requests == s.requests {
      SameIsUntouched(l, s, s');
    } else {
      var r := s.workers[move.w].kind.request;
      StatusTouches(s, s', r, s'.requests[r].status, l);
      if !Untouched(l, s, s') { WritesAt(needs, 0, l); }
    }
  }

  lemma BookkeepingWrites(tenantFirst: bool, s: State, move: Label, l: Lockable)
    requires IsBookkeeping(move)
    ensures Untouched(l, s, Step(s, move)) || Writes(Needs(tenantFirst, s, move), l)
  {
    hide StepIntake, StepDeciding, StepExecuting, Untouched, Writes, Needs, Finish, Abandon, ConflictOutcome;
    if move.Resolve? && CanResolve(s, move.approval) {
      VerdictTouches(s, move.approval, move.approve, l);
      VerdictWrites(tenantFirst, s, move.approval, move.approve, l);
    } else if move.Claim? && CanClaim(s, move.w) {
      KeyWrites(tenantFirst, s, move, Step(s, move), l);
    } else if move.ResolveConflict? && CanResolveConflict(s, move.w) {
      ConflictWrites(tenantFirst, s, move.w, l);
    } else if move.Settle? && CanSettle(s, move.w) {
      SettleWrites(tenantFirst, s, move.w, l);
    } else {
      SameIsUntouched(l, s, Step(s, move));
    }
  }

  lemma VerdictWrites(tenantFirst: bool, s: State, r: RowId, approve: bool, l: Lockable)
    requires CanResolve(s, r) && (Untouched(l, s, AfterResolve(s, r, approve)) || l == ApprovalOf(r))
    ensures Untouched(l, s, AfterResolve(s, r, approve)) || Writes(Needs(tenantFirst, s, Resolve(r, approve)), l)
  {
    hide Untouched, Writes;
    if l == ApprovalOf(r) { WritesAt(Needs(tenantFirst, s, Resolve(r, approve)), 0, l); }
  }

  /** A transaction that changes nothing but one key's row, and has that row locked first. */
  lemma KeyWrites(tenantFirst: bool, s: State, move: Label, s': State, l: Lockable)
    requires move.Claim? || move.ResolveConflict? || move.Settle?
    requires move.w in s.workers && SameTables(s.(keys := s'.keys), s')
    requires var key := s.workers[move.w].key; s'.keys - {key} == s.keys - {key}
    requires var k := s.workers[move.w];
             if move.Claim? then k.phase.Claiming?
             else if move.Settle? then k.phase.Settling?
             else k.phase.Conflicted? && (k.phase.stale || s'.keys == s.keys)
    ensures Untouched(l, s, s') || Writes(Needs(tenantFirst, s, move), l)
  {
    hide Untouched, Writes, Shares;
    if s'.keys == s.keys {
      SameIsUntouched(l, s, s');
    } else {
      KeyTouches(s, s', s.workers[move.w].key, l);
      if !Untouched(l, s, s') { WritesAt(Needs(tenantFirst, s, move), 0, l); }
    }
  }

  lemma ConflictWrites(tenantFirst: bool, s: State, w: WorkerId, l: Lockable)
    requires CanResolveConflict(s, w)
    ensures Untouched(l, s, AfterResolveConflict(s, w)) || Writes(Needs(tenantFirst, s, ResolveConflict(w)), l)
  {
    hide Untouched, Writes, Needs, ConflictOutcome;
    var key := s.workers[w].key;
    assert Abandon(s.keys, key) - {key} == s.keys - {key};
    KeyWrites(tenantFirst, s, ResolveConflict(w), AfterResolveConflict(s, w), l);
  }

  lemma SettleWrites(tenantFirst: bool, s: State, w: WorkerId, l: Lockable)
    requires CanSettle(s, w)
    ensures Untouched(l, s, AfterSettle(s, w)) || Writes(Needs(tenantFirst, s, Settle(w)), l)
  {
    hide Untouched, Writes, Needs;
    var key := s.workers[w].key;
    assert Finish(s.keys, key, s.workers[w].outcome) - {key} == s.keys - {key};
    KeyWrites(tenantFirst, s, Settle(w), AfterSettle(s, w), l);
  }

  lemma DecidingWrites(tenantFirst: bool, s: State, move: Label, l: Lockable)
    requires IsDeciding(move)
    ensures Untouched(l, s, Step(s, move)) || Writes(Needs(tenantFirst, s, move), l)
  {
    hide Step, Writes, Untouched, Needs, SameTables;
    if move.Propose? {
      ProposeWrites(tenantFirst, s, move.w, move.decision, move.confidence, l);
    } else if move.RequestReview? {
      ReviewWrites(tenantFirst, s, move.w, move.approval, l);
    } else {
      DecidingSame(s, move);
      SameIsUntouched(l, s, Step(s, move));
    }
  }

  lemma DecidingSame(s: State, move: Label)
    requires move.Refuse? || move.Acquire? || move.TimeOut? || move.Assess? || move.ExecuteApproved?
    ensures SameTables(s, Step(s, move))
  {
    DecidingMoves(s, move.w);
    if move.ExecuteApproved? { ApprovedSame(s, move.w, move.tenant, move.approval); }
    hide StepIntake, StepBookkeeping, StepExecuting, SameTables, CanRefuse, CanAcquire, CanTimeOut, CanAssess,
         CanExecuteApproved,
      AfterRefuse, AfterAcquire, AfterTimeOut, AfterAssess, AfterExecuteApproved;
    SameIsSame(s);
  }

  lemma DecidingMoves(s: State, w: WorkerId)
    ensures CanRefuse(s, w) ==> SameTables(s, AfterRefuse(s, w))
    ensures CanAcquire(s, w) ==> SameTables(s, AfterAcquire(s, w))
    ensures CanTimeOut(s, w) ==> SameTables(s, AfterTimeOut(s, w))
    ensures CanAssess(s, w) ==> SameTables(s, AfterAssess(s, w))
  {
    hide Verdict, CurrentValue;
  }

  lemma ApprovedSame(s: State, w: WorkerId, tenant: int, r: RowId)
    ensures CanExecuteApproved(s, w, tenant, r) ==> SameTables(s, AfterExecuteApproved(s, w, tenant, r))
  {
  }

  lemma ProposeWrites(tenantFirst: bool, s: State, w: WorkerId, d: DecisionId, confidence: real, l: Lockable)
    ensures Untouched(l, s, Step(s, Propose(w, d, confidence)))
            || Writes(Needs(tenantFirst, s, Propose(w, d, confidence)), l)
  {
    hide StepIntake, StepBookkeeping, StepExecuting, Writes, Shares;
    if CanPropose(s, w, d, confidence) {
      if l == DecisionEntry(d) { WritesAt(Needs(tenantFirst, s, Propose(w, d, confidence)), 0, l); }
    } else {
      SameIsUntouched(l, s, s);
    }
  }

  lemma ReviewWrites(tenantFirst: bool, s: State, w: WorkerId, r: RowId, l: Lockable)
    ensures Untouched(l, s, Step(s, RequestReview(w, r))) || Writes(Needs(tenantFirst, s, RequestReview(w, r)), l)
  {
    hide StepIntake, StepBookkeeping, StepExecuting, Writes, Untouched, Shares, HasRequest;
    if CanRequestReview(s, w, r) {
      ReviewTouches(s, w, r, l);
      if l == ApprovalEntry(s.workers[w].decision.value) { WritesAt(Needs(tenantFirst, s, RequestReview(w, r)), 0, l); }
    } else {
      SameIsUntouched(l, s, s);
    }
  }

  lemma ExecutingWrites(tenantFirst: bool, s: State, move: Label, l: Lockable)
    requires IsExecuting(move)
    ensures Untouched(l, s, Step(s, move)) || Writes(Needs(tenantFirst, s, move), l)
  {
    hide Step, Writes, Untouched, Needs, SameTables;
    if move.Append? {
      AppendWrites(tenantFirst, s, move.w, l);
    } else if move.Take? || move.Evaluate? {
      DecisionWrites(tenantFirst, s, move, l);
    } else {
      ExecutingSame(s, move);
      SameIsUntouched(l, s, Step(s, move));
    }
  }

  lemma ExecutingSame(s: State, move: Label)
    requires move.Observe? || move.Record? || move.Release? || move.Raise? || move.Crash?
    ensures SameTables(s, Step(s, move))
  {
    ExecutingMoves(s, move.w);
    hide StepIntake, StepBookkeeping, StepDeciding, SameTables, CanObserve, CanRecord, CanRelease, CanRaise, CanCrash,
      AfterObserve, AfterRecord, AfterRelease, AfterRaise, AfterCrash;
    SameIsSame(s);
  }

  lemma ExecutingMoves(s: State, w: WorkerId)
    ensures CanObserve(s, w) ==> SameTables(s, AfterObserve(s, w))
    ensures CanRecord(s, w) ==> SameTables(s, AfterRecord(s, w))
    ensures CanRelease(s, w) ==> SameTables(s, AfterRelease(s, w))
    ensures CanRaise(s, w) ==> SameTables(s, AfterRaise(s, w))
    ensures CanCrash(s, w) ==> SameTables(s, AfterCrash(s, w))
  {
    hide Freed;
  }

  lemma AppendWrites(tenantFirst: bool, s: State, w: WorkerId, l: Lockable)
    ensures Untouched(l, s, Step(s, Append(w))) || Writes(Needs(tenantFirst, s, Append(w)), l)
  {
    hide StepIntake, StepBookkeeping, StepDeciding, Writes, Untouched, CanApply, Applied, CurrentValue;
    if CanAppend(s, w) {
      AppendTouches(s, w, l);
      if l == TenantOf(s.workers[w].key.tenant) { WritesAt(Needs(tenantFirst, s, Append(w)), 0, l); }
      if l == ProjectionOf(s.workers[w].key.tenant) { WritesAt(Needs(tenantFirst, s, Append(w)), 1, l); }
    } else {
      SameIsUntouched(l, s, s);
    }
  }

  lemma DecisionWrites(tenantFirst: bool, s: State, move: Label, l: Lockable)
    requires move.Take? || move.Evaluate?
    ensures Untouched(l, s, Step(s, move)) || Writes(Needs(tenantFirst, s, move), l)
  {
    hide StepIntake, StepBookkeeping, StepDeciding, Writes, Untouched;
    if (move.Take? && CanTake(s, move.w)) || (move.Evaluate? && CanEvaluate(s, move.w)) {
      DecisionTouches(s, Step(s, move), s.workers[move.w].decision.value, l);
      if !Untouched(l, s, Step(s, move)) { WritesAt(Needs(tenantFirst, s, move), 0, l); }
    } else {
      SameIsUntouched(l, s, s);
    }
  }

  lemma DecisionTouches(s: State, s': State, d: DecisionId, l: Lockable)
    requires SameTables(s.(decisions := s'.decisions), s') && d in s.decisions && d in s'.decisions
    requires s'.decisions == s.decisions[d := s'.decisions[d]]
    ensures Untouched(l, s, s') || l == DecisionOf(d)
  {
  }

  lemma OnlyWriter(t: Transaction, u: Transaction, i: nat)
    requires Compatible(t, u) && i < t.got && i < |t.needs| && !t.needs[i].mode.KeyShare? && u.got == |u.needs|
    ensures !Writes(u.needs, t.needs[i].lock)
  {
    var l := t.needs[i].lock;
    forall j | 0 <= j < |u.needs| && u.needs[j].lock == l ensures u.needs[j].mode.KeyShare? {
      assert HasGranted(t, i, l) && HasGranted(u, j, l);
    }
  }

  /** While a transaction has a row locked for writing, no other commit changes that row. */
  lemma LocksProtect(tenantFirst: bool, ls: LockState, move: Move, w: WorkerId, i: nat)
    requires LockInv(tenantFirst, ls) && w in ls.open && i < ls.open[w].got && !ls.open[w].needs[i].mode.KeyShare?
    requires move != Commit(w)
    ensures Untouched(ls.open[w].needs[i].lock, ls.s, Next(tenantFirst, ls, move).s)
  {
    hide Inv, Step, Needs, Untouched, Writes, Compatible;
    var l := ls.open[w].needs[i].lock;
    if move.Commit? && CanCommit(ls, move.w) {
      var t := ls.open[move.w];
      assert OpenOk(tenantFirst, ls, move.w, t);
      WritesAreLocked(tenantFirst, ls.s, t.move, l);
      OnlyWriter(ls.open[w], t, i);
    } else {
      SameIsUntouched(l, ls.s, ls.s);
    }
  }

  lemma UntouchedTransitive(l: Lockable, s: State, t: State, u: State)
    requires Untouched(l, s, t) && Untouched(l, t, u)
    ensures Untouched(l, s, u)
  {
    if l.TenantOf? {
      forall i | |s.events| <= i < |u.events| ensures u.events[i].tenant != l.tenant {
        if i < |t.events| { assert u.events[i] == t.events[i]; }
      }
    }
  }

  /** The machine from any state on. */
  ghost function LockRunFrom(tenantFirst: bool, ls: LockState, moves: seq<Move>): LockState
    decreases |moves|
  {
    if moves == [] then ls
    else Next(tenantFirst, LockRunFrom(tenantFirst, ls, moves[..|moves| - 1]), moves[|moves| - 1])
  }

  /**
    From the moment a row is locked for writing until its transaction ends, whatever else runs:
    what was read of the row is what the commit finds.
   */
  lemma {:induction false} LockedRowsStay(tenantFirst: bool, ls: LockState, moves: seq<Move>, w: WorkerId, i: nat)
    requires LockInv(tenantFirst, ls) && w in ls.open && i < ls.open[w].got && !ls.open[w].needs[i].mode.KeyShare?
    requires forall n | 0 <= n < |moves| :: moves[n] != Commit(w) && moves[n] != Rollback(w)
    ensures var ls' := LockRunFrom(tenantFirst, ls, moves);
            && LockInv(tenantFirst, ls') && w in ls'.open && ls.open[w].got <= ls'.open[w].got
            && ls'.open[w].needs == ls.open[w].needs && Untouched(ls.open[w].needs[i].lock, ls.s, ls'.s)
    decreases |moves|
  {
    hide Inv, Step, Needs, Untouched, Compatible;
    if moves == [] {
      SameIsUntouched(ls.open[w].needs[i].lock, ls.s, ls.s);
    } else {
      var before, last := moves[..|moves| - 1], moves[|moves| - 1];
      LockedRowsStay(tenantFirst, ls, before, w, i);
      var mid := LockRunFrom(tenantFirst, ls, before);
      LocksProtect(tenantFirst, mid, last, w, i);
      NextKeeps(tenantFirst, mid, last);
      UntouchedTransitive(ls.open[w].needs[i].lock, ls.s, mid.s, Next(tenantFirst, mid, last).s);
      StaysOpen(tenantFirst, mid, last, w);
    }
  }

  lemma StaysOpen(tenantFirst: bool, ls: LockState, move: Move, w: WorkerId)
    requires w in ls.open && move != Commit(w) && move != Rollback(w)
    ensures w in Next(tenantFirst, ls, move).open
    ensures Next(tenantFirst, ls, move).open[w].needs == ls.open[w].needs
    ensures ls.open[w].got <= Next(tenantFirst, ls, move).open[w].got
  {
    hide Step, Needs, CanGrab;
  }
}
