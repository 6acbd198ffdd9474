/** The bootstrap fence of llmsvc/bootstrap_state.py as a state machine, and what all of its runs keep. */
module BootstrapState {
  import opened Options
  import opened BootstrapRecord

  datatype Lease = Lease(id: string, model: string, gpu: int, util: real, status: string)

  /** A durable account: the lease and the unit it is bound to. */
  datatype Row = Row(lease: Lease, unit: string)

  datatype State = State(
    record: Option<Record>,            // durable
    leases: map<string, Row>,          // durable
    owner: Option<(string, string)>,   // the thread's capability: bootstrap id and token hash
    readOnly: bool,
    clean: bool)                       // no catalog checkpoint, fault or recovery exists

  datatype Op =
    | Claim(record: Record)
    | Save(expected: Record, record: Record)
    | InsertLease(lease: Lease, unit: string)
    | Reclaim(expected: Record, actor: Actor, token: string)
    | Enter(id: string)                                  // `scope` entered
    | Leave(previous: Option<(string, string)>)          // `scope` left
    // confirm, expire or release an account; unblocked by faults, sleeping recoveries and catalog reconciliation
    | Transition(leaseId: string, status: string, unblocked: bool)
    | Foreign(leases: map<string, Row>, clean: bool)     // any other accounting while no bootstrap is pending

  predicate Live(row: Row) {
    row.lease.status != "released"
  }

  predicate NoAccounts(leases: map<string, Row>) {
    forall l | l in leases :: !Live(leases[l])
  }

  predicate Pending(s: State) {
    s.record.Some? && !s.record.value.stage.Terminal()
  }

  predicate Authorized(s: State) {
    s.record.Some? && s.owner == Some((s.record.value.id, s.record.value.token))
  }

  predicate ClaimAllowed(s: State, r: Record) {
    && Encodable(r) && !s.readOnly && s.record.None? && s.clean && NoAccounts(s.leases)
    && r.stage == Claimed && r.leaseId.None? && r.effects == map[] && !r.catalogPresent
  }

  predicate SaveAllowed(s: State, expected: Record, r: Record) {
    && Encodable(r) && !s.readOnly && s.record == Some(expected)
    && SameIdentity(expected, r) && expected.actor == r.actor && expected.token == r.token
    && expected.leaseId == r.leaseId
    && PhaseAllowed(expected.stage, r.stage, r)
    && EffectsKept(expected, r) && ReceiptsKept(expected, r)
    && (r.stage == Aborted ==> NoAccounts(s.leases)
                               && (r.effects == map[] || (Rollback in r.effects && r.effects[Rollback] == Acknowledged)))
    && (r.stage == Complete ==> Confirmed(s, r))
  }

  /** The account named by the record is confirmed, for its model and unit. */
  predicate Confirmed(s: State, r: Record) {
    && r.leaseId.Some? && r.leaseId.value in s.leases
    && var row := s.leases[r.leaseId.value];
       row.lease.status == "confirmed" && row.lease.model == r.model && row.unit == r.unit
  }

  function Attached(r: Record, lease: Lease): Record {
    r.(stage := Placed, leaseId := Some(lease.id))
  }

  predicate InsertAllowed(s: State, lease: Lease, unit: string) {
    && Authorized(s) && s.record.value.stage == Placing && s.record.value.leaseId.None?
    && lease.model == s.record.value.model && unit == s.record.value.unit && lease.util == s.record.value.util
    && !s.readOnly && lease.id !in s.leases && lease.status == "pending" && Encodable(Attached(s.record.value, lease))
  }

  function Reclaimed(r: Record, actor: Actor, token: string): Record {
    r.(actor := actor, token := token)
  }

  predicate Accepts(s: State, op: Op) {
    match op
    case Claim(r) => ClaimAllowed(s, r)
    case Save(expected, r) => SaveAllowed(s, expected, r)
    case InsertLease(lease, unit) => InsertAllowed(s, lease, unit)
    case Reclaim(expected, actor, token) =>
      !s.readOnly && s.record == Some(expected) && Encodable(Reclaimed(expected, actor, token))
    case Enter(id) => s.record.Some? && s.record.value.id == id
    case Leave(_) => true
    case Transition(l, status, unblocked) =>
      && unblocked && !s.readOnly && l in s.leases && Live(s.leases[l]) && status in {"confirmed", "stale", "released"}
      && (Pending(s) ==> s.record.value.leaseId == Some(l) && Authorized(s))
    case Foreign(_, _) => !Pending(s)
  }

  /** One operation; a refused one changes nothing. */
  function Next(s: State, op: Op): State {
    if !Accepts(s, op) then s
    else
      match op
      case Claim(r) => s.(record := Some(r))
      case Save(_, r) => s.(record := Some(r))
      case InsertLease(lease, unit) =>
        s.(record := Some(Attached(s.record.value, lease)), leases := s.leases[lease.id := Row(lease, unit)])
      case Reclaim(expected, actor, token) => s.(record := Some(Reclaimed(expected, actor, token)))
      case Enter(id) => s.(owner := Some((id, s.record.value.token)))
      case Leave(previous) => s.(owner := previous)
      case Transition(l, status, _) =>
        s.(leases := s.leases[l := s.leases[l].(lease := s.leases[l].lease.(status := status))])
      case Foreign(leases, clean) => s.(leases := leases, clean := clean)
  }

  function Run(s: State, ops: seq<Op>): State {
    if ops == [] then s else Next(Run(s, ops[..|ops| - 1]), ops[|ops| - 1])
  }

  /** The state after the first i operations. */
  function After(s: State, ops: seq<Op>, i: nat): State
    requires i <= |ops|
  {
    Run(s, ops[..i])
  }

  lemma AfterStep(s: State, ops: seq<Op>, i: nat)
    requires i < |ops|
    ensures After(s, ops, i + 1) == Next(After(s, ops, i), ops[i])
  {
    assert ops[..i + 1][..i] == ops[..i];
  }

  // ---- nothing regresses ----

  /** Receipts that hold a value. */
  predicate ValuesKept(r: Record, r': Record) {
    forall k | k in r.migration && r.migration[k] != Null :: Get(r'.migration, k) == r.migration[k]
  }

  /** What any later record keeps of an earlier one. */
  predicate Later(r: Record, r': Record) {
    && SameIdentity(r, r') && EffectsKept(r, r') && ValuesKept(r, r')
    && (r.leaseId.Some? ==> r'.leaseId == r.leaseId)
    && (r.stage == r'.stage || (!r.stage.Terminal() && r.stage.Rank() < r'.stage.Rank()))
  }

  lemma StepIsLater(s: State, op: Op)
    requires s.record.Some?
    ensures Next(s, op).record.Some? && Later(s.record.value, Next(s, op).record.value)
  {
  }

  lemma LaterTransitive(a: Record, b: Record, c: Record)
    requires Later(a, b) && Later(b, c)
    ensures Later(a, c)
  {
    forall k | k in a.migration && a.migration[k] != Null ensures Get(c.migration, k) == a.migration[k] {
      assert k in b.migration && b.migration[k] != Null;
    }
  }

  /**
   Over any run: the record never disappears, its identity and lease never change, recorded effects and
   receipts with a value never regress, and the phase never goes back nor leaves a terminal phase.
   */
  lemma {:induction false} NothingRegresses(s: State, ops: seq<Op>, i: nat, j: nat)
    requires i <= j <= |ops| && After(s, ops, i).record.Some?
    ensures After(s, ops, j).record.Some?
    ensures Later(After(s, ops, i).record.value, After(s, ops, j).record.value)
    decreases j
  {
    if i < j {
      NothingRegresses(s, ops, i, j - 1);
      AfterStep(s, ops, j - 1);
      StepIsLater(After(s, ops, j - 1), ops[j - 1]);
      LaterTransitive(After(s, ops, i).record.value, After(s, ops, j - 1).record.value, After(s, ops, j).record.value);
    }
  }

  /**
   A save may drop a receipt exactly when its value is null, because a missing key reads the same: of a record
   that could be saved as it is, and in any phase.
   */
  lemma NullReceiptDropped(s: State, r: Record, key: string)
    requires SaveAllowed(s, r, r) && key in r.migration
    ensures var less := r.(migration := r.migration - {key});
            && (SaveAllowed(s, r, less) <==> r.migration[key] == Null)
            && (r.migration[key] == Null ==> Next(s, Save(r, less)).record == Some(less) && key !in less.migration)
  {
    var less := r.(migration := r.migration - {key});
    assert forall k | k != key :: Get(less.migration, k) == Get(r.migration, k);
    assert Get(less.migration, key) == Null;
  }

  function PhaseOf(s: State): Option<Phase> {
    if s.record.None? then None else Some(s.record.value.stage)
  }

  /** How often the phase of an existing record changed during a run. */
  function PhaseChanges(s: State, ops: seq<Op>): nat {
    if ops == [] then 0
    else
      var before := Run(s, ops[..|ops| - 1]);
      PhaseChanges(s, ops[..|ops| - 1])
      + (if before.record.Some? && PhaseOf(Next(before, ops[|ops| - 1])) != PhaseOf(before) then 1 else 0)
  }

  /** The phase changes at most eleven times between the claim and the end of the bootstrap. */
  lemma {:induction false} AtMostElevenChanges(s: State, ops: seq<Op>)
    requires s.record.None?
    ensures PhaseChanges(s, ops) <= 11
    ensures var end := Run(s, ops);
            if end.record.None? then PhaseChanges(s, ops) == 0
            else PhaseChanges(s, ops) <= end.record.value.stage.Rank()
  {
    if ops != [] {
      var n := |ops| - 1;
      AtMostElevenChanges(s, ops[..n]);
      var before := Run(s, ops[..n]);
      if before.record.Some? {
        StepIsLater(before, ops[n]);
      }
    }
  }

  // ---- the lease behind a completed bootstrap ----

  /** How many accounts the run placed through the fence. */
  function Placements(s: State, ops: seq<Op>): nat {
    if ops == [] then 0
    else
      Placements(s, ops[..|ops| - 1])
      + (if ops[|ops| - 1].InsertLease? && Accepts(Run(s, ops[..|ops| - 1]), ops[|ops| - 1]) then 1 else 0)
  }

  /** A record names a lease exactly when one account was placed through the fence, and never a second. */
  lemma {:induction false} OnePlacement(s: State, ops: seq<Op>)
    requires s.record.None?
    ensures var end := Run(s, ops);
            Placements(s, ops) == if end.record.Some? && end.record.value.leaseId.Some? then 1 else 0
  {
    if ops != [] {
      OnePlacement(s, ops[..|ops| - 1]);
    }
  }

  /** Operation i placed the account that the record names. */
  predicate PlacedAt(s: State, ops: seq<Op>, i: nat, r: Record) {
    && i < |ops| && ops[i].InsertLease? && Accepts(After(s, ops, i), ops[i])
    && Some(ops[i].lease.id) == r.leaseId && ops[i].lease.model == r.model && ops[i].unit == r.unit
    && ops[i].lease.util == r.util
  }

  lemma {:induction false} LeaseWasPlaced(s: State, ops: seq<Op>) returns (i: nat)
    requires s.record.None?
    requires Run(s, ops).record.Some? && Run(s, ops).record.value.leaseId.Some?
    ensures PlacedAt(s, ops, i, Run(s, ops).record.value)
  {
    var n := |ops| - 1;
    var before := Run(s, ops[..n]);
    if ops[n].InsertLease? && Accepts(before, ops[n]) {
      i := n;
    } else {
      i := LeaseWasPlaced(s, ops[..n]);
      StepIsLater(before, ops[n]);
      assert ops[..n][..i] == ops[..i];
    }
  }

  /** Operation j committed the completion, with the account confirmed at that moment. */
  predicate CompletedAt(s: State, ops: seq<Op>, j: nat, r: Record) {
    && j < |ops| && ops[j].Save? && Accepts(After(s, ops, j), ops[j])
    && !ops[j].expected.stage.Terminal() && ops[j].record.stage == Complete
    && Later(ops[j].record, r) && Confirmed(After(s, ops, j), r)
    && Launch in r.effects && Activate in r.effects
  }

  lemma CommitStep(s: State, op: Op)
    requires PhaseOf(s) != Some(Complete) && PhaseOf(Next(s, op)) == Some(Complete)
    ensures op.Save? && Accepts(s, op) && Next(s, op).record == Some(op.record) && Confirmed(s, op.record)
    ensures s.record == Some(op.expected) && !op.expected.stage.Terminal() && CompletionProven(op.record)
  {
  }

  /** The completion was committed once, with the account confirmed at that moment. */
  lemma {:induction false} CompletionCommitted(s: State, ops: seq<Op>) returns (j: nat)
    requires s.record.None? && PhaseOf(Run(s, ops)) == Some(Complete)
    ensures CompletedAt(s, ops, j, Run(s, ops).record.value)
  {
    hide SaveAllowed, Encodable, ReceiptsKept;
    var n := |ops| - 1;
    var before := Run(s, ops[..n]);
    CompletionIsProven(s, ops);
    if PhaseOf(before) == Some(Complete) {
      j := CompletionCommitted(s, ops[..n]);
      assert ops[..n][..j] == ops[..j];
      StepIsLater(before, ops[n]);
      LaterTransitive(ops[j].record, before.record.value, Run(s, ops).record.value);
      SameAccount(After(s, ops, j), before.record.value, Run(s, ops).record.value);
    } else {
      j := n;
      CommitStep(before, ops[n]);
    }
  }

  lemma SameAccount(s: State, r: Record, r': Record)
    requires Confirmed(s, r) && Later(r, r')
    ensures Confirmed(s, r')
  {
  }

  /**
   A completed bootstrap placed exactly one account, for its own model, unit and share; that account was
   confirmed when the completion was committed, and launch and activation are both recorded.
   */
  lemma CompleteMeans(s: State, ops: seq<Op>) returns (i: nat, j: nat)
    requires s.record.None? && PhaseOf(Run(s, ops)) == Some(Complete)
    ensures PlacedAt(s, ops, i, Run(s, ops).record.value) && Placements(s, ops) == 1
    ensures CompletedAt(s, ops, j, Run(s, ops).record.value) && i < j
  {
    hide SaveAllowed, Encodable, ReceiptsKept, EffectsKept, SameIdentity, ValuesKept, ClaimAllowed;
    CompletionIsProven(s, ops);
    OnePlacement(s, ops);
    j := CompletionCommitted(s, ops);
    i := LeaseWasPlaced(s, ops);
    if j <= i {
      PlacedAfterCompletion(s, ops, i, j);
    }
  }

  lemma PlacedAfterCompletion(s: State, ops: seq<Op>, i: nat, j: nat)
    requires j < |ops| && ops[j].Save? && Accepts(After(s, ops, j), ops[j]) && ops[j].record.stage == Complete
    requires i < |ops| && ops[i].InsertLease? && Accepts(After(s, ops, i), ops[i])
    ensures i < j
  {
    hide SaveAllowed, Encodable, ReceiptsKept, EffectsKept, ValuesKept;
    if j < i {
      AfterStep(s, ops, j);
      NothingRegresses(s, ops, j + 1, i);
    }
  }

  lemma {:induction false} CompletionIsProven(s: State, ops: seq<Op>)
    requires s.record.None? && PhaseOf(Run(s, ops)) == Some(Complete)
    ensures CompletionProven(Run(s, ops).record.value)
  {
    var n := |ops| - 1;
    if PhaseOf(Run(s, ops[..n])) == Some(Complete) {
      CompletionIsProven(s, ops[..n]);
      StepIsLater(Run(s, ops[..n]), ops[n]);
    }
  }

  /** A record past placing without a lease: it can only end aborted. */
  predicate Stranded(s: State) {
    s.record.Some? && s.record.value.leaseId.None? && s.record.value.stage.Rank() > Placing.Rank()
  }

  lemma {:induction false} StrandedNeverCompletes(s: State, ops: seq<Op>)
    requires Stranded(s) && s.record.value.stage != Complete
    ensures Stranded(Run(s, ops)) && PhaseOf(Run(s, ops)) != Some(Complete)
  {
    if ops != [] {
      var n := |ops| - 1;
      StrandedNeverCompletes(s, ops[..n]);
      StepIsLater(Run(s, ops[..n]), ops[n]);
    }
  }

  /** Such a record is reachable by saves alone: placing to placed needs no lease. */
  lemma PlacedWithoutLease(s: State, r: Record)
    requires s.record == Some(r) && !s.readOnly && Encodable(r) && r.stage == Placing && r.leaseId.None?
    ensures var r' := r.(stage := Placed); SaveAllowed(s, r, r') && Stranded(Next(s, Save(r, r')))
  {
  }

  // ---- abort, and the accounts of a pending bootstrap ----

  /** While a bootstrap is pending, its own account is the only one in use. */
  predicate OnlyOwnAccount(s: State) {
    Pending(s) ==> forall l | l in s.leases && Live(s.leases[l]) ::
                     && s.record.value.leaseId == Some(l)
                     && s.leases[l].lease.model == s.record.value.model && s.leases[l].unit == s.record.value.unit
  }

  lemma StepKeepsFence(s: State, op: Op)
    requires OnlyOwnAccount(s)
    ensures OnlyOwnAccount(Next(s, op))
  {
    hide Encodable, ReceiptsKept, EffectsKept;
    if Accepts(s, op) && Pending(Next(s, op)) {
      if !op.Claim? {
        assert op.Foreign? || Pending(s);
      }
    }
  }

  lemma {:induction false} AccountsFenced(s: State, ops: seq<Op>)
    requires s.record.None?
    ensures OnlyOwnAccount(Run(s, ops))
  {
    if ops != [] {
      AccountsFenced(s, ops[..|ops| - 1]);
      StepKeepsFence(Run(s, ops[..|ops| - 1]), ops[|ops| - 1]);
    }
  }

  /** A bootstrap that ends aborted had no effect at any time of the run, or its rollback was acknowledged. */
  lemma AbortedMeans(s: State, ops: seq<Op>, i: nat)
    requires s.record.None? && i <= |ops|
    requires PhaseOf(Run(s, ops)) == Some(Aborted) && After(s, ops, i).record.Some?
    ensures After(s, ops, i).record.value.effects == map[] || RollbackProven(Run(s, ops).record.value)
  {
    AbortIsProven(s, ops);
    NothingRegresses(s, ops, i, |ops|);
    assert ops[..|ops|] == ops;
  }

  lemma {:induction false} AbortIsProven(s: State, ops: seq<Op>)
    requires s.record.None? && PhaseOf(Run(s, ops)) == Some(Aborted)
    ensures Run(s, ops).record.value.effects == map[] || RollbackProven(Run(s, ops).record.value)
  {
    var n := |ops| - 1;
    if PhaseOf(Run(s, ops[..n])) == Some(Aborted) {
      AbortIsProven(s, ops[..n]);
    }
  }

  // ---- ownership ----

  /** Reclaiming with a new token takes the capability from every earlier holder until a scope is entered again. */
  lemma {:induction false} ReclaimFences(s: State, expected: Record, actor: Actor, token: string, ops: seq<Op>)
    requires Accepts(s, Reclaim(expected, actor, token))
    requires s.owner.Some? && s.owner.value.1 != token
    requires forall op | op in ops :: !op.Enter? && !op.Leave? && !op.Reclaim?
    ensures var s' := Run(Next(s, Reclaim(expected, actor, token)), ops);
            && !Authorized(s') && s'.owner == s.owner && s'.record.Some? && s'.record.value.token == token
            && forall lease, unit :: !Accepts(s', InsertLease(lease, unit))
  {
    if ops != [] {
      ReclaimFences(s, expected, actor, token, ops[..|ops| - 1]);
    }
  }
}
