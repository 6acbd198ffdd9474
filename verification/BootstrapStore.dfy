/** The store side of llmsvc/bootstrap_state.py: methods that check, then write, the durable record. */
module BootstrapStore {
  import opened Options
  import opened BootstrapRecord
  import opened BootstrapState

  class Store {
    var record: Option<Record>
    var leases: map<string, Row>
    var owner: Option<(string, string)>
    var readOnly: bool
    var clean: bool
    ghost const initial: State
    ghost var ops: seq<Op>  // every call so far

    function View(): State
      reads this
    {
      State(record, leases, owner, readOnly, clean)
    }

    /** The store holds what its whole run of calls leads to. */
    ghost predicate Valid()
      reads this
    {
      initial.record.None? && View() == Run(initial, ops)
    }

    constructor (leases: map<string, Row>, readOnly: bool, clean: bool)
      ensures Valid() && ops == [] && View() == State(None, leases, None, readOnly, clean)
    {
      record, this.leases, owner, this.readOnly, this.clean := None, leases, None, readOnly, clean;
      initial, ops := State(None, leases, None, readOnly, clean), [];
    }

    /** Remember a call, for the specification only. */
    ghost method Append(op: Op)
      requires initial.record.None? && View() == Next(Run(initial, ops), op)
      modifies this`ops
      ensures Valid() && ops == old(ops) + [op]
    {
      hide Next, Accepts, Encodable;
      ops := ops + [op];
      assert ops[..|ops| - 1] == old(ops);
    }

    method ClaimBootstrap(r: Record) returns (ok: bool)
      requires Valid()
      modifies this`record, this`ops
      ensures Valid() && ops == old(ops) + [Claim(r)]
      ensures ok == Accepts(old(View()), Claim(r)) && View() == Next(old(View()), Claim(r))
    {
      hide Encodable;
      ok := Encodable(r) && !readOnly && record.None? && clean && (forall l | l in leases :: !Live(leases[l]));
      if ok && (r.stage != Claimed || r.leaseId.Some? || r.effects != map[] || r.catalogPresent) {
        ok := false;
      }
      if ok {
        record := Some(r);
      }
      Append(Claim(r));
    }

    method SaveBootstrap(expected: Record, r: Record) returns (ok: bool)
      requires Valid()
      modifies this`record, this`ops
      ensures Valid() && ops == old(ops) + [Save(expected, r)]
      ensures ok == Accepts(old(View()), Save(expected, r)) && View() == Next(old(View()), Save(expected, r))
    {
      ok := Saveable(expected, r);
      if ok {
        record := Some(r);
      }
      Append(Save(expected, r));
    }

    /** The tests of `save`, in its order. */
    method Saveable(expected: Record, r: Record) returns (ok: bool)
      ensures ok == SaveAllowed(View(), expected, r)
    {
      hide Encodable;
      if !Encodable(r) {
        return false;
      }
      if !SameIdentity(expected, r) || expected.actor != r.actor || expected.token != r.token
         || expected.leaseId != r.leaseId {
        return false;
      }
      var before, after := expected.stage, r.stage;
      var recovered := before == StartSubmitted && after == HealthObserved && Get(r.migration, "default_observed").Object?;
      if before != after && !recovered
         && (before == Complete || before == Aborted || (after != Aborted && after.Rank() != before.Rank() + 1)) {
        return false;
      }
      if exists e | e in expected.effects ::
           e !in r.effects || (expected.effects[e] == Acknowledged && r.effects[e] != Acknowledged) {
        return false;
      }
      if exists k | k in expected.migration :: Get(r.migration, k) != expected.migration[k] {
        return false;
      }
      if readOnly || record != Some(expected) {
        return false;
      }
      if after == Aborted {
        if exists l | l in leases :: Live(leases[l]) {
          return false;
        }
        if r.effects != map[] && (Rollback !in r.effects || r.effects[Rollback] != Acknowledged) {
          return false;
        }
      }
      if after == Complete {
        if r.leaseId.None? || r.leaseId.value !in leases {
          return false;
        }
        var row := leases[r.leaseId.value];
        if row.lease.status != "confirmed" || row.lease.model != r.model || row.unit != r.unit {
          return false;
        }
      }
      return true;
    }

    /** `insert_lease`: one transaction writes the account and attaches it to the record. */
    method PlaceLease(lease: Lease, unit: string) returns (ok: bool)
      requires Valid()
      modifies this`record, this`leases, this`ops
      ensures Valid() && ops == old(ops) + [InsertLease(lease, unit)]
      ensures ok == Accepts(old(View()), InsertLease(lease, unit))
      ensures View() == Next(old(View()), InsertLease(lease, unit))
    {
      hide Encodable;
      ok := false;
      if record.Some? && owner == Some((record.value.id, record.value.token)) && record.value.stage == Placing
         && record.value.leaseId.None? && lease.model == record.value.model && unit == record.value.unit
         && lease.util == record.value.util && lease.status == "pending" && !readOnly && lease.id !in leases {
        var attached := record.value.(stage := Placed, leaseId := Some(lease.id));
        if Encodable(attached) {
          leases := leases[lease.id := Row(lease, unit)];
          record := Some(attached);
          ok := true;
        }
      }
      Append(InsertLease(lease, unit));
    }

    method ReclaimBootstrap(expected: Record, actor: Actor, token: string) returns (ok: bool)
      requires Valid()
      modifies this`record, this`ops
      ensures Valid() && ops == old(ops) + [Reclaim(expected, actor, token)]
      ensures ok == Accepts(old(View()), Reclaim(expected, actor, token))
      ensures View() == Next(old(View()), Reclaim(expected, actor, token))
    {
      hide Encodable;
      var next := expected.(actor := actor, token := token);
      ok := Encodable(next) && !readOnly && record == Some(expected);
      if ok {
        record := Some(next);
      }
      Append(Reclaim(expected, actor, token));
    }

    /** Entering `scope`: the previous capability is returned, to be restored on leaving. */
    method EnterScope(id: string) returns (ok: bool, previous: Option<(string, string)>)
      requires Valid()
      modifies this`owner, this`ops
      ensures Valid() && ops == old(ops) + [Enter(id)] && previous == old(owner)
      ensures ok == Accepts(old(View()), Enter(id)) && View() == Next(old(View()), Enter(id))
    {
      previous := owner;
      ok := record.Some? && record.value.id == id;
      if ok {
        owner := Some((id, record.value.token));
      }
      Append(Enter(id));
    }

    method LeaveScope(previous: Option<(string, string)>)
      requires Valid()
      modifies this`owner, this`ops
      ensures Valid() && ops == old(ops) + [Leave(previous)] && View() == Next(old(View()), Leave(previous))
    {
      owner := previous;
      Append(Leave(previous));
    }

    /**
     `transition_lease` (llmsvc/store.py); `unblocked` says that no fault, sleeping recovery or catalog
     reconciliation forbids the accounting.
     */
    method TransitionLease(leaseId: string, status: string, unblocked: bool) returns (ok: bool)
      requires Valid()
      modifies this`leases, this`ops
      ensures Valid() && ops == old(ops) + [Transition(leaseId, status, unblocked)]
      ensures ok == Accepts(old(View()), Transition(leaseId, status, unblocked))
      ensures View() == Next(old(View()), Transition(leaseId, status, unblocked))
    {
      ok := unblocked && !readOnly && leaseId in leases && Live(leases[leaseId])
            && status in {"confirmed", "stale", "released"};
      if ok && record.Some? && !record.value.stage.Terminal()
         && (record.value.leaseId != Some(leaseId) || owner != Some((record.value.id, record.value.token))) {
        ok := false;
      }
      if ok {
        leases := leases[leaseId := leases[leaseId].(lease := leases[leaseId].lease.(status := status))];
      }
      Append(Transition(leaseId, status, unblocked));
    }
  }
}
