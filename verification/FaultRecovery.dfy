/**
 The fenced recovery of llmsvc/faults.py (`_begin`, `_wait_absence`, `_cleanup`) over the durable
 fault table of llmsvc/store.py. The environment answers every external question from a script, and
 may end the process at any of them; the durable table and the ledger survive, local variables do not.
 */
module FaultRecovery {
  import opened Options
  import opened FaultEvidence
  import opened FaultProtocol

  datatype Stage = Claimed | Released | Closed

  datatype FaultClaim = FaultClaim(
    leaseId: string, model: string, unit: string, invocationId: string, gpu: int, reason: Reason,
    stage: Stage, error: Option<string>, proxySubmitted: bool, proxyAcknowledged: bool)

  datatype LeaseRow = LeaseRow(model: string, gpu: int, unit: string, status: string)

  /** What the environment does at the next external question. */
  datatype Answer =
    | Crash
    | Go                                                              // guards, locks, deadlines and configuration hold
    | Refuse(error: string)                                           // one of them does not
    | Probed(observation: UnitObservation)                            // the unit was inspected
    | Collected(usable: bool, snapshot: Snapshot, observation: UnitObservation)  // a whole new round
    | Replied(code: Option<int>)                                      // the answer to a sent request

  /** The durable progress a caller asks `advance_fault` for; every request may also set the error text. */
  datatype Progress = Same | ToReleased | ToSubmitted | ToAcknowledged | ToClosed

  /** How a piece of work ended. */
  datatype End = Done | Raised(error: string) | Died

  predicate IdentityMatches(claim: FaultClaim, o: UnitObservation) {
    ValidInvocation(claim.invocationId) &&
    ((o.exists_ == No && o.exited) ||
     (o.exists_ == Yes && o.leaseId == claim.leaseId && o.invocationId == claim.invocationId
      && (o.active || o.inactive || o.exited)))
  }

  predicate AbsentIn(claim: FaultClaim, snapshot: Snapshot, o: UnitObservation, proxyStopped: bool) {
    var models := Named(snapshot.models, claim.model);
    && |models| == 1 && models[0].unit == Some(claim.unit) && CountUnit(snapshot.models, claim.unit) == 1
    && models[0].unitActive == No && (models[0].gpu == None || models[0].gpu == Some(claim.gpu))
    && o.exited && !o.active
    && (proxyStopped ==> models[0].swapState == "stopped")
  }

  /** The durable fault table, by lease (its primary key). */
  type Table = map<string, FaultClaim>

  /** More was done, and only about this lease. */
  predicate Extends(g: Ledger, g': Ledger, l: string) {
    g <= g' && forall i | |g| <= i < |g'| :: g'[i].lease == l
  }

  /** A row records exactly which effects of its claim the ledger holds. */
  predicate Records(claim: FaultClaim, l: string, g: Ledger) {
    && claim.leaseId == l
    && (Release(l) in g <==> claim.stage != Claimed)
    && (Submit(l) in g <==> claim.proxySubmitted)
    && (Acknowledge(l) in g <==> claim.proxyAcknowledged)
    && (Complete(l) in g <==> claim.stage == Closed)
  }

  ghost predicate Matches(table: Table, g: Ledger) {
    && Lawful(g)
    && (forall l :: Claim(l) in g <==> l in table)
    && (forall l | l in table :: Records(table[l], l, g))
  }

  predicate OneOpenPerModel(table: Table) {
    forall l, k | l in table && k in table && table[l].stage != Closed && table[k].stage != Closed
                  && table[l].model == table[k].model :: l == k
  }

  /** A lease without a row has no effects. */
  lemma Unclaimed(table: Table, g: Ledger, l: string)
    requires Matches(table, g) && l !in table
    ensures forall m | m in g :: m.lease != l
  {
    if m :| m in g && m.lease == l {
      var i :| 0 <= i < |g| && g[i] == m;
      Rooted(g, i);
    }
  }

  /** Claiming a new lease keeps the table and the ledger in step. */
  lemma ClaimMatches(table: Table, g: Ledger, claim: FaultClaim)
    requires Matches(table, g) && claim.leaseId !in table
    requires claim.stage == Claimed && !claim.proxySubmitted && !claim.proxyAcknowledged
    ensures Matches(table[claim.leaseId := claim], g + [Claim(claim.leaseId)])
  {
    hide Lawful;
    var l := claim.leaseId;
    var g' := g + [Claim(l)];
    LawfulAdd(g, Claim(l));
    Unclaimed(table, g, l);
    forall k ensures Claim(k) in g' <==> k in table[l := claim] {
      assert Claim(k) in g' <==> Claim(k) in g || k == l;
    }
    forall k | k in table && k != l ensures Records(table[k], k, g') {
      OtherLease(table[k], k, g, Claim(l));
    }
  }

  /** A mark of one lease says nothing about the row of another. */
  lemma OtherLease(claim: FaultClaim, k: string, g: Ledger, m: Mark)
    requires Records(claim, k, g) && (m.lease != k || m.Stop? || m.Unload? || m.Look? || m.Blank?)
    ensures Records(claim, k, g + [m])
  {
  }

  /** Marks that no row records: the requests sent and the rounds examined. */
  lemma UnrecordedMatches(table: Table, g: Ledger, m: Mark)
    requires Matches(table, g) && Allowed(g, m) && (m.Stop? || m.Unload? || m.Look? || m.Blank?)
    ensures Matches(table, g + [m])
  {
    LawfulAdd(g, m);
    forall k ensures Claim(k) in g + [m] <==> k in table {
      assert Claim(k) in g + [m] <==> Claim(k) in g;
    }
    forall k | k in table ensures Records(table[k], k, g + [m]) {
      OtherLease(table[k], k, g, m);
    }
  }

  /** The mark that a step of durable progress leaves in the ledger. */
  function MarkOf(progress: Progress, l: string): Mark
    requires progress != Same
  {
    match progress
    case ToReleased => Release(l)
    case ToSubmitted => Submit(l)
    case ToAcknowledged => Acknowledge(l)
    case ToClosed => Complete(l)
  }

  function Advanced(claim: FaultClaim, progress: Progress, error: Option<string>): FaultClaim {
    var c := claim.(error := error);
    match progress
    case Same => c
    case ToReleased => c.(stage := Released)
    case ToSubmitted => c.(proxySubmitted := true)
    case ToAcknowledged => c.(proxyAcknowledged := true)
    case ToClosed => c.(stage := Closed)
  }

  /** The tests of `advance_fault` on the claim itself. */
  predicate Acceptable(claim: FaultClaim, progress: Progress) {
    match progress
    case Same => claim.stage != Closed
    case ToReleased => claim.stage == Claimed
    case ToSubmitted => claim.stage == Released && !claim.proxySubmitted
    case ToAcknowledged => claim.stage == Released && claim.proxySubmitted && !claim.proxyAcknowledged
    case ToClosed => claim.stage == Released && claim.proxyAcknowledged
  }

  /** What the ledger must show before a caller may ask for a step. */
  predicate SeenFor(g: Ledger, progress: Progress, l: string) {
    && (progress == ToReleased ==> TwoAbsentRounds(g, l, false))
    && (progress == ToClosed ==> TwoAbsentRounds(g, l, true))
    && (progress == ToAcknowledged ==> Unload(l) in g)
  }

  lemma StillOpen(claim: FaultClaim, progress: Progress)
    requires Acceptable(claim, progress)
    ensures claim.stage != Closed
  {
  }

  lemma SavedOneOpen(table: Table, claim: FaultClaim, progress: Progress, error: Option<string>)
    requires OneOpenPerModel(table) && claim.leaseId in table && table[claim.leaseId] == claim && claim.stage != Closed
    ensures OneOpenPerModel(table[claim.leaseId := Advanced(claim, progress, error)])
  {
  }

  lemma RetoldMatches(table: Table, g: Ledger, claim: FaultClaim, error: Option<string>)
    requires Matches(table, g) && claim.leaseId in table && table[claim.leaseId] == claim
    ensures Matches(table[claim.leaseId := Advanced(claim, Same, error)], g)
  {
  }

  /** The row justifies the mark, and the mark updates the row. */
  lemma ProgressRecords(g: Ledger, claim: FaultClaim, progress: Progress, error: Option<string>)
    requires progress != Same && Acceptable(claim, progress) && SeenFor(g, progress, claim.leaseId)
    requires Records(claim, claim.leaseId, g) && Claim(claim.leaseId) in g
    ensures Allowed(g, MarkOf(progress, claim.leaseId))
    ensures Records(Advanced(claim, progress, error), claim.leaseId, g + [MarkOf(progress, claim.leaseId)])
  {
    hide TwoAbsentRounds;
  }

  lemma ProgressMatches(table: Table, g: Ledger, claim: FaultClaim, progress: Progress, error: Option<string>)
    requires Matches(table, g) && progress != Same && Acceptable(claim, progress)
    requires claim.leaseId in table && table[claim.leaseId] == claim
    requires SeenFor(g, progress, claim.leaseId)
    ensures Matches(table[claim.leaseId := Advanced(claim, progress, error)], g + [MarkOf(progress, claim.leaseId)])
  {
    hide Acceptable, SeenFor, Allowed, Lawful;
    var l := claim.leaseId;
    var m := MarkOf(progress, l);
    assert Records(claim, l, g);
    ProgressRecords(g, claim, progress, error);
    LawfulAdd(g, m);
    forall k ensures Claim(k) in g + [m] <==> k in table {
      assert Claim(k) in g + [m] <==> Claim(k) in g;
    }
    forall k | k in table && k != l ensures Records(table[k], k, g + [m]) {
      OtherLease(table[k], k, g, m);
    }
  }

  class FaultRecoveryController {
    var table: Table                     // durable
    var leases: map<string, LeaseRow>    // durable: the account of each lease
    var script: seq<Answer>              // the environment's future answers
    var cursor: nat                      // whose turn it is
    ghost var ledger: Ledger             // every effect so far

    ghost predicate Valid()
      reads this
    {
      Matches(table, ledger) && OneOpenPerModel(table)
    }

    constructor (leases: map<string, LeaseRow>, script: seq<Answer>)
      ensures Valid() && ledger == [] && this.leases == leases && this.script == script
    {
      table, this.leases, this.script, cursor, ledger := map[], leases, script, 0, [];
    }

    // ---- the environment ----

    /** A check of the lock, the deadline, the options and the configuration. */
    method Guard() returns (end: End)
      modifies this`script
      ensures |script| <= |old(script)| && (end != Died ==> |script| < |old(script)|)
    {
      if script == [] || script[0].Crash? {
        return Died;
      }
      end := if script[0].Refuse? then Raised(script[0].error) else Done;
      script := script[1..];
    }

    method Probe() returns (end: End, observation: UnitObservation)
      modifies this`script
      ensures |script| <= |old(script)| && (end != Died ==> |script| < |old(script)|)
    {
      observation := UnitObservation(Unknown, false, false, "", "", false);
      if script == [] || script[0].Crash? {
        return Died, observation;
      }
      end := if script[0].Refuse? then Raised(script[0].error) else Done;
      if script[0].Probed? {
        observation := script[0].observation;
      }
      script := script[1..];
    }

    /** The reply to a request already sent; None when none came. */
    method Reply() returns (end: End, code: Option<int>)
      modifies this`script
      ensures |script| <= |old(script)| && (end != Died ==> |script| < |old(script)|)
    {
      if script == [] || script[0].Crash? {
        return Died, None;
      }
      end := if script[0].Refuse? then Raised(script[0].error) else Done;
      code := if script[0].Replied? then script[0].code else None;
      script := script[1..];
    }

    // ---- the durable table ----

    predicate ClaimCurrent(claim: FaultClaim)
      reads this
    {
      && claim.leaseId in table && table[claim.leaseId] == claim && claim.stage != Closed
      && claim.leaseId in leases
      && leases[claim.leaseId].model == claim.model && leases[claim.leaseId].gpu == claim.gpu
      && leases[claim.leaseId].unit == claim.unit
      && leases[claim.leaseId].status == (if claim.stage == Claimed then "confirmed" else "released")
    }

    /**
     `claim_fault`: insert a new claim; a lease can be claimed once, and a model has one open claim. `unblocked`
     says that no sleeping recovery of the model is pending and that the catalog allows accounting.
     */
    method ClaimFault(claim: FaultClaim, unblocked: bool) returns (ok: bool)
      requires Valid()
      requires claim.stage == Claimed && !claim.proxySubmitted && !claim.proxyAcknowledged
      modifies this`table, this`ledger
      ensures Valid()
      ensures ok <==> && unblocked && claim.leaseId in leases
                      && leases[claim.leaseId] == LeaseRow(claim.model, claim.gpu, claim.unit, "confirmed")
                      && claim.leaseId !in old(table)
                      && forall l | l in old(table) :: old(table)[l].model == claim.model ==> old(table)[l].stage == Closed
      ensures ok ==> table == old(table)[claim.leaseId := claim] && ledger == old(ledger) + [Claim(claim.leaseId)]
      ensures !ok ==> table == old(table) && ledger == old(ledger)
    {
      hide Matches, Lawful;
      if !unblocked || claim.leaseId !in leases
         || leases[claim.leaseId] != LeaseRow(claim.model, claim.gpu, claim.unit, "confirmed") || claim.leaseId in table
         || exists l | l in table :: table[l].model == claim.model && table[l].stage != Closed {
        return false;
      }
      ClaimMatches(table, ledger, claim);
      assert OneOpenPerModel(table[claim.leaseId := claim]);
      table := table[claim.leaseId := claim];
      ledger := ledger + [Claim(claim.leaseId)];
      return true;
    }

    /** `advance_fault`: compare-and-save of the claim's next progress. */
    method AdvanceFault(claim: FaultClaim, progress: Progress, error: Option<string>)
      returns (end: End, updated: FaultClaim)
      requires Valid()
      requires SeenFor(ledger, progress, claim.leaseId)
      modifies this`table, this`leases, this`ledger, this`script
      ensures Valid() && |script| <= |old(script)| && (end != Died ==> |script| < |old(script)|)
      ensures end != Done ==> updated == claim && ledger == old(ledger) && table == old(table) && leases == old(leases)
      ensures end == Done ==>
                && old(ClaimCurrent(claim)) && Acceptable(claim, progress)
                && updated == Advanced(claim, progress, error) && table == old(table)[claim.leaseId := updated]
                && ledger == old(ledger) + (if progress == Same then [] else [MarkOf(progress, claim.leaseId)])
                && leases == (if progress == ToReleased
                              then old(leases)[claim.leaseId := old(leases)[claim.leaseId].(status := "released")]
                              else old(leases))
    {
      updated := claim;
      end := Guard();
      if end != Done {
        return;
      }
      if !Acceptable(claim, progress) || !ClaimCurrent(claim) {
        return Raised("invalid fault transition"), claim;
      }
      Save(claim, progress, error);
      updated := Advanced(claim, progress, error);
    }

    /** The transaction of `advance_fault`: the claim's row, and the account it releases. */
    method Save(claim: FaultClaim, progress: Progress, error: Option<string>)
      requires Valid() && SeenFor(ledger, progress, claim.leaseId)
      requires ClaimCurrent(claim) && Acceptable(claim, progress)
      modifies this`table, this`leases, this`ledger
      ensures Valid() && table == old(table)[claim.leaseId := Advanced(claim, progress, error)]
      ensures ledger == old(ledger) + (if progress == Same then [] else [MarkOf(progress, claim.leaseId)])
      ensures leases == if progress == ToReleased
                        then old(leases)[claim.leaseId := old(leases)[claim.leaseId].(status := "released")]
                        else old(leases)
    {
      hide Acceptable, SeenFor, Lawful, OneOpenPerModel, Records;
      var l := claim.leaseId;
      StillOpen(claim, progress);
      SavedOneOpen(table, claim, progress, error);
      if progress == Same {
        RetoldMatches(table, ledger, claim, error);
      } else {
        ProgressMatches(table, ledger, claim, progress, error);
        ledger := ledger + [MarkOf(progress, l)];
      }
      if progress == ToReleased {
        leases := leases[l := leases[l].(status := "released")];
      }
      table := table[l := Advanced(claim, progress, error)];
    }

    // ---- the protocol ----

    ghost method Note(m: Mark)
      requires Valid() && Allowed(ledger, m) && (m.Stop? || m.Unload? || m.Look? || m.Blank?)
      modifies this`ledger
      ensures Valid() && ledger == old(ledger) + [m]
    {
      UnrecordedMatches(table, ledger, m);
      ledger := ledger + [m];
    }

    /** `_begin`: make a proven fault a durable claim, then send the unit stop once. */
    method Begin(claim: FaultClaim) returns (end: End, stopError: Option<string>)
      requires Valid()
      requires claim.stage == Claimed && !claim.proxySubmitted && !claim.proxyAcknowledged
      modifies this`table, this`leases, this`ledger, this`script
      ensures Valid() && |script| <= |old(script)| && leases == old(leases)
      ensures || ledger == old(ledger)
              || ledger == old(ledger) + [Claim(claim.leaseId)]
              || ledger == old(ledger) + [Claim(claim.leaseId), Stop(claim.leaseId)]
      ensures table == if ledger == old(ledger) then old(table) else old(table)[claim.leaseId := claim]
      ensures end == Done ==> ledger != old(ledger)
    {
      hide Matches, OneOpenPerModel, Lawful, IdentityMatches, TwoAbsentRounds;
      stopError := None;
      end := Guard();  // the proof is current, the configuration unchanged
      if end != Done {
        return;
      }
      var observation;
      end, observation := Probe();
      if end != Done {
        return;
      }
      if !IdentityMatches(claim, observation) {
        return Raised("fault_unit_identity_changed"), None;
      }
      end := Guard();  // the proof is still current
      if end != Done {
        return;
      }
      end := Guard();  // no sleeping recovery is pending, the catalog allows accounting
      if end == Died {
        return;
      }
      var claimed := ClaimFault(claim, end == Done);
      if !claimed {
        return Raised("fault account changed"), None;
      }
      end := Guard();
      if end == Died {
        return;
      }
      if end != Done {
        return Done, Some("fault_stop_not_submitted");
      }
      if observation.exists_ != No {
        assert Stop(claim.leaseId) !in ledger by {
          Unclaimed(old(table), old(ledger), claim.leaseId);
        }
        Note(Stop(claim.leaseId));
        var code;
        end, code := Reply();
        if end == Died {
          return;
        }
        stopError := if end != Done then Some("fault_stop_error")
                     else if code != Some(0) then Some("fault_stop_rejected") else None;
      }
      return Done, stopError;
    }

    /** `_wait_absence`: look at fresh rounds until two in a row, with rising samples, show the unit gone. */
    method WaitAbsence(claim: FaultClaim, proxyStopped: bool) returns (end: End)
      requires Valid() && Claim(claim.leaseId) in ledger
      requires proxyStopped ==> Acknowledge(claim.leaseId) in ledger
      modifies this`script, this`ledger
      ensures Valid() && |script| <= |old(script)| && Extends(old(ledger), ledger, claim.leaseId)
      ensures end == Done ==> TwoAbsentRounds(ledger, claim.leaseId, proxyStopped)
    {
      hide Matches, OneOpenPerModel, Lawful, AbsentIn, IdentityMatches;
      var last: Option<real> := None;
      var found := false;
      end := Done;
      while !found && end == Done
        invariant Valid() && |script| <= |old(script)| && Extends(old(ledger), ledger, claim.leaseId)
        invariant last.Some? ==>
                    ledger != [] && ledger[|ledger| - 1] == Look(claim.leaseId, proxyStopped, true, last.value)
        invariant found ==> TwoAbsentRounds(ledger, claim.leaseId, proxyStopped)
        decreases !found && end == Done, |script|
      {
        end := Guard();
        if end == Done && !ClaimCurrent(claim) {
          end := Raised("fault_claim_or_configuration_changed");
        }
        if end == Done {
          end, last, found := LookOnce(claim, proxyStopped, last);
        }
      }
    }

    /** One iteration of `_wait_absence`. */
    method LookOnce(claim: FaultClaim, proxyStopped: bool, last: Option<real>)
      returns (end: End, seen: Option<real>, found: bool)
      requires Valid() && Claim(claim.leaseId) in ledger
      requires proxyStopped ==> Acknowledge(claim.leaseId) in ledger
      requires last.Some? ==> ledger != [] && ledger[|ledger| - 1] == Look(claim.leaseId, proxyStopped, true, last.value)
      modifies this`script, this`ledger
      ensures Valid() && |script| <= |old(script)| && Extends(old(ledger), ledger, claim.leaseId)
      ensures found ==> TwoAbsentRounds(ledger, claim.leaseId, proxyStopped)
      ensures seen.Some? ==> ledger != [] && ledger[|ledger| - 1] == Look(claim.leaseId, proxyStopped, true, seen.value)
    {
      hide Matches, OneOpenPerModel, Lawful, AbsentIn, IdentityMatches, TwoAbsentRounds;
      seen, found := None, false;
      if script == [] || script[0].Crash? {
        return Died, seen, found;
      }
      var answer := script[0];
      script := script[1..];
      if !answer.Collected? {
        return Raised("fault_deadline_exceeded"), seen, found;
      }
      var sampled := answer.snapshot.sampledAt;
      if !ClaimCurrent(claim) {
        end := Raised("fault_claim_or_configuration_changed");
      } else if !answer.usable || !Known(sampled) {
        Note(Blank(claim.leaseId));
        end := Done;
      } else if !IdentityMatches(claim, answer.observation) {
        end := Raised("fault_unit_identity_unknown_or_changed");
      } else {
        var absent := AbsentIn(claim, answer.snapshot, answer.observation, proxyStopped);
        Note(Look(claim.leaseId, proxyStopped, absent, sampled.value));
        end := Done;
        found := absent && last.Some? && sampled.value > last.value;
        if found {
          TwoLooks(old(ledger), claim.leaseId, proxyStopped, last.value, sampled.value);
        }
        seen := if absent then sampled else None;
      }
    }

    /** The body of `_cleanup`: everything that may raise. `current` is the claim as last saved. */
    method Settle(claim: FaultClaim, error: Option<string>, newlySubmitted: bool) returns (end: End, current: FaultClaim)
      requires Valid() && Claim(claim.leaseId) in ledger
      modifies this`table, this`leases, this`ledger, this`script
      ensures Valid() && |script| <= |old(script)| && Extends(old(ledger), ledger, claim.leaseId)
      ensures current.leaseId == claim.leaseId
      // an announced but unacknowledged unload is never sent again, nor taken for done
      ensures claim.proxySubmitted && !claim.proxyAcknowledged ==>
                end != Done && current == claim && ledger == old(ledger) && table == old(table) && leases == old(leases)
      ensures end == Done ==> Complete(claim.leaseId) in ledger
    {
      hide Matches, OneOpenPerModel, Lawful, AbsentIn, IdentityMatches, TwoAbsentRounds, Acceptable;
      current := claim;
      if claim.proxySubmitted && !claim.proxyAcknowledged {
        return Raised("fault_proxy_outcome_unknown"), current;
      }
      end, current := ReleaseAccount(claim, error, newlySubmitted);
      if end == Done && !current.proxySubmitted {
        end, current := SendUnload(current, error);
      }
      if end == Done {
        end, current := CloseClaim(current, error);
      }
    }

    /** See the unit and its proxy gone twice more, then close the claim. */
    method CloseClaim(claim: FaultClaim, error: Option<string>) returns (end: End, current: FaultClaim)
      requires Valid() && ClaimCurrent(claim) && claim.proxyAcknowledged
      modifies this`table, this`leases, this`ledger, this`script
      ensures Valid() && |script| <= |old(script)| && Extends(old(ledger), ledger, claim.leaseId)
      ensures current.leaseId == claim.leaseId && (end == Done ==> Complete(claim.leaseId) in ledger)
    {
      hide Matches, OneOpenPerModel, Lawful, AbsentIn, IdentityMatches, TwoAbsentRounds;
      current := claim;
      RowMarks(table, ledger, claim);
      end := WaitAbsence(claim, true);
      if end == Done {
        end := Confirm(claim);
      }
      if end == Done {
        end, current := AdvanceFault(claim, ToClosed, error);
      }
    }

    /** Observe the exit and release the account, unless an earlier attempt already did. */
    method ReleaseAccount(claim: FaultClaim, error: Option<string>, newlySubmitted: bool)
      returns (end: End, current: FaultClaim)
      requires Valid() && Claim(claim.leaseId) in ledger
      modifies this`table, this`leases, this`ledger, this`script
      ensures Valid() && |script| <= |old(script)| && Extends(old(ledger), ledger, claim.leaseId)
      ensures current.leaseId == claim.leaseId
      ensures current.proxySubmitted == claim.proxySubmitted && current.proxyAcknowledged == claim.proxyAcknowledged
      ensures end == Done ==> ClaimCurrent(current)
    {
      hide Matches, OneOpenPerModel, Lawful, AbsentIn, IdentityMatches, TwoAbsentRounds;
      current := claim;
      end := Done;
      if claim.stage == Claimed && !newlySubmitted {
        end := Confirm(claim);
      }
      if end == Done {
        end := WaitAbsence(claim, false);
      }
      if end == Done && claim.stage == Claimed {
        end, current := AdvanceFault(claim, ToReleased, error);
      }
      if end == Done {
        end := Confirm(current);
      }
    }

    /** The claim is still the durable one and the unit still exited, under its own identity. */
    method Confirm(claim: FaultClaim) returns (end: End)
      modifies this`script
      ensures |script| <= |old(script)| && (end != Died ==> |script| < |old(script)|)
      ensures end == Done ==> ClaimCurrent(claim)
    {
      end := Guard();
      if end != Done {
        return;
      }
      if !ClaimCurrent(claim) {
        return Raised("fault_claim_or_configuration_changed");
      }
      var observation;
      end, observation := Probe();
      if end == Done && (!IdentityMatches(claim, observation) || !observation.exited || observation.active) {
        end := Raised("fault_unit_identity_unknown_or_changed");
      }
    }

    /** Announce the unload durably, send it once, and record its acceptance. */
    method SendUnload(claim: FaultClaim, error: Option<string>) returns (end: End, current: FaultClaim)
      requires Valid() && !claim.proxySubmitted
      modifies this`table, this`leases, this`ledger, this`script
      ensures Valid() && |script| <= |old(script)| && Extends(old(ledger), ledger, claim.leaseId)
      ensures current.leaseId == claim.leaseId
      ensures end == Done ==> ClaimCurrent(current) && current.proxySubmitted && current.proxyAcknowledged
    {
      hide Matches, OneOpenPerModel, Lawful, AbsentIn, IdentityMatches;
      end, current := AdvanceFault(claim, ToSubmitted, error);
      if end != Done {
        return;
      }
      end := Guard();
      if end != Done {
        return;
      }
      if !ClaimCurrent(current) {
        return Raised("fault_claim_or_configuration_changed"), current;
      }
      UnloadNotSent(old(table), old(ledger), claim);
      end := Deliver(claim.leaseId);
      if end == Done {
        end, current := AcknowledgeUnload(current, error);
      }
    }

    /** Record the acceptance of the unload, while the unit is still gone. */
    method AcknowledgeUnload(claim: FaultClaim, error: Option<string>) returns (end: End, current: FaultClaim)
      requires Valid() && claim.proxySubmitted && Unload(claim.leaseId) in ledger
      modifies this`table, this`leases, this`ledger, this`script
      ensures Valid() && |script| <= |old(script)| && Extends(old(ledger), ledger, claim.leaseId)
      ensures current.leaseId == claim.leaseId
      ensures end == Done ==> ClaimCurrent(current) && current.proxySubmitted && current.proxyAcknowledged
    {
      hide Matches, OneOpenPerModel, Lawful, AbsentIn, IdentityMatches;
      current := claim;
      end := Confirm(claim);
      if end == Done {
        end, current := AdvanceFault(claim, ToAcknowledged, error);
      }
    }

    /** Send the unload, and have it accepted. */
    method Deliver(l: string) returns (end: End)
      requires Valid() && Allowed(ledger, Unload(l))
      modifies this`ledger, this`script
      ensures Valid() && |script| <= |old(script)| && ledger == old(ledger) + [Unload(l)]
    {
      hide Matches, OneOpenPerModel, Lawful;
      Note(Unload(l));
      var code;
      end, code := Reply();
      if end == Done && (code == None || !(200 <= code.value < 300)) {
        end := Raised("fault_proxy_unload_rejected");
      }
    }

    /** `_cleanup`: settle the claim, and save the error of an attempt that raised. */
    method Cleanup(claim: FaultClaim, error: Option<string>, newlySubmitted: bool)
      requires Valid() && Claim(claim.leaseId) in ledger
      modifies this`table, this`leases, this`ledger, this`script
      ensures Valid() && Extends(old(ledger), ledger, claim.leaseId)
      ensures claim.proxySubmitted && !claim.proxyAcknowledged ==> ledger == old(ledger)
    {
      var end, current := Settle(claim, error, newlySubmitted);
      if end.Raised? && ClaimCurrent(current) && current.error != Some(end.error) {
        var saved;
        end, saved := AdvanceFault(current, Same, Some(end.error));
      }
    }

    /**
     `run_once`: of the retained claims, as they are listed, and then the new proofs, the one whose turn it is.
     Nothing is done about any other.
     */
    method RunOnce(retained: seq<string>, proofs: seq<FaultClaim>)
      requires Valid() && forall l | l in retained :: l in table && table[l].stage != Closed
      requires forall p | p in proofs :: p.stage == Claimed && !p.proxySubmitted && !p.proxyAcknowledged
      modifies this
      ensures Valid()
      ensures retained == [] && proofs == [] ==> ledger == old(ledger) && table == old(table) && cursor == old(cursor)
      ensures retained != [] || proofs != [] ==>
                cursor == old(cursor) + 1 && Extends(old(ledger), ledger, TurnOf(retained, proofs, old(cursor)))
    {
      hide Matches, OneOpenPerModel, Lawful;
      var n := |retained| + |proofs|;
      if n == 0 {
        return;
      }
      var turn := cursor % n;
      cursor := cursor + 1;
      if turn < |retained| {
        Listed(table, ledger, retained[turn]);
        Cleanup(table[retained[turn]], None, false);
      } else {
        var proven := proofs[turn - |retained|];
        var end, stopError := Begin(proven);
        if end == Done {
          Cleanup(proven, stopError, true);
        }
      }
    }
  }

  lemma Listed(table: Table, g: Ledger, l: string)
    requires Matches(table, g) && l in table
    ensures table[l].leaseId == l && Claim(l) in g
  {
    hide Lawful;
    assert Records(table[l], l, g);
  }

  /** The lease whose turn it is. */
  function TurnOf(retained: seq<string>, proofs: seq<FaultClaim>, cursor: nat): string
    requires retained != [] || proofs != []
  {
    var turn := cursor % (|retained| + |proofs|);
    if turn < |retained| then retained[turn] else proofs[turn - |retained|].leaseId
  }

  /** While the work stays the same, every claim and every proof has its turn once in as many cycles as there are. */
  lemma EveryTurnComes(retained: seq<string>, proofs: seq<FaultClaim>, cursor: nat, l: string) returns (j: nat)
    requires l in retained || exists p :: p in proofs && p.leaseId == l
    ensures j < |retained| + |proofs| && TurnOf(retained, proofs, cursor + j) == l
  {
    var n := |retained| + |proofs|;
    var i: nat;
    if l in retained {
      i :| 0 <= i < |retained| && retained[i] == l;
    } else {
      var k :| 0 <= k < |proofs| && proofs[k].leaseId == l;
      i := |retained| + k;
    }
    j := Ahead(i, cursor, n);
  }

  lemma Ahead(i: nat, cursor: nat, n: nat) returns (j: nat)
    requires i < n
    ensures j < n && (cursor + j) % n == i
  {
    var q, t := cursor / n, cursor % n;
    assert cursor == q * n + t;
    if i >= t {
      j := i - t;
      Wraps(i, q, n, cursor + j);
    } else {
      j := i - t + n;
      assert (q + 1) * n == q * n + n;
      Wraps(i, q + 1, n, cursor + j);
    }
  }

  lemma Wraps(i: nat, q: int, n: nat, x: int)
    requires i < n && x == q * n + i
    ensures x % n == i
  {
    var d, r := x / n, x % n;
    assert x == d * n + r && d * n == q * n + (d - q) * n;
    if d != q {
      Apart(if d > q then d - q else q - d, n);
    }
  }

  lemma {:induction false} Apart(k: nat, n: nat)
    requires k > 0
    ensures k * n >= n
  {
    if k > 1 {
      Apart(k - 1, n);
      assert k * n == (k - 1) * n + n;
    }
  }

  lemma TwoLooks(g: Ledger, l: string, proxyStopped: bool, first: real, second: real)
    requires g != [] && g[|g| - 1] == Look(l, proxyStopped, true, first) && first < second
    ensures TwoAbsentRounds(g + [Look(l, proxyStopped, true, second)], l, proxyStopped)
  {
  }

  /** What the row of a claim says about the ledger. */
  lemma RowMarks(table: Table, g: Ledger, claim: FaultClaim)
    requires Matches(table, g) && claim.leaseId in table && table[claim.leaseId] == claim
    ensures Claim(claim.leaseId) in g && (claim.proxyAcknowledged ==> Acknowledge(claim.leaseId) in g)
  {
  }

  /** An unload is only ever sent after it was announced. */
  lemma UnloadNotSent(table: Table, g: Ledger, claim: FaultClaim)
    requires Matches(table, g) && claim.leaseId in table && table[claim.leaseId] == claim && !claim.proxySubmitted
    ensures Unload(claim.leaseId) !in g
  {
    if Unload(claim.leaseId) in g {
      var i :| 0 <= i < |g| && g[i] == Unload(claim.leaseId);
      var j := Earlier(g, i);
    }
  }

  /** After any run, whatever crashed or failed in it, no request of a claim was sent twice, nor its account released twice. */
  lemma SentAtMostOnce(c: FaultRecoveryController, l: string)
    requires c.Valid()
    ensures Count(c.ledger, Stop(l)) <= 1 && Count(c.ledger, Unload(l)) <= 1 && Count(c.ledger, Release(l)) <= 1
  {
    AtMostOnce(c.ledger, Stop(l));
    AtMostOnce(c.ledger, Unload(l));
    AtMostOnce(c.ledger, Release(l));
  }

  /** A closed row went through the whole protocol, in order; a released one was seen absent twice before its release. */
  lemma ClosedMeans(c: FaultRecoveryController, l: string) returns (r: nat, u: nat, f: nat)
    requires c.Valid() && l in c.table && c.table[l].stage == Closed
    ensures r < u < f - 2 && f < |c.ledger| && c.ledger[r] == Release(l) && c.ledger[u] == Unload(l)
    ensures c.ledger[f] == Complete(l)
    ensures TwoAbsentRounds(c.ledger[..r], l, false) && TwoAbsentRounds(c.ledger[..f], l, true)
  {
    hide Lawful, TwoAbsentRounds;
    assert Records(c.table[l], l, c.ledger);
    var claimed, released, announced, unloaded, acknowledged, closed := CompletionHistory(c.ledger, l);
    r, u, f := released, unloaded, closed;
  }
}
