/**
 The controller of llmsvc/bootstrap.py: `run`, `recover` and the launcher's progress callback, as durable
 saves and external requests with a possible crash at every question put to the environment. A crash
 drops the local variables and keeps the store; the multiset of requests sent is remembered for the proof.
 */
module Bootstrap {
  import opened Options
  import opened BootstrapRecord
  import opened BootstrapState
  import opened BootstrapStore

  /** The environment's next answer. */
  datatype Answer =
    | Crash
    | Go(proof: Json)                              // guards hold, a request was answered with this proof
    | Refuse                                       // an observation, deadline or comparison failed
    | Report(stage: string, leaseId: Option<string>, observed: Json)  // the launcher calls `progress`
    | Place(lease: Lease, unit: string)            // the launcher asks for its account over HTTP
    | Confirm                                      // the launcher asks to confirm it
    | Release                                      // or to release it, after a failed start
    | Exit(code: int)                              // the launcher returns

  datatype End = Done | Raised | Died

  datatype Mode = Observe | Resume | Undo

  /** Which effects a record may hold in which phase; every record the controller writes satisfies it. */
  predicate PhaseEffects(r: Record) {
    && (Launch in r.effects <==> StartSubmitted.Rank() <= r.stage.Rank() <= Complete.Rank())
    && (Activate in r.effects ==> r.stage == ActivateSubmitted || r.stage == Complete)
  }

  /** Each effect was sent at most once, and only one that the durable record already holds. */
  predicate Fenced(sent: multiset<Effect>, record: Option<Record>) {
    && (forall e :: sent[e] <= 1)
    && (forall e | e in sent :: record.Some? && e in record.value.effects)
    && (record.Some? ==> PhaseEffects(record.value))
  }

  lemma FencedGrows(sent: multiset<Effect>, s: State, op: Op)
    requires Fenced(sent, s.record)
    requires Accepts(s, op) && op.Save? ==> PhaseEffects(op.record)
    ensures Fenced(sent, Next(s, op).record)
  {
    if s.record.Some? {
      StepIsLater(s, op);
    }
  }

  lemma NothingSent(sent: multiset<Effect>)
    requires Fenced(sent, None)
    ensures sent == multiset{}
  {
    assert forall e :: e !in sent;
  }

  /** The phase of a launcher report; "confirmed" is the only one with another name. */
  function ReportPhase(stage: string): (phase: Option<Phase>)
    ensures phase.Some? ==> Placing.Rank() <= phase.value.Rank() <= DefaultConfirmed.Rank() && phase.value != Placed
  {
    if stage == "placing" then Some(Placing)
    else if stage == "start_submitted" then Some(StartSubmitted)
    else if stage == "start_acknowledged" then Some(StartAcknowledged)
    else if stage == "health_observed" then Some(HealthObserved)
    else if stage == "confirm_submitted" then Some(ConfirmSubmitted)
    else if stage == "confirmed" then Some(DefaultConfirmed)
    else None
  }

  /** The record a launcher report asks to save. */
  function Reported(r: Record, phase: Phase, observed: Json): Record {
    match phase
    case StartSubmitted => r.(stage := phase, effects := r.effects[Launch := Submitted])
    case StartAcknowledged => r.(stage := phase, effects := r.effects[Launch := Acknowledged])
    case DefaultConfirmed => r.(stage := phase, migration := r.migration["default_observed" := observed])
    case _ => r.(stage := phase)
  }

  /** A report the save accepts keeps phases and effects in step. */
  lemma ReportPhases(s: State, r: Record, phase: Phase, observed: Json)
    requires PhaseEffects(r) && Placing.Rank() <= phase.Rank() <= DefaultConfirmed.Rank() && phase != Placed
    ensures var next := Reported(r, phase, observed);
            SaveAllowed(s, r, next) ==>
              PhaseEffects(next) && (Launch in next.effects ==> Launch in r.effects || phase == StartSubmitted)
  {
    hide Encodable, Confirmed, EffectsKept, ReceiptsKept, SameIdentity, NoAccounts;
  }

  class BootstrapController {
    const store: Store
    var script: seq<Answer>
    var busy: bool
    ghost var sent: multiset<Effect>

    ghost predicate Valid()
      reads this, store
    {
      store.Valid() && Fenced(sent, store.record)
    }

    constructor (store: Store, script: seq<Answer>)
      requires store.Valid() && store.record.None?
      ensures Valid() && this.store == store && sent == multiset{}
    {
      this.store, this.script, busy, sent := store, script, false, multiset{};
    }

    method Ask() returns (end: End, proof: Json)
      modifies this`script
      ensures |script| <= |old(script)| && (end != Died ==> |script| < |old(script)|)
    {
      proof := Null;
      if script == [] || script[0].Crash? {
        return Died, proof;
      }
      end := if script[0].Go? then Done else Raised;
      proof := if script[0].Go? then script[0].proof else Null;
      script := script[1..];
    }

    /** `_save`: the lock and, for a terminal phase, its checks; then compare-and-save. */
    method SaveRecord(record: Record, next: Record) returns (end: End)
      requires Valid()
      requires SaveAllowed(store.View(), record, next) ==> PhaseEffects(next)
      modifies this`script, store
      ensures Valid() && |script| <= |old(script)|
      ensures end == Done ==> store.record == Some(next) && old(store.record) == Some(record)
      ensures end == Done ==> old(SaveAllowed(store.View(), record, next))
      ensures end != Done ==> store.record == old(store.record)
      ensures store.leases == old(store.leases) && store.owner == old(store.owner)
    {
      hide Encodable, PhaseEffects, PhaseAllowed, EffectsKept, ReceiptsKept;
      var proof;
      end, proof := Ask();
      if end != Done {
        return;
      }
      FencedGrows(sent, store.View(), Save(record, next));
      var ok := store.SaveBootstrap(record, next);
      end := if ok then Done else Raised;
    }

    /** A request with an external effect leaves the controller. */
    ghost method Send(e: Effect)
      requires Valid() && e !in sent && store.record.Some? && e in store.record.value.effects
      modifies this`sent
      ensures Valid() && sent == old(sent) + multiset{e}
    {
      sent := sent + multiset{e};
    }

    /** `_progress`: one report of the launcher. */
    method Progress(stage: string, leaseId: Option<string>, observed: Json) returns (end: End)
      requires Valid()
      modifies this`script, store
      ensures Valid() && |script| <= |old(script)|
      ensures end == Done && stage == "start_submitted" ==> store.record.Some? && Launch in store.record.value.effects
      ensures end == Done && stage != "start_submitted" && store.record.Some? && Launch in store.record.value.effects ==>
                old(store.record).Some? && Launch in old(store.record).value.effects
      ensures old(store.record).Some? ==> store.record.Some?
    {
      hide Encodable, SaveAllowed, PhaseEffects;
      var proof;
      end, proof := Ask();
      if end != Done || store.record.None? {
        return (if end == Done then Raised else end);
      }
      var record := store.record.value;
      if stage == "placed" {
        return if record.stage == Placed && leaseId == record.leaseId then Done else Raised;
      }
      var phase := ReportPhase(stage);
      if phase.None? || (stage != "placing" && leaseId != record.leaseId) {
        return Raised;
      }
      ReportPhases(store.View(), record, phase.value, observed);
      end := SaveRecord(record, Reported(record, phase.value, observed));
    }

    /**
     The launcher's `main`, more freely than it is: any reports in any order, its requests to place,
     confirm and release the account, and one start of the unit, directly after its first accepted `start_submitted`.
     */
    method RunLauncher() returns (end: End)
      requires Valid() && store.record.Some? && Launch !in store.record.value.effects
      modifies this`script, this`sent, store
      ensures Valid() && store.record.Some? && |script| <= |old(script)|
      ensures sent == old(sent) || sent == old(sent) + multiset{Launch}
      ensures end == Done && Launch in store.record.value.effects ==> sent == old(sent) + multiset{Launch}
    {
      hide PhaseEffects;
      var started := false;
      end := Done;
      var running := true;
      while running
        invariant Valid() && store.record.Some? && |script| <= |old(script)| && (running ==> end == Done)
        invariant !started ==> Launch !in sent
        invariant sent == if started then old(sent) + multiset{Launch} else old(sent)
        invariant end == Done && !started ==> Launch !in store.record.value.effects
        decreases running, |script|
      {
        if script == [] || script[0].Crash? {
          return Died;
        }
        var answer := script[0];
        script := script[1..];
        match answer {
          case Report(stage, leaseId, observed) =>
            end, started := TakeReport(stage, leaseId, observed, started);
            running := end == Done;
          case Place(lease, unit) =>
            end := PlaceOverHttp(lease, unit);
            running := end == Done;
          case Confirm =>
            end := FinishOverHttp("confirmed");
            running := end == Done;
          case Release =>
            end := FinishOverHttp("released");
            running := end == Done;
          case Exit(code) =>
            end := if code == 0 then Done else Raised;
            running := false;
          case _ =>
            end := Raised;
            running := false;
        }
      }
    }

    /** One report, and the start of the unit behind the first accepted `start_submitted`. */
    method TakeReport(stage: string, leaseId: Option<string>, observed: Json, started: bool)
      returns (end: End, started': bool)
      requires Valid() && store.record.Some?
      requires !started ==> Launch !in sent && Launch !in store.record.value.effects
      modifies this`script, this`sent, store
      ensures Valid() && store.record.Some? && |script| <= |old(script)|
      ensures started ==> started'
      ensures sent == if started' && !started then old(sent) + multiset{Launch} else old(sent)
      ensures end == Done && !started' ==> Launch !in store.record.value.effects
    {
      hide Fenced;
      end := Progress(stage, leaseId, observed);
      started' := started;
      if end == Done && stage == "start_submitted" && !started {
        var proof;
        end, proof := Ask();  // the start may not leave any more
        if end == Done {
          started' := true;
          Send(Launch);
        }
      }
    }

    /** `http_scope` around the launcher's placement request; a refusal is an answer, and the launcher goes on. */
    method PlaceOverHttp(lease: Lease, unit: string) returns (end: End)
      requires Valid() && store.record.Some?
      modifies this`script, store
      ensures Valid() && |script| <= |old(script)| && (end == Done || end == Died)
      ensures store.record.Some? && store.record.value.effects == old(store.record).value.effects
    {
      var proof;
      end, proof := Ask();  // placement decides; no fault, sleeping recovery or catalog forbids the account
      var record := store.record.value;
      if end == Done && record.stage == Placing && lease.model == record.model && lease.util == record.util {
        FencedGrows(sent, store.View(), Enter(record.id));
        var ok, previous := store.EnterScope(record.id);
        FencedGrows(sent, store.View(), InsertLease(lease, unit));
        ok := store.PlaceLease(lease, unit);
        FencedGrows(sent, store.View(), Leave(previous));
        store.LeaveScope(previous);
      }
      end := if end == Died then Died else Done;
    }

    /** The launcher's request to confirm or release its account. */
    method FinishOverHttp(status: string) returns (end: End)
      requires Valid() && store.record.Some?
      modifies this`script, store
      ensures Valid() && |script| <= |old(script)| && (end == Done || end == Died) && store.record == old(store.record)
    {
      end := Done;
      if store.record.value.leaseId.Some? {
        end := FinishLease(store.record.value.leaseId.value, status);
        end := if end == Died then Died else Done;
      }
    }

    /** `placement.finish` inside the bootstrap scope. */
    method FinishLease(leaseId: string, status: string) returns (end: End)
      requires Valid() && store.record.Some?
      modifies this`script, store
      ensures Valid() && store.record == old(store.record) && |script| <= |old(script)|
    {
      var proof;
      end, proof := Ask();  // no fault, sleeping recovery or catalog reconciliation forbids the transition
      if end == Died {
        return;
      }
      var id, unblocked := store.record.value.id, end == Done;
      FencedGrows(sent, store.View(), Enter(id));
      var entered, previous := store.EnterScope(id);
      FencedGrows(sent, store.View(), Transition(leaseId, status, unblocked));
      var ok := store.TransitionLease(leaseId, status, unblocked);
      FencedGrows(sent, store.View(), Leave(previous));
      store.LeaveScope(previous);
      end := if ok then Done else Raised;
    }

    /** `run`: the first attempt, allowed only while no record exists. */
    method Run(claim: Record) returns (end: End)
      requires Valid()
      modifies this`script, this`sent, this`busy, store
      ensures Valid()
      ensures old(store.record).Some? ==> end == Raised && store.record == old(store.record) && sent == old(sent)
      ensures sent <= old(sent) + multiset{Stage, Launch, Activate}
      ensures end == Done ==> store.record.Some? && store.record.value.stage == Complete
      ensures end == Done ==> sent == multiset{Stage, Launch, Activate}
    {
      if busy || store.record.Some? {
        return Raised;
      }
      busy := true;
      end := Attempt(claim);
      if end == Raised && store.record.Some? {
        // Record the failure; the fence stays whatever happens to this write.
        var current := store.record.value;
        var _ := SaveRecord(current, current.(error := Some("bootstrap failed")));
      }
      busy := false;
    }

    method Attempt(claim: Record) returns (end: End)
      requires Valid() && store.record.None?
      modifies this`script, this`sent, store
      ensures Valid()
      ensures sent <= multiset{Stage, Launch, Activate}
      ensures end == Done ==> store.record.Some? && store.record.value.stage == Complete
      ensures end == Done ==> sent == multiset{Stage, Launch, Activate}
    {
      hide PhaseEffects, Fenced, SaveAllowed, Encodable;
      NothingSent(sent);
      var record;
      end, record := ClaimFirst(claim);
      if end == Done {
        end := StageFiles(record);
      }
      if end == Done {
        end := RunLauncher();
      }
      if end == Done {
        end := ActivateSource();
      }
    }

    /** The guards of a first attempt, and its claim. */
    method ClaimFirst(claim: Record) returns (end: End, record: Record)
      requires Valid() && store.record.None?
      modifies this`script, store
      ensures Valid() && store.record == if end == Done then Some(record) else None
      ensures record.stage == Claimed && record.effects == map[]
    {
      hide Encodable, PhaseAllowed, EffectsKept, ReceiptsKept, SaveAllowed;
      var proof;
      end, proof := Ask();  // launcher inputs, admissible placement, idle source
      record := claim.(stage := Claimed, leaseId := None, effects := map[], error := None, catalogPresent := false,
                       migration := map["preflight" := proof]);
      if end == Done {
        FencedGrows(sent, store.View(), Claim(record));
        var ok := store.ClaimBootstrap(record);
        end := if ok then Done else Raised;
      }
    }

    /** Announce the staging, send it once, and record its proof. */
    method StageFiles(record: Record) returns (end: End)
      requires Valid() && store.record == Some(record) && record.stage == Claimed && record.effects == map[]
      modifies this`script, this`sent, store
      ensures Valid() && store.record.Some? && Launch !in store.record.value.effects
      ensures sent == old(sent) || sent == old(sent) + multiset{Stage}
      ensures end == Done ==> sent == old(sent) + multiset{Stage}
    {
      hide Encodable, SaveAllowed;
      var next := record.(stage := StageSubmitted, effects := map[Stage := Submitted]);
      end := SaveRecord(record, next);
      if end != Done {
        return;
      }
      var proof;
      end, proof := Ask();  // still enabled and before the deadline
      if end != Done {
        return;
      }
      Send(Stage);
      end, proof := Ask();  // accepted, legacy backends absent, staged files confirmed
      if end != Done {
        return;
      }
      end := SaveRecord(next, next.(stage := Staged, effects := map[Stage := Acknowledged],
                                    migration := next.migration["staged" := proof]));
    }

    /** `_activate`: announce the activation, send it once, then observe. */
    method ActivateSource() returns (end: End)
      requires Valid() && store.record.Some?
      modifies this`script, this`sent, store
      ensures Valid() && store.record.Some?
      ensures sent == old(sent) || sent == old(sent) + multiset{Activate}
      ensures end == Done ==> sent == old(sent) + multiset{Activate} && store.record.value.stage == Complete
      ensures end == Done ==> Launch in old(store.record).value.effects
    {
      hide Encodable, SaveAllowed;
      var record := store.record.value;
      if record.stage != DefaultConfirmed {
        return Raised;
      }
      var proof;
      end, proof := Ask();  // the account is confirmed and healthy
      if end != Done {
        return;
      }
      var next := record.(stage := ActivateSubmitted, effects := record.effects[Activate := Submitted]);
      end := SaveRecord(record, next);
      if end != Done {
        return;
      }
      end, proof := Ask();  // still enabled and before the deadline
      if end != Done {
        return;
      }
      Send(Activate);
      end := AcknowledgeActivation(next);
    }

    method AcknowledgeActivation(submitted: Record) returns (end: End)
      requires Valid() && store.record == Some(submitted) && submitted.stage == ActivateSubmitted
      requires Activate in submitted.effects
      modifies this`script, store
      ensures Valid() && store.record.Some?
      ensures end == Done ==> store.record.value.stage == Complete
    {
      hide Encodable, SaveAllowed;
      var proof;
      end, proof := Ask();  // accepted
      if end != Done {
        return;
      }
      end := SaveRecord(submitted, submitted.(effects := submitted.effects[Activate := Acknowledged]));
      if end == Done {
        end := FinishSource();
      }
    }

    /** `_finish_source`: observe only; never resend. */
    method FinishSource() returns (end: End)
      requires Valid() && store.record.Some? && Activate in store.record.value.effects
      modifies this`script, store
      ensures Valid() && store.record.Some?
      ensures end == Done ==> store.record.value.stage == Complete
    {
      hide Encodable, SaveAllowed;
      var record := store.record.value;
      var proof;
      end, proof := Ask();
      if end == Done {
        end := SaveRecord(record, record.(stage := Complete, migration := record.migration["activated" := proof]));
      }
    }

    /** `recover`: observe, resume or roll back what an earlier process left. */
    method Recover(mode: Mode, actor: Actor, token: string) returns (end: End)
      requires Valid()
      modifies this`script, this`sent, this`busy, store
      ensures Valid()
      ensures old(store.record).Some? && old(store.record).value.stage.Terminal() ==>
                store.record == old(store.record) && sent == old(sent)
      ensures mode == Observe ==> sent == old(sent)
      ensures mode == Undo ==> sent == old(sent) || sent == old(sent) + multiset{Rollback}
      ensures sent <= old(sent) + multiset{Launch, Activate, Rollback}
      ensures end == Done && mode == Resume ==> store.record.Some? && store.record.value.stage.Terminal()
      ensures end == Done && mode == Undo ==> store.record.Some? && store.record.value.stage.Terminal()
    {
      hide Encodable, SaveAllowed, Fenced, Later;
      if store.record.None? || busy {
        return Raised;
      }
      var proof;
      end, proof := Ask();  // the previous process is gone
      if end != Done {
        return;
      }
      if store.record.value.stage.Terminal() {
        return Done;
      }
      FencedGrows(sent, store.View(), Reclaim(store.record.value, actor, token));
      var ok := store.ReclaimBootstrap(store.record.value, actor, token);
      if !ok {
        return Raised;
      }
      busy := true;
      end := TakeUp(mode);
      busy := false;
    }

    /** What is done with an unfinished attempt once this process owns it. */
    method TakeUp(mode: Mode) returns (end: End)
      requires Valid() && store.record.Some? && !store.record.value.stage.Terminal()
      modifies this`script, this`sent, store
      ensures Valid() && store.record.Some?
      ensures mode == Observe ==> sent == old(sent)
      ensures mode == Undo ==> sent == old(sent) || sent == old(sent) + multiset{Rollback}
      ensures sent <= old(sent) + multiset{Launch, Activate, Rollback}
      ensures end == Done && mode != Observe ==> store.record.value.stage == (if mode == Undo then Aborted else Complete)
    {
      hide Fenced, Later;
      if mode == Undo {
        end := RollBack();
      } else if Activate in store.record.value.effects {
        end := FinishSource();
      } else {
        end := Continue(mode);
      }
    }

    /** Roll the staged files back; never once a launch was submitted, and never twice. */
    method RollBack() returns (end: End)
      requires Valid() && store.record.Some? && !store.record.value.stage.Terminal()
      modifies this`script, this`sent, store
      ensures Valid() && store.record.Some?
      ensures sent == old(sent) || sent == old(sent) + multiset{Rollback}
      ensures Launch in old(store.record).value.effects || Rollback in old(store.record).value.effects ==> sent == old(sent)
      ensures end == Done ==> store.record.value.stage == Aborted && sent == old(sent) + multiset{Rollback}
    {
      hide Encodable, SaveAllowed;
      var record := store.record.value;
      if Launch in record.effects {
        return Raised;
      }
      if record.leaseId.Some? {
        end := FinishLease(record.leaseId.value, "released");
        if end != Done {
          return;
        }
      }
      if Rollback in record.effects {
        return Raised;
      }
      var next := record.(effects := record.effects[Rollback := Submitted]);
      end := SaveRecord(record, next);
      if end != Done {
        return;
      }
      var proof;
      end, proof := Ask();  // still enabled and before the deadline
      if end == Done {
        Send(Rollback);
        end := FinishRollback(next);
      }
    }

    /** Close the record once the rollback is proven. */
    method FinishRollback(next: Record) returns (end: End)
      requires Valid() && store.record == Some(next) && Launch !in next.effects && !next.stage.Terminal()
      modifies this`script, store
      ensures Valid() && store.record.Some?
      ensures end == Done ==> store.record.value.stage == Aborted
    {
      hide Encodable, SaveAllowed;
      var proof;
      end, proof := Ask();
      if end != Done || !Shows(proof, "rolled_back") {
        return (if end == Done then Raised else end);
      }
      end := SaveRecord(next, next.(stage := Aborted, effects := next.effects[Rollback := Acknowledged],
                                    migration := next.migration["rolled_back" := proof]));
    }

    /** Take up an attempt before its activation. */
    method Continue(mode: Mode) returns (end: End)
      requires Valid() && store.record.Some? && Activate !in store.record.value.effects
      requires !store.record.value.stage.Terminal()
      modifies this`script, this`sent, store
      ensures Valid() && store.record.Some?
      ensures mode == Observe ==> sent == old(sent)
      ensures sent <= old(sent) + multiset{Launch, Activate}
      ensures end == Done && mode == Resume ==> store.record.value.stage == Complete
    {
      hide Encodable, SaveAllowed;
      var proof;
      end, proof := Ask();  // the staged migration is presently confirmed
      if end != Done {
        return;
      }
      var record := store.record.value;
      if record.stage == StageSubmitted {
        var next := record.(stage := Staged, migration := record.migration["staged" := proof]);
        end := SaveRecord(record, next);
        if end != Done {
          return;
        }
        record := next;
      }
      if Launch !in record.effects {
        if mode != Resume {
          return Done;
        }
        end := RunLauncher();
        if end == Done && store.record.value.stage != DefaultConfirmed {
          end := Raised;
        }
      } else if record.stage != DefaultConfirmed {
        end := AdoptLaunch();
      }
      if end == Done && mode == Resume {
        end := ActivateSource();
      }
    }

    /** A launch already submitted is only observed: record its health, then confirm its account. */
    method AdoptLaunch() returns (end: End)
      requires Valid() && store.record.Some? && Launch in store.record.value.effects
      requires !store.record.value.stage.Terminal() && Activate !in store.record.value.effects
      modifies this`script, store
      ensures Valid() && store.record.Some?
    {
      hide Encodable, SaveAllowed;
      var proof;
      end, proof := Ask();  // the unit is healthy under this lease
      if end != Done {
        return;
      }
      var record := store.record.value;
      var next := record;
      if "default_observed" !in record.migration {
        next := record.(migration := record.migration["default_observed" := proof]);
        end := SaveRecord(record, next);
        if end != Done {
          return;
        }
      }
      if next.stage == StartSubmitted || next.stage == StartAcknowledged {
        end := MoveTo(HealthObserved);
      }
      if end == Done && store.record.value.stage == HealthObserved {
        end := MoveTo(ConfirmSubmitted);
      }
      if end != Done || store.record.value.leaseId.None? {
        return (if end == Done then Raised else end);
      }
      end := FinishLease(store.record.value.leaseId.value, "confirmed");
      if end == Done {
        end := MoveTo(DefaultConfirmed);
      }
    }

    method MoveTo(phase: Phase) returns (end: End)
      requires Valid() && store.record.Some? && Launch in store.record.value.effects
      requires Activate !in store.record.value.effects
      requires phase in {HealthObserved, ConfirmSubmitted, DefaultConfirmed}
      modifies this`script, store
      ensures Valid() && |script| <= |old(script)|
      ensures store.record == if end == Done then Some(old(store.record).value.(stage := phase)) else old(store.record)
    {
      hide Encodable, SaveAllowed;
      end := SaveRecord(store.record.value, store.record.value.(stage := phase));
    }
  }
}
