/** The detector of llmsvc/faults.py: one record of counters and flags per model, updated in place. */
module FaultDetection {
  import opened Options
  import opened FaultEvidence
  import opened FaultWindow
  import opened FaultTally

  /** An event and the model it concerns; `Cleared` drops the records of all models at once. */
  datatype Entry = Entry(model: string, event: Event) | Cleared

  /** The detector's records, as values. */
  type Tallies = map<string, Tally>

  function At(records: Tallies, model: string): Option<Tally> {
    if model in records then Some(records[model]) else None
  }

  function Put(records: Tallies, model: string, t: Option<Tally>): Tallies {
    if t.Some? then records[model := t.value] else records - {model}
  }

  function StepAll(records: Tallies, entry: Entry, healthFailures: nat): Tallies {
    if entry.Cleared? then map[]
    else Put(records, entry.model, Step(At(records, entry.model), entry.event, healthFailures).0)
  }

  function RunAll(log: seq<Entry>, healthFailures: nat): Tallies {
    if log == [] then map[]
    else StepAll(RunAll(log[..|log| - 1], healthFailures), log[|log| - 1], healthFailures)
  }

  /** The history of one model within a log of all of them. */
  function HistoryOf(log: seq<Entry>, model: string): seq<Event> {
    if log == [] then []
    else
      var rest := HistoryOf(log[..|log| - 1], model);
      var last := log[|log| - 1];
      if last.Cleared? then rest + [Dropped] else if last.model == model then rest + [last.event] else rest
  }

  /** Models never influence each other: a record depends on its own model's events alone. */
  lemma {:induction false} ModelsIndependent(log: seq<Entry>, model: string, healthFailures: nat)
    ensures At(RunAll(log, healthFailures), model) == Run(HistoryOf(log, model), healthFailures)
  {
    if log != [] {
      var n := |log| - 1;
      ModelsIndependent(log[..n], model, healthFailures);
      var h := HistoryOf(log[..n], model);
      if log[n].Cleared? {
        assert (h + [Dropped])[..|h|] == h;
      } else if log[n].model == model {
        assert (h + [log[n].event])[..|h|] == h;
      }
    }
  }

  class FaultDetector {
    const healthFailures: nat
    var records: Tallies
    ghost var log: seq<Entry>  // every call made so far

    /** The records are those the whole log leads to. */
    ghost predicate Valid()
      reads this
    {
      healthFailures >= 3 && records == RunAll(log, healthFailures)
    }

    constructor (healthFailures: nat)
      requires healthFailures >= 3
      ensures Valid() && this.healthFailures == healthFailures && log == []
    {
      this.healthFailures, records, log := healthFailures, map[], [];
    }

    /** `FaultDetector(health_failures=n)`; None where it raises. */
    static method Create(healthFailures: int) returns (detector: Option<FaultDetector>)
      ensures detector.None? <==> healthFailures < 3
      ensures detector.Some? ==> fresh(detector.value) && detector.value.Valid() && detector.value.log == []
                                 && detector.value.healthFailures == healthFailures
    {
      if healthFailures < 3 {
        return None;
      }
      var made := new FaultDetector(healthFailures);
      return Some(made);
    }

    method Invalidate(model: string, stopped: bool := false)
      requires Valid()
      modifies this
      ensures Valid() && log == old(log) + [Entry(model, Invalidated(stopped))]
    {
      if model in records {
        var record := records[model];
        record := record.(epoch := record.epoch + 1);
        record := record.(eligible := false);
        if stopped {
          record := record.(served := false);
        }
        records := records[model := record.ResetCounts()];
      }
      Append(Entry(model, Invalidated(stopped)));
    }

    method WarmWake(model: string, leaseId: string, now: Option<real>) returns (accepted: bool)
      requires Valid()
      modifies this
      ensures Valid() && log == old(log) + [Entry(model, WarmWoken(leaseId, now))]
      ensures accepted == AcceptsWake(WindowOf(HistoryOf(old(log), model)), leaseId, now)
    {
      hide RunAll, HistoryOf, Run, Served, Armed, Failures, Mismatches, MismatchSince;
      ModelsIndependent(log, model, healthFailures);
      RunRefines(HistoryOf(log, model), WarmWoken(leaseId, now), healthFailures);
      accepted := false;
      if model in records {
        var record := records[model];
        if record.key.leaseId == leaseId && record.health == Yes && record.sleeping == Yes && Known(now)
           && 0.0 <= now.value - record.receivedAt <= MAX_EVIDENCE_GAP_SECONDS {
          record := record.(eligible := true);
          record := record.(epoch := record.epoch + 1);
          records := records[model := record.ResetCounts()];
          accepted := true;
        }
      }
      Append(Entry(model, WarmWoken(leaseId, now)));
    }

    /** The recovery controller drops a model's record: unconfigured, superseded, unbracketed or cleaned up. */
    method Drop(model: string)
      requires Valid()
      modifies this
      ensures Valid() && log == old(log) + [Entry(model, Dropped)]
      ensures records == old(records) - {model}
    {
      records := records - {model};
      Append(Entry(model, Dropped));
    }

    /** It drops them all when a cycle fails. */
    method Clear()
      requires Valid()
      modifies this
      ensures Valid() && log == old(log) + [Cleared] && records == map[]
    {
      records := map[];
      Append(Cleared);
    }

    method Observe(call: Call) returns (proof: Option<FaultProof>)
      requires Valid()
      modifies this
      ensures Valid() && log == old(log) + [Entry(call.lease.model, Observed(call))]
      ensures proof == ProofOf(WindowOf(HistoryOf(old(log), call.lease.model)), Observed(call), healthFailures)
    {
      var name := call.lease.model;
      ModelsIndependent(log, name, healthFailures);
      RunRefines(HistoryOf(log, name), Observed(call), healthFailures);
      var previous := At(records, name);
      var after: Option<Tally>;
      after, proof := TakeRound(previous, call);
      records := Put(records, name, after);
      Append(Entry(name, Observed(call)));
    }

    /** One observation of a model: its record afterwards, if any, and the proof. */
    method TakeRound(previous: Option<Tally>, call: Call) returns (after: Option<Tally>, proof: Option<FaultProof>)
      requires previous.Some? ==> (previous.value.mismatchAt.Some? <==> previous.value.mismatchReceived.Some?)
      ensures (after, proof) == Step(previous, Observed(call), healthFailures)
    {
      var reading := Read(call);
      if reading.Rejected? {
        return None, None;
      }
      var s := reading.sample;
      var key: Key;
      if reading.Absent? {
        if previous.None? || !SameAccount(previous.value.key, s) {
          return previous, None;
        }
        key := previous.value.key;
      } else {
        key := Key(s.leaseId, s.unit, reading.invocationId, s.gpu);
      }
      var continuous := previous.Some? && previous.value.ContinuedBy(key, s);
      var record := if continuous then previous.value else Fresh(key, s);
      record := record.(epoch := record.epoch + 1);
      var verdict: Option<Verdict>;
      record, verdict := CountRound(record, s, continuous && record.eligible);
      record := record.Stamp(key, s);
      after := Some(record);
      proof := if verdict.None? then None else Some(MakeProof(call, key, s, record.epoch, verdict.value));
    }

    method CountRound(before: Tally, s: Sample, armed: bool) returns (record: Tally, verdict: Option<Verdict>)
      requires before.mismatchAt.Some? <==> before.mismatchReceived.Some?
      ensures record == before.Count(s)
      ensures verdict == record.Verdict(s, armed, healthFailures)
    {
      record, verdict := before, None;
      if s.status.unitActive == No && (s.seen.exited || s.seen.inactive) {
        if armed {
          verdict := Some(Verdict(UnexpectedUnitExit, 1, None));
        }
        record := record.ResetCounts();
      } else if s.seen.active && s.status.unitActive == Yes {
        if HealthyAwake(s) {
          record := record.(served := true, eligible := true);
          record := record.ResetCounts();
        } else {
          record, verdict := Degrade(record, s);
        }
      } else {
        record := record.ResetCounts();
        record := record.(eligible := false);
      }
    }

    /** A serving round that is not healthy and awake: count it, and prove a fault when the counts suffice. */
    method Degrade(before: Tally, s: Sample) returns (record: Tally, verdict: Option<Verdict>)
      requires before.mismatchAt.Some? <==> before.mismatchReceived.Some?
      requires Serving(s) && !HealthyAwake(s)
      ensures record == before.Degraded(s)
      ensures verdict == record.Verdict(s, false, healthFailures)
    {
      record, verdict := before, None;
      if record.served && s.status.healthOk == Yes && s.status.isSleeping == Yes
         && (s.status.swapState == "starting"
             || (record.swap in {"starting", "stopped"} && s.status.swapState == "ready")) {
        record := record.(eligible := true);
      }
      if !record.eligible {
        record := record.ResetCounts();
      } else {
        record := record.(failures := if s.status.healthOk == No then record.failures + 1 else 0);
        var mismatch := s.status.swapState == "ready" && s.status.isSleeping == Yes;
        if mismatch {
          if record.mismatchAt == None {
            record := record.(mismatchAt := Some(s.receivedAt), mismatchReceived := Some(s.receivedAt));
          }
          record := record.(mismatchSamples := record.mismatchSamples + 1);
        } else {
          record := record.(mismatchAt := None, mismatchReceived := None, mismatchSamples := 0);
        }
        if record.failures >= healthFailures {
          verdict := Some(Verdict(ConsecutiveHealthFailures, record.failures, None));
        } else if mismatch && s.startedAt - record.mismatchAt.value >= SLEEP_MISMATCH_SECONDS
                  && s.receivedAt - record.mismatchReceived.value >= SLEEP_MISMATCH_SECONDS
                  && record.mismatchSamples >= 6 {
          var span := Least(s.startedAt - record.mismatchAt.value, s.receivedAt - record.mismatchReceived.value);
          verdict := Some(Verdict(ReadyStillSleeping, record.mismatchSamples, Some(span)));
        }
      }
    }

    method IsCurrent(proof: FaultProof, wallNow: Option<real>, now: Option<real>) returns (current: bool)
      requires Valid()
      ensures current == Current(Run(HistoryOf(log, proof.model), healthFailures), proof, wallNow, now)
    {
      ModelsIndependent(log, proof.model, healthFailures);
      if proof.model !in records {
        return false;
      }
      var record := records[proof.model];
      return && record.key == Key(proof.leaseId, proof.unit, proof.invocationId, proof.gpu)
             && record.epoch == proof.epoch && record.generation == proof.generation
             && Known(wallNow) && Known(now)
             && 0.0 <= wallNow.value - proof.sampledAt <= MAX_EVIDENCE_GAP_SECONDS
             && proof.receivedAt <= now.value
             && 0.0 <= now.value - proof.roundStartedAt <= MAX_EVIDENCE_GAP_SECONDS;
    }

    /** Remember a call, for the specification only. */
    ghost method Append(entry: Entry)
      requires healthFailures >= 3 && records == StepAll(RunAll(log, healthFailures), entry, healthFailures)
      modifies this`log
      ensures Valid() && log == old(log) + [entry]
    {
      log := log + [entry];
      assert log[..|log| - 1] == old(log);
    }
  }
}
