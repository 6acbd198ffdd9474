/** One sampled round of fault evidence, as `FaultDetector.observe` reads it (llmsvc/faults.py). */
module FaultEvidence {
  import opened Options

  const MAX_EVIDENCE_GAP_SECONDS := 2.0
  const SLEEP_MISMATCH_SECONDS := 10.0

  datatype ModelStatus = ModelStatus(
    name: string, unit: Option<string>, gpu: Option<int>, state: string,
    unitActive: Flag, healthOk: Flag, isSleeping: Flag, swapState: string)

  /** `sampledAt` is None when the source gave no finite number. */
  datatype Snapshot = Snapshot(sampledAt: Option<real>, models: seq<ModelStatus>)

  datatype Lease = Lease(leaseId: string, model: string, gpu: int, status: string)

  datatype UnitObservation = UnitObservation(
    exists_: Flag, exited: bool, active: bool, leaseId: string, invocationId: string, inactive: bool)

  /** The arguments of one `observe` call. */
  datatype Call = Call(
    snapshot: Snapshot, lease: Lease, unit: string, observation: UnitObservation, generation: int,
    receivedAt: Option<real>, wallNow: Option<real>, startedAt: Option<real>, finishedAt: Option<real>,
    expected: bool)

  datatype Key = Key(leaseId: string, unit: string, invocationId: string, gpu: int)

  datatype Sample = Sample(
    leaseId: string, unit: string, gpu: int, sampledAt: real, receivedAt: real,
    startedAt: real, finishedAt: real, generation: int, status: ModelStatus, seen: UnitObservation)

  /** What a call says before any earlier round is consulted. */
  datatype Reading =
    | Rejected                                        // unusable: the record is dropped
    | Absent(sample: Sample)                          // the unit no longer exists
    | Present(sample: Sample, invocationId: string)   // the unit exists under this lease

  datatype Reason = UnexpectedUnitExit | ConsecutiveHealthFailures | ReadyStillSleeping

  datatype FaultProof = FaultProof(
    model: string, leaseId: string, unit: string, invocationId: string, gpu: int, reason: Reason,
    sampledAt: real, receivedAt: real, generation: int, epoch: nat, samples: nat,
    roundStartedAt: real, windowLowerBound: Option<real>)

  predicate Known(value: Option<real>) {
    value.Some? && value.value >= 0.0
  }

  predicate ValidInvocation(value: string) {
    && |value| == 32
    && (forall c | c in value :: '0' <= c <= '9' || 'a' <= c <= 'f' || 'A' <= c <= 'F')
    && (exists c | c in value :: c != '0')
  }

  function Named(models: seq<ModelStatus>, name: string): seq<ModelStatus> {
    if models == [] then []
    else (if models[0].name == name then [models[0]] else []) + Named(models[1..], name)
  }

  function CountUnit(models: seq<ModelStatus>, unit: string): nat {
    if models == [] then 0
    else (if models[0].unit == Some(unit) then 1 else 0) + CountUnit(models[1..], unit)
  }

  predicate Timely(c: Call) {
    && c.lease.status == "confirmed" && |Named(c.snapshot.models, c.lease.model)| == 1
    && Known(c.snapshot.sampledAt) && Known(c.receivedAt) && Known(c.wallNow)
    && Known(c.startedAt) && Known(c.finishedAt)
    && c.startedAt.value <= c.finishedAt.value <= c.receivedAt.value
    && 0.0 <= c.receivedAt.value - c.startedAt.value <= MAX_EVIDENCE_GAP_SECONDS
    && 0.0 <= c.wallNow.value - c.snapshot.sampledAt.value <= MAX_EVIDENCE_GAP_SECONDS
    && !c.expected
  }

  /** The unit is present, bound to the lease and agrees with the sampled model. */
  predicate Bound(c: Call, status: ModelStatus) {
    var o := c.observation;
    && o.exists_ == Yes && ValidInvocation(o.invocationId) && o.leaseId == c.lease.leaseId
    && (o.active ==> status.unitActive == Yes && status.gpu == Some(c.lease.gpu))
    && (o.active || o.inactive || o.exited)
  }

  function Read(c: Call): Reading {
    if !Timely(c) then Rejected
    else
      var status := Named(c.snapshot.models, c.lease.model)[0];
      var sample := Sample(c.lease.leaseId, c.unit, c.lease.gpu, c.snapshot.sampledAt.value, c.receivedAt.value,
                           c.startedAt.value, c.finishedAt.value, c.generation, status, c.observation);
      if status.unit != Some(c.unit) || CountUnit(c.snapshot.models, c.unit) != 1 then Rejected
      else if c.observation.exists_ == No && c.observation.exited && status.unitActive == No then Absent(sample)
      else if !Bound(c, status) then Rejected
      else Present(sample, c.observation.invocationId)
  }

  /** A later round continues an earlier one: same identity, rising counters, and clocks that agree. */
  predicate Follows(key0: Key, s0: Sample, key: Key, s: Sample) {
    && key0 == key && s.generation > s0.generation && s.sampledAt > s0.sampledAt
    && s.startedAt >= s0.receivedAt && 0.0 < s.receivedAt - s0.receivedAt
    && s.receivedAt - s0.startedAt <= MAX_EVIDENCE_GAP_SECONDS
    && s.startedAt - s0.finishedAt <= s.sampledAt - s0.sampledAt <= s.finishedAt - s0.startedAt
  }

  predicate SameAccount(key: Key, s: Sample) {
    key.leaseId == s.leaseId && key.unit == s.unit && key.gpu == s.gpu
  }

  // The three kinds of round, decided by the unit alone.

  predicate Exited(s: Sample) {
    s.status.unitActive == No && (s.seen.exited || s.seen.inactive)
  }

  predicate Serving(s: Sample) {
    s.seen.active && s.status.unitActive == Yes
  }

  predicate Lost(s: Sample) {
    !Exited(s) && !Serving(s)
  }

  predicate HealthyAwake(s: Sample) {
    && Serving(s) && s.status.state == "awake" && s.status.healthOk == Yes
    && s.status.isSleeping == No && s.status.swapState == "ready"
  }

  predicate Failing(s: Sample) {
    Serving(s) && s.status.healthOk == No
  }

  predicate Mismatched(s: Sample) {
    Serving(s) && s.status.swapState == "ready" && s.status.isSleeping == Yes
  }
}
