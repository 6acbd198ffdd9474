/** The durable bootstrap record of llmsvc/bootstrap_state.py and the tests every write of it must pass. */
module BootstrapRecord {
  import opened Options

  datatype Phase =
    | Claimed | StageSubmitted | Staged | Placing | Placed | StartSubmitted | StartAcknowledged
    | HealthObserved | ConfirmSubmitted | DefaultConfirmed | ActivateSubmitted | Complete | Aborted
  {
    /** The position in PHASES. */
    function Rank(): nat {
      match this
      case Claimed => 0
      case StageSubmitted => 1
      case Staged => 2
      case Placing => 3
      case Placed => 4
      case StartSubmitted => 5
      case StartAcknowledged => 6
      case HealthObserved => 7
      case ConfirmSubmitted => 8
      case DefaultConfirmed => 9
      case ActivateSubmitted => 10
      case Complete => 11
      case Aborted => 12
    }

    predicate Terminal() {
      this == Complete || this == Aborted
    }
  }

  datatype Effect = Stage | Launch | Activate | Rollback
  datatype Receipt = Submitted | Acknowledged

  datatype Json = Null | Bool(b: bool) | Number(n: real) | Text(s: string) | Object(fields: map<string, Json>)

  /** `fields.get(key)`. */
  function Get(fields: map<string, Json>, key: string): Json {
    if key in fields then fields[key] else Null
  }

  /** The value is an object whose field is exactly True. */
  predicate Shows(value: Json, key: string) {
    value.Object? && Get(value.fields, key) == Bool(true)
  }

  datatype Actor = Actor(pid: int, startTicks: string)

  datatype Record = Record(
    id: string, profile: string, model: string, unit: string, util: real, actor: Actor, token: string,
    stage: Phase, leaseId: Option<string>, migration: map<string, Json>, effects: map<Effect, Receipt>,
    error: Option<string>, catalogPresent: bool)

  predicate Hex(s: string, n: nat) {
    |s| == n && forall c | c in s :: '0' <= c <= '9' || 'a' <= c <= 'f'
  }

  predicate ModelName(s: string) {
    && s != ""
    && (forall c | c in s :: Alphanumeric(c) || c in "_.-")
    && Alphanumeric(s[0])
  }

  predicate Alphanumeric(c: char) {
    'A' <= c <= 'Z' || 'a' <= c <= 'z' || '0' <= c <= '9'
  }

  predicate Decimal(s: string) {
    1 <= |s| <= 32 && (forall c | c in s :: '0' <= c <= '9') && (s[0] == '0' ==> |s| == 1)
  }

  /** `encoded` accepts the record. */
  predicate Encodable(r: Record) {
    && Hex(r.id, 32) && Hex(r.profile, 64) && Hex(r.token, 64)
    && ModelName(r.model) && r.unit == "vllm-" + r.model + ".service" && 0.0 < r.util <= 1.0
    && r.actor.pid > 0 && Decimal(r.actor.startTicks)
    && (r.leaseId.Some? ==> 1 <= |r.leaseId.value| <= 128)
    && (r.error.Some? ==> |r.error.value| <= 256)
    && (r.stage == Complete ==> CompletionProven(r))
    && (r.stage == Aborted && r.effects != map[] ==> RollbackProven(r))
  }

  predicate CompletionProven(r: Record) {
    && r.leaseId.Some? && Activate in r.effects && Launch in r.effects
    && Shows(Get(r.migration, "activated"), "active_ready")
  }

  predicate RollbackProven(r: Record) {
    && Rollback in r.effects && r.effects[Rollback] == Acknowledged
    && Shows(Get(r.migration, "rolled_back"), "rolled_back")
  }

  predicate SameIdentity(r: Record, r': Record) {
    && r.id == r'.id && r.profile == r'.profile && r.model == r'.model && r.unit == r'.unit && r.util == r'.util
  }

  /** Effects keep their receipts, and an acknowledgement is never taken back. */
  predicate EffectsKept(r: Record, r': Record) {
    forall e | e in r.effects :: e in r'.effects && (r.effects[e] == Acknowledged ==> r'.effects[e] == Acknowledged)
  }

  /** Migration receipts never change; one whose value is null may go. */
  predicate ReceiptsKept(r: Record, r': Record) {
    forall k | k in r.migration :: Get(r'.migration, k) == r.migration[k]
  }

  /** A launch found healthy after a crash may skip its acknowledgement. */
  predicate HealthRecovered(before: Phase, after: Phase, r: Record) {
    before == StartSubmitted && after == HealthObserved && Get(r.migration, "default_observed").Object?
  }

  predicate PhaseAllowed(before: Phase, after: Phase, r: Record) {
    || before == after
    || HealthRecovered(before, after, r)
    || (!before.Terminal() && (after == Aborted || after.Rank() == before.Rank() + 1))
  }
}
