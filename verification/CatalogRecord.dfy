/** The durable catalog checkpoint: llmsvc/catalog_state.py and the writes of llmsvc/store.py. */
module CatalogRecord {
  import opened Options
  import opened CatalogManifest

  datatype Phase = Claimed | Published | Released | Aborted | RolledBack

  /** What a candidate is bound to; files and digests are compared by content. */
  datatype Binding = Binding(candidate: string, generation: string)

  /** The queue's receipt of a configuration change. */
  datatype Marker = Marker(content: string, binding: Binding, jobId: string)

  datatype Record = Record(
    transactionId: nat, jobId: string, oldEpoch: nat, newEpoch: nat, phase: Phase, base: string, candidate: string,
    marker: Option<Marker>, binding: Binding, oldManifest: Manifest, newManifest: Manifest, previous: Option<Record>)

  predicate Disjoint(m: Manifest) {
    m.active.Keys !! m.retained.Keys
  }

  /** `validate_checkpoint`, without its limits on sizes and alphabets. */
  predicate Checkpoint(r: Record) {
    && r.oldEpoch != r.newEpoch && r.binding.candidate == r.candidate
    && (r.phase in {Published, Released, RolledBack} ==> r.marker.Some?)
    && (r.marker.Some? ==> r.marker.value == Marker(r.candidate, r.binding, r.jobId))
    && Disjoint(r.oldManifest) && Disjoint(r.newManifest) && r.oldManifest.sources == r.newManifest.sources
    && (r.previous.Some? ==> && r.previous.value.previous.None?
                             && r.previous.value.phase in {Released, RolledBack} && Checkpoint(r.previous.value))
  }

  predicate Settled(phase: Phase) {
    phase == Released || phase == Aborted || phase == RolledBack
  }

  /** The record a new claim must carry as its `previous`. */
  function Backup(current: Option<Record>): Option<Record> {
    if current.None? then None
    else if current.value.phase == Aborted then Stripped(current.value.previous)
    else Stripped(current)
  }

  function Stripped(r: Option<Record>): Option<Record> {
    if r.None? then None else Some(r.value.(previous := None))
  }

  predicate SameTransaction(r: Record, r': Record) {
    r'.(phase := r.phase, marker := r.marker, previous := r.previous) == r
  }

  predicate PhaseStep(before: Phase, after: Phase) {
    || (before == Claimed && after in {Claimed, Published, Aborted, RolledBack})
    || (before == Published && after in {Published, Released, RolledBack})
  }

  /** `save_catalog` accepts; `verified` is the positive evidence of a maintenance rollback. */
  predicate SaveAllowed(current: Option<Record>, expected: Option<Record>, r: Record, verified: bool) {
    && Checkpoint(r) && current == expected && (r.phase == RolledBack ==> verified)
    && if expected.None? || Settled(expected.value.phase) then
         && r.phase == Claimed && r.previous == Backup(expected)
         && (expected.Some? ==> r.transactionId != expected.value.transactionId)
       else
         && SameTransaction(expected.value, r)
         && (expected.value.marker.Some? ==> r.marker == expected.value.marker)
         && (r.previous == expected.value.previous || (r.phase in {Released, RolledBack} && r.previous.None?))
         && PhaseStep(expected.value.phase, r.phase)
  }

  predicate RestoreAllowed(current: Option<Record>, expected: Record) {
    current == Some(expected) && expected.phase == Aborted && expected.previous.Some?
  }

  datatype Write = Save(expected: Option<Record>, record: Record, verified: bool) | RestoreAbort(aborted: Record)

  function Next(current: Option<Record>, w: Write): Option<Record> {
    match w
    case Save(expected, r, verified) => if SaveAllowed(current, expected, r, verified) then Some(r) else current
    case RestoreAbort(aborted) => if RestoreAllowed(current, aborted) then aborted.previous else current
  }

  /** The durable record after a run of writes, from an empty table. */
  function Run(writes: seq<Write>): Option<Record> {
    if writes == [] then None else Next(Run(writes[..|writes| - 1]), writes[|writes| - 1])
  }

  /** The last record of the run that was released or rolled back. */
  function LastSettled(writes: seq<Write>): Option<Record> {
    if writes == [] then None
    else
      var r := Run(writes);
      if r.Some? && r.value.phase in {Released, RolledBack} then Stripped(r) else LastSettled(writes[..|writes| - 1])
  }

  /** What an abort would put back, and what the record itself stands for once settled. */
  predicate RemembersSettled(r: Option<Record>, settled: Option<Record>) {
    if r.None? then settled.None?
    else if r.value.phase in {Released, RolledBack} then settled == Stripped(r)
    else r.value.previous == settled
  }

  lemma {:induction false} NextRemembers(r: Option<Record>, settled: Option<Record>, w: Write)
    requires RemembersSettled(r, settled) && (r.Some? ==> Checkpoint(r.value))
    ensures var r' := Next(r, w);
            && (r'.Some? ==> Checkpoint(r'.value))
            && (if r'.Some? && r'.value.phase in {Released, RolledBack} then true else RemembersSettled(r', settled))
  {
  }

  /**
   Over every run of writes: the record is well formed, its backup never nests, and until the next release
   the backup is exactly the last settled record of the run.
   */
  lemma {:induction false} BackupIsLastSettled(writes: seq<Write>)
    ensures Run(writes).Some? ==> Checkpoint(Run(writes).value)
    ensures RemembersSettled(Run(writes), LastSettled(writes))
  {
    hide Next, Checkpoint;
    if writes != [] {
      var n := |writes| - 1;
      BackupIsLastSettled(writes[..n]);
      NextRemembers(Run(writes[..n]), LastSettled(writes[..n]), writes[n]);
    }
  }

  /** A backup never holds a backup, and is always a settled transaction. */
  lemma {:induction false} NoDeeperBackup(writes: seq<Write>)
    requires Run(writes).Some? && Run(writes).value.previous.Some?
    ensures var p := Run(writes).value.previous.value;
            p.previous.None? && p.phase in {Released, RolledBack} && Checkpoint(p)
  {
    BackupIsLastSettled(writes);
  }

  // ---- one transaction ----

  function Rank(phase: Phase): nat {
    match phase
    case Claimed => 0
    case Published => 1
    case _ => 2
  }

  /** What later records of a transaction keep. */
  predicate Later(r: Record, r': Record) {
    && SameTransaction(r, r') && (r.marker.Some? ==> r'.marker == r.marker)
    && (r.phase == r'.phase || Rank(r.phase) < Rank(r'.phase))
  }

  /** The transaction stays the current one from write i to write j. */
  predicate Current(writes: seq<Write>, i: nat, j: nat, id: nat) {
    j <= |writes| && forall k | i <= k <= j :: HasId(Run(writes[..k]), id)
  }

  predicate HasId(r: Option<Record>, id: nat) {
    r.Some? && r.value.transactionId == id
  }

  /** A claim never reuses the identity of the transaction it would restore. */
  predicate FreshId(r: Option<Record>) {
    r.Some? && r.value.previous.Some? ==> r.value.previous.value.transactionId != r.value.transactionId
  }

  lemma {:induction false} NextIsLater(r: Record, w: Write, r': Record)
    requires Checkpoint(r) && FreshId(Some(r))
    requires Next(Some(r), w) == Some(r') && r'.transactionId == r.transactionId
    ensures Later(r, r') && FreshId(Some(r'))
  {
  }

  /** While a transaction is current, its manifests, epochs and receipt never change and its phase only advances. */
  lemma {:induction false} TransactionIsStable(writes: seq<Write>, i: nat, j: nat, id: nat)
    requires i <= j && Current(writes, i, j, id) && FreshId(Run(writes[..i]))
    ensures Later(Run(writes[..i]).value, Run(writes[..j]).value) && FreshId(Run(writes[..j]))
    decreases j
  {
    hide Next, Checkpoint, SameTransaction;
    assert HasId(Run(writes[..i]), id) && HasId(Run(writes[..j]), id);
    if i < j {
      TransactionIsStable(writes, i, j - 1, id);
      BackupIsLastSettled(writes[..j - 1]);
      assert writes[..j][..j - 1] == writes[..j - 1] && writes[..j][j - 1] == writes[j - 1];
      assert HasId(Run(writes[..j - 1]), id);
      NextIsLater(Run(writes[..j - 1]).value, writes[j - 1], Run(writes[..j]).value);
      LaterTransitive(Run(writes[..i]).value, Run(writes[..j - 1]).value, Run(writes[..j]).value);
    } else {
      LaterReflexive(Run(writes[..i]).value);
    }
  }

  lemma {:induction false} LaterReflexive(r: Record)
    ensures Later(r, r)
  {
  }

  lemma {:induction false} LaterTransitive(a: Record, b: Record, c: Record)
    requires Later(a, b) && Later(b, c)
    ensures Later(a, c)
  {
  }
}
