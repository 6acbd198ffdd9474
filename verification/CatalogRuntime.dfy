/**
 Publishing catalog generations (`CatalogRuntime` of llmsvc/catalog.py): restart recovery, the claim, the
 queue's callback, release, abort and reconciliation, with a possible crash at every question put to the
 environment. A crash keeps the checkpoint, the configuration file and its receipt, and drops everything else.
 */
module CatalogRuntime {
  import opened Options
  import opened CatalogManifest
  import opened CatalogRecord

  /** A submission that was prepared while `epoch` was current. */
  datatype PreparedCatalog = PreparedCatalog(base: string, binding: Binding, manifest: Manifest, epoch: nat)

  datatype Answer =
    | Crash
    | Go                     // guards, proofs, constructions and writes succeed
    | Refuse                 // one of them raises
    | Edit(content: string)  // an operator rewrites the configuration file first

  datatype End = Done | Raised | Died

  /** How the queue left the job it was given. */
  datatype Outcome = Nothing | Failed | Uncertain | Applied

  function LastOf(generations: seq<Manifest>): Manifest
    requires |generations| > 0
  {
    generations[|generations| - 1]
  }

  /** The manifest and epoch a checkpoint stands for. */
  function GenerationOf(r: Record): (Manifest, nat) {
    if r.phase == Published || r.phase == Released then (r.newManifest, r.newEpoch) else (r.oldManifest, r.oldEpoch)
  }

  /** The manifest of the last transaction that a checkpoint shows settled. */
  function SettledOf(r: Record): Manifest {
    if r.phase == Released then r.newManifest else r.oldManifest
  }

  /** An abort before any generation was published: a restart then starts from the configuration again. */
  predicate FirstAborted(r: Record) {
    r.phase == Aborted && r.previous.None?
  }

  ghost predicate RecordCore(r: Record, counter: nat) {
    && Checkpoint(r) && r.phase != RolledBack && Prepared(r.oldManifest, r.newManifest)
    && r.oldEpoch < r.newEpoch < counter && r.transactionId < counter
  }

  /** An abort puts back the generation its transaction started from. */
  ghost predicate BackupFits(r: Record, counter: nat) {
    if r.previous.Some? then
      && RecordCore(r.previous.value, counter) && r.previous.value.phase == Released
      && GenerationOf(r.previous.value) == (r.oldManifest, r.oldEpoch)
    else r.phase == Released || r.oldEpoch == 0
  }

  /** What holds at every crash point. */
  ghost predicate DurableOk(record: Option<Record>, generations: seq<Manifest>, settled: Manifest, counter: nat) {
    && counter > 0 && |generations| > 0 && Lineage(generations)
    && if record.None? then generations == [settled]
       else
         && RecordCore(record.value, counter) && BackupFits(record.value, counter)
         && LastOf(generations) == GenerationOf(record.value).0 && settled == SettledOf(record.value)
  }

  ghost predicate JobsOk(jobs: map<string, PreparedCatalog>, manifest: Manifest, epoch: nat) {
    forall j | j in jobs :: jobs[j].epoch <= epoch && (jobs[j].epoch == epoch ==> Prepared(manifest, jobs[j].manifest))
  }

  /** The running process: what it serves, by the durable checkpoint. */
  ghost predicate ServingOk(record: Option<Record>, generations: seq<Manifest>, manifest: Manifest, epoch: nat,
                            fenced: bool) {
    && Disjoint(manifest)
    && (record.None? ==> epoch == 0 && generations == [manifest])
    && (record.Some? ==>
          var r := record.value;
          && (!fenced ==> r.phase == Aborted || r.phase == Released)
          && if FirstAborted(r) then epoch == 0 && (!fenced ==> manifest == r.oldManifest)
             else || (manifest, epoch) == GenerationOf(r)
                  || (fenced && r.phase == Published && (manifest, epoch) == (r.oldManifest, r.oldEpoch)))
  }

  lemma {:induction false} LineageGrows(generations: seq<Manifest>, m: Manifest)
    requires |generations| > 0 && Lineage(generations) && Prepared(LastOf(generations), m)
    ensures Lineage(generations + [m])
  {
    hide Prepared;
    var longer := generations + [m];
    forall i | 0 < i < |longer| ensures Succeeds(longer, i) {
      if i < |generations| {
        assert Succeeds(generations, i);
      }
    }
  }

  /** A process that starts from the configuration alone. */
  lemma {:induction false} StartsFresh(record: Option<Record>, generations: seq<Manifest>, settled: Manifest, counter: nat,
                    manifest: Manifest, fenced: bool)
    requires DurableOk(record, generations, settled, counter) && manifest.retained == map[]
    ensures counter > 0
    ensures record.None? ==> DurableOk(record, [manifest], manifest, counter)
                             && ServingOk(record, [manifest], manifest, 0, false)
    ensures record.Some? && FirstAborted(record.value) && (!fenced ==> manifest == record.value.oldManifest) ==>
              ServingOk(record, generations, manifest, 0, fenced)
  {
    hide Checkpoint, Prepared;
  }

  /** The record whose generation a restart serves. */
  function Resumed(r: Record): Record {
    if r.phase == Aborted && r.previous.Some? then r.previous.value else r
  }

  lemma {:induction false} StartsFromCheckpoint(r: Record, generations: seq<Manifest>, settled: Manifest, counter: nat, fenced: bool)
    requires DurableOk(Some(r), generations, settled, counter) && !FirstAborted(r)
    requires fenced || r.phase == Released
    ensures var g := GenerationOf(Resumed(r)); ServingOk(Some(r), generations, g.0, g.1, fenced) && g.1 < counter
  {
    hide Prepared, Lineage;
  }

  /** The record `process_once` claims. */
  function ClaimFor(record: Option<Record>, job: string, prepared: PreparedCatalog, manifest: Manifest, epoch: nat,
                    counter: nat): Record {
    Record(counter, job, epoch, counter + 1, Claimed, prepared.base, prepared.binding.candidate, None,
           prepared.binding, manifest, prepared.manifest, Backup(record))
  }

  lemma {:induction false} ClaimOk(record: Option<Record>, generations: seq<Manifest>, settled: Manifest, counter: nat,
                manifest: Manifest, epoch: nat, job: string, prepared: PreparedCatalog)
    requires DurableOk(record, generations, settled, counter)
    requires ServingOk(record, generations, manifest, epoch, false) && epoch < counter
    requires Prepared(manifest, prepared.manifest)
    ensures var next := ClaimFor(record, job, prepared, manifest, epoch, counter);
            SaveAllowed(record, record, next, false) ==>
              DurableOk(Some(next), generations, settled, counter + 2)
              && ServingOk(Some(next), generations, manifest, epoch, true)
  {
    hide Prepared, Lineage;
  }

  lemma {:induction false} CounterGrows(record: Option<Record>, generations: seq<Manifest>, settled: Manifest, counter: nat)
    requires DurableOk(record, generations, settled, counter)
    ensures DurableOk(record, generations, settled, counter + 2)
  {
    hide Prepared, Lineage, Checkpoint;
  }

  lemma {:induction false} FenceOk(record: Option<Record>, generations: seq<Manifest>, manifest: Manifest, epoch: nat)
    requires ServingOk(record, generations, manifest, epoch, false)
    ensures ServingOk(record, generations, manifest, epoch, true)
  {
  }

  lemma {:induction false} BindOk(r: Record, next: Record, generations: seq<Manifest>, settled: Manifest, counter: nat,
               manifest: Manifest, epoch: nat)
    requires DurableOk(Some(r), generations, settled, counter) && ServingOk(Some(r), generations, manifest, epoch, true)
    requires r.phase == Claimed && next == r.(marker := next.marker) && Checkpoint(next)
    ensures DurableOk(Some(next), generations, settled, counter)
    ensures ServingOk(Some(next), generations, manifest, epoch, true)
  {
    hide Prepared, Lineage;
  }

  lemma {:induction false} PublishOk(r: Record, next: Record, generations: seq<Manifest>, settled: Manifest, counter: nat,
                  manifest: Manifest, epoch: nat)
    requires DurableOk(Some(r), generations, settled, counter) && ServingOk(Some(r), generations, manifest, epoch, true)
    requires r.phase == Claimed && next == r.(phase := Published) && Checkpoint(next)
    ensures DurableOk(Some(next), generations + [next.newManifest], settled, counter)
    ensures ServingOk(Some(next), generations + [next.newManifest], manifest, epoch, true)
  {
    hide Prepared;
    LineageGrows(generations, next.newManifest);
    hide Lineage;
  }

  lemma {:induction false} ServeOk(r: Record, generations: seq<Manifest>, settled: Manifest, counter: nat)
    requires DurableOk(Some(r), generations, settled, counter) && (r.phase == Published || r.phase == Released)
    ensures ServingOk(Some(r), generations, r.newManifest, r.newEpoch, true)
  {
    hide Prepared, Lineage;
  }

  lemma {:induction false} ReleaseOk(r: Record, next: Record, generations: seq<Manifest>, settled: Manifest, counter: nat)
    requires DurableOk(Some(r), generations, settled, counter) && r.phase == Published
    requires next == r.(phase := Released, previous := None) && Checkpoint(next)
    ensures DurableOk(Some(next), generations, r.newManifest, counter)
    ensures ServingOk(Some(next), generations, r.newManifest, r.newEpoch, false)
  {
    hide Prepared, Lineage;
  }

  lemma {:induction false} AbortOk(r: Record, next: Record, generations: seq<Manifest>, settled: Manifest, counter: nat,
                manifest: Manifest, epoch: nat)
    requires DurableOk(Some(r), generations, settled, counter) && ServingOk(Some(r), generations, manifest, epoch, true)
    requires r.phase == Claimed && next == r.(phase := Aborted) && Checkpoint(next)
    ensures DurableOk(Some(next), generations, settled, counter)
    ensures ServingOk(Some(next), generations, manifest, epoch, false)
  {
    hide Prepared, Lineage;
  }

  lemma {:induction false} RestoreOk(r: Record, generations: seq<Manifest>, settled: Manifest, counter: nat, manifest: Manifest,
                  epoch: nat, fenced: bool)
    requires DurableOk(Some(r), generations, settled, counter) && RestoreAllowed(Some(r), r)
    requires ServingOk(Some(r), generations, manifest, epoch, fenced)
    ensures DurableOk(r.previous, generations, settled, counter)
    ensures ServingOk(r.previous, generations, manifest, epoch, fenced)
  {
    hide Prepared, Lineage;
  }

  class CatalogRuntime {
    // durable
    var record: Option<Record>
    var live: string
    var marker: Option<Marker>
    var counter: nat  // fresh identities drawn so far
    // of the running process
    var alive: bool
    var manifest: Manifest
    var epoch: nat
    var fenced: bool
    var pending: Option<Record>
    var jobs: map<string, PreparedCatalog>
    var queued: seq<string>
    var script: seq<Answer>
    ghost var generations: seq<Manifest>  // every generation a checkpoint ever published
    ghost var settled: Manifest           // that of the last settled transaction

    ghost predicate Durable()
      reads this
    {
      DurableOk(record, generations, settled, counter)
    }

    ghost predicate Valid()
      reads this
    {
      Durable() && (alive ==> epoch < counter && JobsOk(jobs, manifest, epoch)
                              && ServingOk(record, generations, manifest, epoch, fenced))
    }

    /** A first start, without a checkpoint. */
    constructor (sources: map<string, string>, models: Profiles, live: string, script: seq<Answer>)
      ensures Valid() && alive && !fenced && generations == [manifest] && manifest == Manifest(sources, models, map[])
    {
      record, this.live, marker, counter, alive := None, live, None, 1, true;
      manifest, epoch, fenced, pending := Manifest(sources, models, map[]), 0, false, None;
      jobs, queued, this.script := map[], [], script;
      settled, generations := Manifest(sources, models, map[]), [Manifest(sources, models, map[])];
    }

    method Ask() returns (end: End)
      modifies this`script, this`live
    {
      while script != [] && script[0].Edit? {
        live, script := script[0].content, script[1..];
      }
      if script == [] {
        return Died;
      }
      end := if script[0].Go? then Done else if script[0].Refuse? then Raised else Died;
      script := script[1..];
    }

    /** A question whose positive answer needs the candidate to be the live configuration. */
    method Proof(candidate: string) returns (end: End)
      modifies this`script, this`live
    {
      end := Ask();
      if end == Done && live != candidate {
        end := Raised;
      }
    }

    /** `save_catalog`; the write itself is atomic. */
    method Save(expected: Option<Record>, next: Record) returns (end: End)
      modifies this`script, this`live, this`record
      ensures end == Done ==> record == Some(next) && SaveAllowed(old(record), expected, next, false)
      ensures end != Done ==> record == old(record)
    {
      hide Checkpoint;
      end := Ask();
      if end == Done {
        if SaveAllowed(record, expected, next, false) {
          record := Some(next);
        } else {
          end := Raised;
        }
      }
    }

    /** `_settled_release`. */
    predicate SettledRelease()
      reads this
    {
      record.Some? && record.value.phase == Released && record.value.previous.None? && marker.None?
      && live == record.value.candidate
    }

    /** A new process over the durable state, at any time; `__init__`. */
    method Restart(sources: map<string, string>, models: Profiles) returns (end: End)
      requires Valid()
      modifies this
      ensures Valid() && (end == Done <==> alive) && record == old(record)
      ensures record.Some? ==> generations == old(generations) && settled == old(settled)
      ensures alive && record.Some? ==>
                (manifest, epoch) == (if FirstAborted(record.value) then (Manifest(sources, models, map[]), 0)
                                      else GenerationOf(Resumed(record.value)))
      ensures alive && record.Some? && !fenced ==>
                if FirstAborted(record.value) then record.value.oldManifest == manifest && marker.None?
                else record.value.phase == Released && record.value.previous.None? && marker.None?
    {
      hide DurableOk, ServingOk, FirstAborted, JobsOk;
      alive, jobs, queued, pending, fenced := false, map[], [], None, false;
      end := Ask();
      if end == Done {
        if record.None? || FirstAborted(record.value) {
          StartFresh(Manifest(sources, models, map[]));
        } else {
          end := StartFromCheckpoint(sources);
        }
      }
    }

    /** Nothing was ever published: serve the configuration, fenced unless it is the one an abort left. */
    method StartFresh(configured: Manifest)
      requires Durable() && (record.Some? ==> FirstAborted(record.value)) && configured.retained == map[]
      requires jobs == map[] && !fenced && !alive
      modifies this`manifest, this`epoch, this`fenced, this`alive, this`generations, this`settled
      ensures Valid() && alive && manifest == configured && epoch == 0
      ensures record.Some? ==> generations == old(generations) && settled == old(settled)
      ensures fenced <==> record.Some? && (record.value.oldManifest != configured || live != record.value.base || marker.Some?)
    {
      hide DurableOk, ServingOk, FirstAborted;
      ghost var before := generations;
      manifest, epoch, alive := configured, 0, true;
      if record.None? {
        generations, settled := [configured], configured;
      } else {
        fenced := record.value.oldManifest != manifest || live != record.value.base || marker.Some?;
      }
      StartsFresh(record, before, old(settled), counter, manifest, fenced);
    }

    /** Serve the generation of the checkpoint, unfenced only when nothing is left to reconcile. */
    method StartFromCheckpoint(sources: map<string, string>) returns (end: End)
      requires Durable() && record.Some? && !FirstAborted(record.value) && jobs == map[] && !fenced && !alive
      modifies this`manifest, this`epoch, this`fenced, this`alive, this`pending, this`script, this`live
      ensures Valid() && (end == Done <==> alive)
      ensures alive ==> (manifest, epoch) == GenerationOf(Resumed(record.value)) && fenced == !old(SettledRelease())
    {
      hide DurableOk, ServingOk, FirstAborted;
      var r := Resumed(record.value);
      if !SettledRelease() {
        fenced, pending := true, Some(r);
      }
      var generation := GenerationOf(r);
      if !SameSources(generation.0.sources, sources) {
        return Raised;
      }
      StartsFromCheckpoint(record.value, generations, settled, counter, fenced);
      end := Ask();  // construct the collectors
      if end == Done {
        manifest, epoch, alive := generation.0, generation.1, true;
      }
    }

    /** `enqueue`: prepare again under the lock, and queue only what is still exactly the prepared generation. */
    method Enqueue(job: string, prepared: PreparedCatalog, world: World, candidate: Candidate, demotable: set<string>)
      returns (end: End)
      requires Valid() && alive
      modifies this`jobs, this`queued, this`script, this`live, this`alive
      ensures Valid() && (end == Died <==> !alive)
      ensures end == Done ==> prepared.epoch == epoch && Prepared(manifest, prepared.manifest)
      ensures end != Done ==> queued == old(queued)
    {
      hide DurableOk, ServingOk, Preparable;
      ServesDisjoint();
      end := Raised;
      if prepared.epoch != epoch {
        return;
      }
      var seen := world.(fenced := fenced, epochCurrent := true, sources := manifest.sources);
      var next := Describe(prepared.manifest.active, seen, candidate, demotable);
      if next != Some(prepared.manifest) || fenced || marker.Some? || queued != [] || live != prepared.base {
        return;
      }
      end := Ask();  // enabled, idle, staged and validated
      if end == Died {
        alive := false;
      } else if end == Done {
        queued, jobs := queued + [job], jobs[job := prepared];
      }
    }

    lemma {:induction false} ServesDisjoint()
      requires Valid() && alive
      ensures Disjoint(manifest)
    {
      hide DurableOk, JobsOk;
    }

    method Describe(active: Profiles, world: World, candidate: Candidate, demotable: set<string>)
      returns (next: Option<Manifest>)
      requires Disjoint(manifest)
      ensures next.Some? ==> Prepared(manifest, next.value)
    {
      var profiles := map n | n in active :: Some(active[n]);
      next := Prepare(manifest, world, candidate, profiles, demotable);
      if next.Some? {
        assert PreparedIn(manifest, next.value, world, candidate, demotable);
      }
    }

    /** Bind the claimed record to the receipt on disk. */
    method BindMarker(r: Record) returns (end: End, bound: Record)
      requires Valid() && alive && fenced && record == Some(r) && r.phase == Claimed
      modifies this`record, this`script, this`live
      ensures Valid() && record == Some(if end == Done then bound else r)
      ensures end == Done ==> bound == r.(marker := bound.marker)
    {
      hide DurableOk, ServingOk, JobsOk, Checkpoint;
      bound := r;
      if marker.None? || marker.value.content != r.candidate || marker.value.binding != r.binding {
        return Raised, bound;
      }
      bound := r.(marker := marker);
      end := Save(Some(r), bound);
      if end == Done {
        BindOk(r, bound, generations, settled, counter, manifest, epoch);
      }
    }

    /** Commit the publication of a claimed record; the process still serves the old generation. */
    method PublishRecord(r: Record) returns (end: End, published: Record)
      requires Valid() && alive && fenced && record == Some(r) && r.phase == Claimed
      modifies this`record, this`script, this`live, this`generations
      ensures Valid() && record == Some(if end == Done then published else r)
      ensures end == Done ==> published == r.(phase := Published) && generations == old(generations) + [r.newManifest]
      ensures end != Done ==> generations == old(generations)
    {
      hide DurableOk, ServingOk, JobsOk, Checkpoint;
      published := r.(phase := Published);
      end := Save(Some(r), published);
      if end == Done {
        PublishOk(r, published, generations, settled, counter, manifest, epoch);
        generations := generations + [r.newManifest];
      }
    }

    /** `_publish`: the process turns to the new generation. */
    method Serve(r: Record) returns (end: End)
      requires Valid() && alive && fenced && record == Some(r) && r.phase in {Published, Released}
      modifies this`manifest, this`epoch, this`script, this`live
      ensures Valid()
      ensures end == Done ==> manifest == r.newManifest && epoch == r.newEpoch
      ensures end != Done ==> manifest == old(manifest) && epoch == old(epoch)
    {
      hide DurableOk, ServingOk;
      end := Ask();
      if end == Done {
        JobsStay(r);
        ServeOk(r, generations, settled, counter);
        manifest, epoch := r.newManifest, r.newEpoch;
      }
    }

    /** No queued job was prepared under an epoch that is not yet served. */
    lemma {:induction false} JobsStay(r: Record)
      requires Valid() && alive && record == Some(r) && r.phase in {Published, Released}
      ensures r.newEpoch < counter && JobsOk(jobs, r.newManifest, r.newEpoch)
    {
      hide Prepared, Lineage, Checkpoint;
    }

    /** `_release_ready` and the release of a published record. */
    method Release(r: Record) returns (end: End)
      requires Valid() && alive && fenced && record == Some(r) && r.phase in {Published, Released}
      modifies this`record, this`script, this`live, this`settled, this`fenced, this`pending
      ensures Valid() && (end != Done ==> fenced)
      ensures end == Done ==> !fenced && record.Some? && record.value.phase == Released
                              && SameTransaction(r, record.value) && manifest == r.newManifest
                              && settled == r.newManifest
    {
      hide DurableOk, ServingOk, JobsOk, Checkpoint;
      end := Proof(r.candidate);  // proof, membership and references confirmed
      if end != Done || marker.Some? || epoch != r.newEpoch {
        return (if end == Done then Raised else end);
      }
      ServesNew(r);
      if r.phase == Published {
        var next := r.(phase := Released, previous := None);
        end := Save(Some(r), next);
        if end != Done {
          return;
        }
        ReleaseOk(r, next, generations, settled, counter);
        settled := r.newManifest;
      }
      pending, fenced := None, false;
    }

    /** At the new epoch, the process serves the new manifest. */
    lemma {:induction false} ServesNew(r: Record)
      requires Valid() && alive && record == Some(r) && r.phase in {Published, Released} && epoch == r.newEpoch
      ensures manifest == r.newManifest
      ensures r.phase == Released ==> settled == r.newManifest
                                      && ServingOk(record, generations, manifest, epoch, false)
    {
      hide Prepared, Lineage, Checkpoint;
    }

    /** `_after_apply`, called by the queue once the candidate is the live configuration. */
    method AfterApply() returns (end: End)
      requires Valid() && alive && fenced && record.Some? && record.value.phase == Claimed && pending == record
      modifies this`record, this`script, this`live, this`generations, this`pending, this`manifest, this`epoch
      ensures Valid() && record.Some?
      ensures end == Done ==> record.value.phase == Published && pending == record && manifest == record.value.newManifest
      ensures generations == if record.value.phase == Published then old(generations) + [record.value.newManifest]
                             else old(generations)
      ensures record.value.phase in {Claimed, Published} && SameTransaction(old(record).value, record.value)
    {
      hide DurableOk, ServingOk, JobsOk, Checkpoint;
      var r := record.value;
      end, r := BindMarker(r);
      if end != Done {
        return;
      }
      pending := Some(r);
      end := Proof(r.candidate);  // adoption proof, membership and reactivation confirmed
      if end != Done {
        return;
      }
      end, r := PublishRecord(r);
      if end != Done {
        return;
      }
      pending := Some(r);
      end := Serve(r);
    }

    /**
     The queue's one attempt at the job. Its receipt is on disk from before the commit until the job is applied.
     A job found blocked again before its commit stays queued; any other attempt takes it off the queue.
     */
    method QueueProcess(job: string, prepared: PreparedCatalog) returns (end: End, outcome: Outcome)
      requires Valid() && alive && fenced && record.Some? && record.value.phase == Claimed && pending == record
      requires queued != []
      modifies this`record, this`script, this`live, this`generations, this`pending, this`manifest, this`epoch
      modifies this`marker, this`queued
      ensures Valid() && end in {Done, Died}
      ensures queued == old(queued) || queued == old(queued)[1..]
      ensures end == Done && outcome in {Uncertain, Applied} ==> queued == old(queued)[1..]
      ensures end == Done && outcome in {Failed, Nothing} ==> record == old(record) && manifest == old(manifest)
      ensures end == Done && outcome == Applied ==> record.Some? && record.value.phase == Published && pending == record
    {
      hide DurableOk, ServingOk, JobsOk, Checkpoint;
      outcome := Nothing;
      if marker.Some? {
        return Done, Nothing;
      }
      var taken: bool;
      outcome := Failed;
      end, taken := BeforeCommit(job, prepared);
      if end != Done {
        queued := if taken then queued[1..] else queued;
        return (if end == Died then Died else Done), Failed;
      }
      live := prepared.binding.candidate;  // os.replace
      outcome := Uncertain;
      end := Ask();  // notify the proxy
      if end == Done {
        end := AfterApply();
      }
      if end == Done {
        end := Ask();  // retire the receipt
      }
      queued := queued[1..];
      if end == Done {
        marker, outcome := None, Applied;
      } else if end == Raised {
        end := Done;
      }
    }

    /** Everything before the commit; `taken` says that a job which does not get there leaves the queue. */
    method BeforeCommit(job: string, prepared: PreparedCatalog) returns (end: End, taken: bool)
      requires Valid() && alive && marker.None?
      modifies this`script, this`live, this`marker
      ensures Valid() && (end == Raised ==> marker.None?)
      ensures end == Done ==> taken && marker == Some(Marker(prepared.binding.candidate, prepared.binding, job))
    {
      hide DurableOk, ServingOk, JobsOk, Checkpoint;
      taken := true;
      end := Ask();  // transform and validate
      if end == Done {
        end := Ask();  // the blockers again
        taken := end == Done;
      }
      if end == Done && live != prepared.base {
        end := Raised;
      }
      if end != Done {
        return;
      }
      marker := Some(Marker(prepared.binding.candidate, prepared.binding, job));
      end := Ask();  // the receipt is on disk; the blockers once more
      taken := end == Done;
      if end == Done {
        end := Ask();  // the clock
      }
      if end == Raised {
        marker := None;
      }
    }

    /** `process_once`. */
    method ProcessOnce() returns (end: End, outcome: Outcome)
      requires Valid() && alive
      modifies this
      ensures Valid() && (end == Died <==> !alive)
      ensures end == Done && outcome == Applied ==> !fenced && record.Some? && record.value.phase == Released
                                                    && manifest == settled == record.value.newManifest
      ensures end == Done && outcome == Failed ==> !fenced && record.Some? && record.value.phase == Aborted
                                                   && manifest == old(manifest)
    {
      hide DurableOk, ServingOk, JobsOk, Checkpoint;
      outcome := Nothing;
      end := Ask();  // enabled and idle
      if end != Done || fenced || queued == [] {
        alive := end != Died;
        return (if end == Done && fenced then Raised else end), outcome;
      }
      var job := queued[0];
      if job !in jobs || jobs[job].epoch != epoch {
        return Raised, outcome;
      }
      end, outcome := Process(job, jobs[job]);
      alive := end != Died;
    }

    /** The claim, the queue's attempt, and what follows from its outcome. */
    method Process(job: string, prepared: PreparedCatalog) returns (end: End, outcome: Outcome)
      requires Valid() && alive && !fenced && queued != []
      requires job in jobs && jobs[job] == prepared && prepared.epoch == epoch
      modifies this
      ensures Valid() && alive
      ensures end == Done && outcome == Applied ==> !fenced && record.Some? && record.value.phase == Released
                                                    && manifest == settled == record.value.newManifest
      ensures end == Done && outcome == Failed ==> !fenced && record.Some? && record.value.phase == Aborted
                                                   && manifest == old(manifest)
    {
      hide DurableOk, ServingOk, JobsOk, Checkpoint;
      outcome := Nothing;
      end := Ask();  // no blockers, reactivation and sources checked, collectors constructed
      if end == Done {
        end := Claim(job, prepared);
      }
      if end == Done {
        end, outcome := QueueProcess(job, prepared);
      }
      if end == Done && outcome == Applied {
        end := FinishApplied();
      } else if end == Done && outcome == Failed {
        end, outcome := Abort(prepared.base);
      }
    }

    /** Fence the actions, then write the claim. */
    method Claim(job: string, prepared: PreparedCatalog) returns (end: End)
      requires Valid() && alive && !fenced && job in jobs && jobs[job] == prepared && prepared.epoch == epoch
      modifies this`record, this`script, this`live, this`fenced, this`pending, this`counter
      ensures Valid() && fenced
      ensures end == Done ==> record.Some? && record.value.phase == Claimed && pending == record
    {
      hide DurableOk, ServingOk, Checkpoint;
      var next := ClaimFor(record, job, prepared, manifest, epoch, counter);
      ClaimOk(record, generations, settled, counter, manifest, epoch, job, prepared);
      CounterGrows(record, generations, settled, counter);
      FenceOk(record, generations, manifest, epoch);
      counter, fenced := counter + 2, true;
      end := Save(record, next);
      if end == Done {
        pending := Some(next);
      }
    }

    /** After the queue: retire the old objects, prove the adoption again, release. */
    method FinishApplied() returns (end: End)
      requires Valid() && alive && fenced && record.Some? && record.value.phase == Published && pending == record
      modifies this`record, this`script, this`live, this`settled, this`fenced, this`pending
      ensures Valid() && (end != Done ==> fenced)
      ensures end == Done ==> !fenced && record.Some? && record.value.phase == Released
                              && manifest == settled == record.value.newManifest
    {
      end := Ask();  // close the replaced collectors, outside the lock
      if end == Done {
        end := Release(record.value);
      }
    }

    /** A job that failed before its commit: the claim is withdrawn only if the configuration is still the base. */
    method Abort(base: string) returns (end: End, outcome: Outcome)
      requires Valid() && alive && fenced && record.Some? && record.value.phase == Claimed
      modifies this`record, this`script, this`live, this`fenced, this`pending
      ensures Valid() && record.Some?
      ensures end == Done && outcome == Failed ==>
                !fenced && record.value.phase == Aborted && old(live) == base && marker.None?
      ensures end != Done || outcome != Failed ==> fenced && outcome == Nothing
    {
      hide DurableOk, ServingOk, JobsOk, Checkpoint;
      var r := record.value;
      outcome := Nothing;
      if marker.Some? || live != base {
        return Done, outcome;
      }
      var next := r.(phase := Aborted);
      end := Save(Some(r), next);
      if end == Done {
        AbortOk(r, next, generations, settled, counter, manifest, epoch);
        pending, fenced, outcome := None, false, Failed;
      }
    }

    /** `reconcile`: prove the adoption, publish if a crash came before, retire the receipt, release. */
    method Reconcile() returns (end: End)
      requires Valid() && alive
      modifies this
      ensures Valid() && (end == Died <==> !alive)
      ensures end == Done ==> !fenced && record.Some? && record.value.phase == Released
                              && manifest == settled == record.value.newManifest
    {
      hide DurableOk, ServingOk, JobsOk, Checkpoint, FirstAborted;
      end := Ask();  // enabled and idle
      if end == Done && record.Some? && record.value.phase == Aborted && record.value.previous.Some? {
        end := RestoreAbort();
      }
      if end == Done {
        end := if record.None? || record.value.phase == Aborted then Raised else Done;
      }
      if end == Done {
        end := Settle();
      }
      alive := end != Died;
    }

    /** `restore_catalog_abort`: the backup becomes the checkpoint again. */
    method RestoreAbort() returns (end: End)
      requires Valid() && alive && record.Some? && RestoreAllowed(record, record.value)
      modifies this`record, this`script, this`live
      ensures Valid() && record == if end == Done then old(record).value.previous else old(record)
    {
      hide DurableOk, ServingOk, JobsOk, Checkpoint;
      end := Ask();
      if end == Done {
        RestoreOk(record.value, generations, settled, counter, manifest, epoch, fenced);
        record := record.value.previous;
      }
    }

    method Settle() returns (end: End)
      requires Valid() && alive && record.Some? && record.value.phase != Aborted
      modifies this
      ensures Valid() && alive
      ensures end == Done ==> !fenced && record.Some? && record.value.phase == Released
                              && manifest == settled == record.value.newManifest
    {
      hide DurableOk, ServingOk, JobsOk, Checkpoint, FirstAborted;
      Fence();
      var r := record.value;
      end := Done;
      if r.marker.None? {
        UnboundIsClaimed(r);
        end, r := BindMarker(r);
      }
      if end == Done {
        end := Proof(r.candidate);
      }
      if end == Done {
        end := Adopt();
      }
      if end == Done {
        end := Ask();  // retire the old objects and confirm the receipt
      }
      if end == Done {
        marker := None;
        end := Proof(r.candidate);
      }
      if end == Done {
        end := Release(record.value);
      }
    }

    method Fence()
      requires Valid() && alive
      modifies this`fenced
      ensures Valid() && fenced
    {
      hide DurableOk, JobsOk, Checkpoint;
      fenced := true;
    }

    lemma {:induction false} UnboundIsClaimed(r: Record)
      requires Valid() && record == Some(r) && r.marker.None? && r.phase != Aborted
      ensures r.phase == Claimed
    {
      hide Prepared, Lineage;
    }

    /** Publish what the process does not serve yet. */
    method Adopt() returns (end: End)
      requires Valid() && alive && fenced && record.Some? && record.value.phase != Aborted
      modifies this`record, this`script, this`live, this`generations, this`pending, this`manifest, this`epoch
      ensures Valid() && record.Some? && record.value.phase != Aborted
      ensures end == Done ==> record.value.phase in {Published, Released}
    {
      hide DurableOk, ServingOk, JobsOk, Checkpoint;
      var r := record.value;
      end := Done;
      PhaseOfCheckpoint(r);
      if epoch != r.newEpoch {
        if r.phase == Claimed {
          end, r := PublishRecord(r);
        }
        if end == Done {
          end := Serve(r);
        }
      } else {
        AtNewEpoch(r);
      }
      if end == Done {
        pending := Some(r);
      }
    }

    lemma {:induction false} PhaseOfCheckpoint(r: Record)
      requires Valid() && record == Some(r) && r.phase != Aborted
      ensures r.phase in {Claimed, Published, Released}
    {
      hide Prepared, Lineage, Checkpoint;
    }

    /** A process at the new epoch serves a published generation. */
    lemma {:induction false} AtNewEpoch(r: Record)
      requires Valid() && alive && record == Some(r) && r.phase != Aborted && epoch == r.newEpoch
      ensures r.phase in {Published, Released}
    {
      hide Prepared, Lineage, Checkpoint;
    }

    // ---- what every run keeps ----

    /** `check_catalog`: an action bound to an epoch may go ahead. */
    predicate ActionAllowed(bound: nat)
      reads this
    {
      alive && !fenced && (record.Some? ==> CatalogRecord.Settled(record.value.phase)) && bound == epoch
    }

    /**
     In every run, actions go ahead only while the checkpoint is absent, aborted or released; the process
     then serves the generation of the last settled transaction, which is also the last published one.
     */
    lemma {:induction false} ActionsSeeSettled(bound: nat)
      requires Valid() && ActionAllowed(bound)
      ensures record.Some? ==> record.value.phase in {Aborted, Released}
      ensures manifest == settled == LastOf(generations)
    {
      hide Prepared, Lineage, Checkpoint;
    }

    /** Every generation the run ever published keeps resources distinct, if its first configuration did. */
    lemma {:induction false} PublishedDistinct(k: nat)
      requires Valid() && k < |generations| && Distinct(generations[0])
      ensures Distinct(generations[k])
    {
      hide DurableOk, ServingOk, Distinct;
      DurableLineage();
      AlwaysDistinct(generations, k);
    }

    lemma {:induction false} DurableLineage()
      requires Valid()
      ensures Lineage(generations)
    {
      hide Prepared, Checkpoint, ServingOk;
    }
  }

  const TIMING := {"deadline", "probe_timeout"}

  predicate SameSources(recorded: map<string, string>, current: map<string, string>) {
    recorded - TIMING == current - TIMING
  }
}
