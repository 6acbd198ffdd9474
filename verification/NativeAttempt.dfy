/**
 The native side of the bootstrap (`stage`, `activate` and `rollback` of deploy/bootstrap_native.py): six
 target files and a private record, replaced one durable write at a time, with a possible crash at each.
 */
module NativeAttempt {
  import opened Options

  datatype Kind = UnitFragment | NativeConfig | Launcher | LauncherConfig | NativeProfile | AttemptEnvironment

  const KINDS := [UnitFragment, NativeConfig, Launcher, LauncherConfig, NativeProfile, AttemptEnvironment]

  /** A file; contents stand for their digests. */
  datatype Image = Image(content: string, mode: nat, uid: nat, gid: nat)

  /** The manifest's row of a target. */
  datatype Row = Row(before: Option<Image>, after: Image)

  type Targets = map<Kind, Option<Image>>

  datatype Record = Record(
    installed: seq<Kind>, pendingFile: Option<Kind>, stopSubmitted: bool, sourceAbsentObserved: bool,
    activationSubmitted: bool, rollbackSubmitted: bool, rolledBack: bool)

  datatype Trouble = Fine | Crash | Refuse | Late

  datatype End = Done | Raised | Died

  predicate Total<T>(m: map<Kind, T>) {
    forall k: Kind :: k in m
  }

  predicate AllBefore(rows: map<Kind, Row>, targets: Targets)
    requires Total(rows) && Total(targets)
  {
    forall k: Kind :: targets[k] == rows[k].before
  }

  predicate AllAfter(rows: map<Kind, Row>, targets: Targets)
    requires Total(rows) && Total(targets)
  {
    forall k: Kind :: targets[k] == Some(rows[k].after)
  }

  predicate Known(row: Row, now: Option<Image>) {
    now == row.before || now == Some(row.after)
  }

  /** Somebody else wrote a target. */
  predicate Foreign(rows: map<Kind, Row>, targets: Targets)
    requires Total(rows) && Total(targets)
  {
    exists k: Kind :: !Known(rows[k], targets[k])
  }

  /** The loop that saves the originals has finished. */
  predicate BackedUp(rows: map<Kind, Row>, backups: map<Kind, string>)
    requires Total(rows)
  {
    forall k: Kind :: rows[k].before.Some? ==> k in backups && backups[k] == rows[k].before.value.content
  }

  /** Until the stop of the source is submitted, only the unit fragment may differ. */
  predicate OnlyFragment(rows: map<Kind, Row>, targets: Targets)
    requires Total(rows) && Total(targets)
  {
    forall k: Kind | k != UnitFragment :: targets[k] == rows[k].before
  }

  /** What every crash point keeps while nobody else writes. */
  predicate Consistent(rows: map<Kind, Row>, r: Record, targets: Targets, backups: map<Kind, string>)
    requires Total(rows) && Total(targets)
  {
    && (forall k: Kind :: Known(rows[k], targets[k]) || (k == AttemptEnvironment && r.activationSubmitted))
    && (BackedUp(rows, backups) || AllBefore(rows, targets))
    && (if r.stopSubmitted then BackedUp(rows, backups) else OnlyFragment(rows, targets))
    && (r.sourceAbsentObserved ==> r.stopSubmitted) && (r.activationSubmitted ==> r.sourceAbsentObserved)
    && (r.rolledBack ==> r.rollbackSubmitted && AllBefore(rows, targets) && !r.activationSubmitted)
  }

  /** Everything `rollback` asks before its first write, given what it is told and what it probes. */
  predicate RollbackAdmitted(rows: map<Kind, Row>, r: Record, targets: Targets, backups: map<Kind, string>,
                             unlaunched: bool, absent: bool)
    requires Total(rows) && Total(targets)
  {
    && unlaunched && !r.activationSubmitted && !r.rolledBack && !r.rollbackSubmitted
    && (absent || (!r.stopSubmitted && OnlyFragment(rows, targets)))
    && !Foreign(rows, targets) && BackedUp(rows, backups)
  }

  /** Neither an activation nor a rollback was ever announced. */
  predicate OnlyStaged(r: Record) {
    !r.activationSubmitted && !r.rolledBack && !r.rollbackSubmitted
  }

  function Index(k: Kind): (i: nat)
    ensures i < |KINDS| && KINDS[i] == k
  {
    match k
    case UnitFragment => 0
    case NativeConfig => 1
    case Launcher => 2
    case LauncherConfig => 3
    case NativeProfile => 4
    case AttemptEnvironment => 5
  }

  /** Installing a file that the record allows. */
  lemma InstallKeeps(rows: map<Kind, Row>, r: Record, targets: Targets, backups: map<Kind, string>, k: Kind)
    requires Total(rows) && Total(targets) && Consistent(rows, r, targets, backups) && BackedUp(rows, backups)
    requires !r.rolledBack && (k == UnitFragment || r.stopSubmitted)
    ensures Consistent(rows, r, targets[k := Some(rows[k].after)], backups)
  {
  }

  /** Which files are installed or pending plays no part. */
  lemma NoteKeeps(rows: map<Kind, Row>, r: Record, r': Record, targets: Targets, backups: map<Kind, string>)
    requires Total(rows) && Total(targets) && Consistent(rows, r, targets, backups)
    requires r' == r.(installed := r'.installed, pendingFile := r'.pendingFile)
    ensures Consistent(rows, r', targets, backups)
  {
  }

  lemma FreshKeeps(rows: map<Kind, Row>, r: Record, targets: Targets, backups: map<Kind, string>)
    requires Total(rows) && Total(targets) && AllBefore(rows, targets)
    requires !r.rolledBack && !r.activationSubmitted && !r.sourceAbsentObserved && !r.stopSubmitted
    ensures Consistent(rows, r, targets, backups)
  {
  }

  /** Everything `activate` asks of the record, the files and the unit. */
  predicate ActivationAdmitted(rows: map<Kind, Row>, r: Record, targets: Targets, absent: bool)
    requires Total(rows) && Total(targets)
  {
    r.sourceAbsentObserved && !r.activationSubmitted && !r.rolledBack && AllAfter(rows, targets) && absent
  }

  /**
   A submitted rollback by itself does not exclude the activation. After one that was interrupted, the
   activation is admitted exactly while the source is absent and no target was put back yet.
   */
  lemma ActivationAfterInterruptedRollback(rows: map<Kind, Row>, r: Record, targets: Targets,
                                           backups: map<Kind, string>, absent: bool)
    requires Total(rows) && Total(targets) && Consistent(rows, r, targets, backups)
    requires r.rollbackSubmitted && !r.rolledBack && !r.activationSubmitted && r.sourceAbsentObserved
    ensures ActivationAdmitted(rows, r, targets, absent)
            <==> absent && forall k: Kind | rows[k].before != Some(rows[k].after) :: targets[k] != rows[k].before
  {
    if forall k: Kind | rows[k].before != Some(rows[k].after) :: targets[k] != rows[k].before {
      forall k: Kind ensures targets[k] == Some(rows[k].after) {
        assert Known(rows[k], targets[k]);
      }
    }
  }

  /** The shortest such case: a rollback that stopped right after announcing itself. */
  lemma RollbackDoesNotExcludeActivation(rows: map<Kind, Row>, targets: Targets, backups: map<Kind, string>)
    requires Total(rows) && Total(targets) && AllAfter(rows, targets) && BackedUp(rows, backups)
    ensures var r := Record(KINDS, None, true, true, false, true, false);
            Consistent(rows, r, targets, backups) && ActivationAdmitted(rows, r, targets, true)
  {
    forall k: Kind ensures Known(rows[k], targets[k]) {
    }
  }

  lemma RestoreKeeps(rows: map<Kind, Row>, r: Record, targets: Targets, backups: map<Kind, string>, k: Kind)
    requires Total(rows) && Total(targets) && Consistent(rows, r, targets, backups) && BackedUp(rows, backups)
    requires !r.rolledBack && !Foreign(rows, targets)
    ensures Consistent(rows, r, targets[k := rows[k].before], backups)
    ensures !Foreign(rows, targets[k := rows[k].before])
  {
    forall j: Kind ensures Known(rows[j], targets[k := rows[k].before][j]) {
      assert Known(rows[j], targets[j]);
    }
  }

  class Attempt {
    const rows: map<Kind, Row>
    var targets: Targets
    var backups: map<Kind, string>
    var record: Option<Record>
    var script: seq<Trouble>

    predicate Shape()
      reads this`targets
    {
      Total(rows) && Total(targets)
    }

    predicate Valid()
      reads this`targets, this`backups, this`record
    {
      Shape() && (record.Some? ==> Consistent(rows, record.value, targets, backups))
    }

    constructor (rows: map<Kind, Row>, targets: Targets, script: seq<Trouble>)
      requires Total(rows) && Total(targets)
      ensures Valid() && this.rows == rows && this.targets == targets && record.None?
    {
      this.rows, this.targets, this.script, backups, record := rows, targets, script, map[], None;
    }

    method Ask() returns (trouble: Trouble)
      modifies this`script
      ensures old(script) == [] ==> trouble.Fine? && script == []
    {
      if script == [] {
        return Fine;
      }
      trouble, script := script[0], script[1..];
    }

    /** A command or observation. */
    method Command() returns (end: End)
      modifies this`script
      ensures old(script) == [] ==> script == [] && end == Done
    {
      var trouble := Ask();
      end := if trouble.Fine? then Done else if trouble.Crash? then Died else Raised;
    }

    /** `private_update`. */
    method Update(expected: Record, next: Record) returns (end: End)
      modifies this`record, this`script
      ensures record == old(record) || (record == Some(next) && old(record) == Some(expected))
      ensures end == Done ==> record == Some(next)
      ensures old(script) == [] && old(record) == Some(expected) ==> script == [] && end == Done
    {
      if record != Some(expected) {
        return Raised;
      }
      var trouble := Ask();
      if trouble.Fine? || trouble.Late? {
        record := Some(next);
      }
      end := if trouble.Fine? then Done else if trouble.Crash? then Died else Raised;
    }

    /** `replace_owned`: only over the expected image, with exactly the wanted content. */
    method ReplaceOwned(k: Kind, expected: Option<Image>, content: string, wanted: Image) returns (end: End)
      requires Shape()
      modifies this`targets, this`script
      ensures Shape()
      ensures targets == old(targets)
              || (targets == old(targets)[k := Some(wanted)] && old(targets)[k] == expected && content == wanted.content)
      ensures end == Done ==> targets == old(targets)[k := Some(wanted)]
      ensures old(script) == [] && old(targets)[k] == expected && content == wanted.content ==>
                script == [] && end == Done
    {
      if content != wanted.content || targets[k] != expected {
        return Raised;
      }
      var trouble := Ask();
      if trouble.Fine? || trouble.Late? {
        targets := targets[k := Some(wanted.(content := content))];
      }
      end := if trouble.Fine? then Done else if trouble.Crash? then Died else Raised;
    }

    method Remove(k: Kind, expected: Image) returns (end: End)
      requires Shape()
      modifies this`targets, this`script
      ensures Shape()
      ensures targets == old(targets) || (targets == old(targets)[k := None] && old(targets)[k] == Some(expected))
      ensures end == Done ==> targets == old(targets)[k := None]
      ensures old(script) == [] && old(targets)[k] == Some(expected) ==> script == [] && end == Done
    {
      if targets[k] != Some(expected) {
        return Raised;
      }
      var trouble := Ask();
      if trouble.Fine? || trouble.Late? {
        targets := targets[k := None];
      }
      end := if trouble.Fine? then Done else if trouble.Crash? then Died else Raised;
    }

    // ---- stage ----

    /** `_install`: announce the file, replace it, note it. */
    method Install(r: Record, k: Kind) returns (end: End, r': Record)
      requires Valid() && record == Some(r) && BackedUp(rows, backups) && !r.rolledBack && !r.activationSubmitted
      requires k == UnitFragment || r.stopSubmitted
      modifies this`targets, this`record, this`script
      ensures Valid() && record.Some? && (OnlyStaged(r) ==> OnlyStaged(record.value))
      ensures end == Done ==> record == Some(r') && targets == old(targets)[k := Some(rows[k].after)]
                              && r' == r.(pendingFile := None, installed := r.installed + [k])
      ensures targets == old(targets) || targets == old(targets)[k := Some(rows[k].after)]
      ensures old(script) == [] && old(targets)[k] == rows[k].before ==> script == [] && end == Done
    {
      hide BackedUp, Consistent;
      r' := r.(pendingFile := Some(k));
      NoteKeeps(rows, r, r', targets, backups);
      InstallKeeps(rows, r', targets, backups, k);
      end := Update(r, r');
      if end == Done {
        end := ReplaceOwned(k, rows[k].before, rows[k].after.content, rows[k].after);
      }
      if end == Done {
        var next := r'.(pendingFile := None, installed := r'.installed + [k]);
        NoteKeeps(rows, r', next, targets, backups);
        end := Update(r', next);
        r' := next;
      }
    }

    /** The originals are saved before the first replacement. */
    method SaveBackups() returns (end: End)
      requires Valid() && AllBefore(rows, targets) && backups == map[]
      modifies this`backups, this`script
      ensures Valid() && (end == Done ==> BackedUp(rows, backups))
      ensures old(script) == [] ==> script == [] && end == Done
    {
      end := Done;
      for i := 0 to |KINDS|
        invariant Valid() && (old(script) == [] ==> script == [])
        invariant forall j | 0 <= j < i :: rows[KINDS[j]].before.Some? ==>
                    KINDS[j] in backups && backups[KINDS[j]] == rows[KINDS[j]].before.value.content
      {
        var k := KINDS[i];
        if rows[k].before.Some? {
          if targets[k].None? || targets[k].value.content != rows[k].before.value.content {
            return Raised;
          }
          var trouble := Ask();
          if !trouble.Crash? && !trouble.Refuse? {
            backups := backups[k := targets[k].value.content];
          }
          if !trouble.Fine? {
            return (if trouble.Crash? then Died else Raised);
          }
        }
      }
      AllSaved();
    }

    lemma AllSaved()
      requires Total(rows)
      requires forall j | 0 <= j < |KINDS| :: rows[KINDS[j]].before.Some? ==>
                 KINDS[j] in backups && backups[KINDS[j]] == rows[KINDS[j]].before.value.content
      ensures BackedUp(rows, backups)
    {
      forall k: Kind | rows[k].before.Some? ensures k in backups && backups[k] == rows[k].before.value.content {
        assert KINDS[Index(k)] == k;
      }
    }

    /** `stage`: never replayed; the fragment first, the other five only once the old source is gone. */
    method Stage() returns (end: End)
      requires Valid()
      modifies this
      ensures Valid()
      ensures old(record).Some? ==> end == Raised && record == old(record) && targets == old(targets)
      ensures end == Done ==> AllAfter(rows, targets)
      ensures old(record).None? ==> if record.None? then targets == old(targets) else OnlyStaged(record.value)
      ensures old(record).None? && record.Some? ==> old(AllBefore(rows, targets))
      ensures old(script) == [] && old(record).None? && old(AllBefore(rows, targets)) ==> end == Done
    {
      if record.Some? || !AllBefore(rows, targets) {
        return Raised;
      }
      end := Command();  // the rest of the preflight, and the directory
      if end != Done {
        return;
      }
      hide BackedUp, Consistent;
      var r := Record([], None, false, false, false, false, false);
      FreshKeeps(rows, r, targets, map[]);
      record, backups := Some(r), map[];
      end := StageFiles(r);
    }

    method StageFiles(claimed: Record) returns (end: End)
      requires Valid() && record == Some(claimed) && AllBefore(rows, targets) && backups == map[]
      requires !claimed.stopSubmitted && OnlyStaged(claimed)
      modifies this
      ensures Valid() && record.Some? && OnlyStaged(record.value) && (end == Done ==> AllAfter(rows, targets))
      ensures old(script) == [] ==> end == Done
    {
      hide BackedUp, Consistent;
      var r := claimed;
      end := SaveBackups();
      if end == Done {
        end, r := Install(r, UnitFragment);
      }
      if end == Done {
        end := Command();  // daemon-reload; the same source still runs
      }
      if end == Done {
        end, r := StopSource(r);
      }
      if end == Done {
        end := InstallOthers(r);
      }
      if end == Done {
        end := Command();  // the closing observation
      }
    }

    /** Submit the stop, then wait for the source to be gone. */
    method StopSource(r: Record) returns (end: End, r': Record)
      requires Valid() && record == Some(r) && !r.stopSubmitted && BackedUp(rows, backups) && !r.rolledBack
      requires !r.activationSubmitted
      modifies this`record, this`script
      ensures Valid() && record.Some? && (OnlyStaged(r) ==> OnlyStaged(record.value))
      ensures r' == r.(stopSubmitted := r'.stopSubmitted, sourceAbsentObserved := r'.sourceAbsentObserved)
      ensures end == Done ==> record == Some(r') && r'.stopSubmitted && r'.sourceAbsentObserved
      ensures old(script) == [] ==> script == [] && end == Done
    {
      hide BackedUp;
      r' := r.(stopSubmitted := true);
      end := Update(r, r');
      if end == Done {
        end := Command();  // stop the bound process and see it absent, with no late backend
      }
      if end == Done {
        var next := r'.(sourceAbsentObserved := true);
        end := Update(r', next);
        r' := next;
      }
    }

    method InstallOthers(r: Record) returns (end: End)
      requires Valid() && record == Some(r) && r.stopSubmitted && BackedUp(rows, backups)
      requires targets[UnitFragment] == Some(rows[UnitFragment].after)
      requires !r.rolledBack && !r.activationSubmitted
      modifies this`targets, this`record, this`script
      ensures Valid() && record.Some? && (OnlyStaged(r) ==> OnlyStaged(record.value))
      ensures end == Done ==> AllAfter(rows, targets)
      ensures old(script) == [] && (forall k: Kind | k != UnitFragment :: old(targets)[k] == rows[k].before) ==>
                script == [] && end == Done
    {
      hide BackedUp, Consistent;
      end := Done;
      var current := r;
      var i := 1;
      while i < |KINDS| && end == Done
        invariant 1 <= i <= |KINDS| && Valid() && record.Some? && (OnlyStaged(r) ==> OnlyStaged(record.value))
        invariant end == Done ==> record == Some(current)
        invariant end == Done ==> current == r.(pendingFile := current.pendingFile, installed := current.installed)
        invariant end == Done ==> forall j | 0 <= j < i :: targets[KINDS[j]] == Some(rows[KINDS[j]].after)
        invariant forall j | i <= j < |KINDS| :: targets[KINDS[j]] == old(targets)[KINDS[j]]
        invariant old(script) == [] && (forall k: Kind | k != UnitFragment :: old(targets)[k] == rows[k].before) ==>
                    script == [] && end == Done
      {
        end, current := Install(current, KINDS[i]);
        i := i + 1;
      }
      if end == Done {
        forall k: Kind ensures targets[k] == Some(rows[k].after) {
          assert KINDS[Index(k)] == k;
        }
      }
    }

    // ---- activate ----

    /** `activate`: announce, bind the attempt in the environment file, start the unit. */
    method Activate(absent: bool, tags: string) returns (end: End)
      requires Valid() && record.Some?
      modifies this`targets, this`record, this`script
      ensures Valid() && record.Some?
      ensures !old(ActivationAdmitted(rows, record.value, targets, absent)) ==>
                end == Raised && targets == old(targets) && record == old(record)
      ensures end == Done ==> record.value.activationSubmitted && targets[AttemptEnvironment].Some?
                              && targets[AttemptEnvironment].value.content == tags
      ensures forall k: Kind | k != AttemptEnvironment :: targets[k] == old(targets)[k]
    {
      hide BackedUp;
      var r := record.value;
      if !r.sourceAbsentObserved || r.activationSubmitted || r.rolledBack || !absent
         || exists k: Kind :: targets[k] != Some(rows[k].after) {
        return Raised;
      }
      end := Command();  // native profile, confirmed account, free listener
      if end != Done {
        return;
      }
      var next := r.(activationSubmitted := true);
      end := Update(r, next);
      if end == Done {
        var after := rows[AttemptEnvironment].after;
        end := ReplaceOwned(AttemptEnvironment, Some(after), tags, after.(content := tags));
      }
      if end == Done {
        end := Command();  // start, then observe until ready
      }
    }

    // ---- rollback ----

    /** The comparison of every target and backup, before anything is restored. */
    method Inspect() returns (ok: bool)
      requires Shape()
      ensures ok == (!Foreign(rows, targets) && BackedUp(rows, backups))
    {
      for i := 0 to |KINDS|
        invariant forall j | 0 <= j < i :: Known(rows[KINDS[j]], targets[KINDS[j]])
        invariant forall j | 0 <= j < i :: rows[KINDS[j]].before.Some? ==>
                    KINDS[j] in backups && backups[KINDS[j]] == rows[KINDS[j]].before.value.content
      {
        var k := KINDS[i];
        if targets[k] != rows[k].before && targets[k] != Some(rows[k].after) {
          assert !Known(rows[k], targets[k]);
          return false;
        }
        if rows[k].before.Some? && (k !in backups || backups[k] != rows[k].before.value.content) {
          return false;
        }
      }
      AllSaved();
      forall k: Kind ensures Known(rows[k], targets[k]) {
        assert KINDS[Index(k)] == k;
      }
      return true;
    }

    /**
     `rollback`. It is one-shot, and refuses before any write unless all is known; when it runs to the end
     every target is as it was, and with no trouble it does run to the end.
     */
    method Rollback(unlaunched: bool, absent: bool) returns (end: End)
      requires Shape() && record.Some?
      requires RollbackAdmitted(rows, record.value, targets, backups, unlaunched, absent) ==> Valid()
      modifies this`targets, this`record, this`script
      ensures Shape() && record.Some? && (old(Valid()) ==> Valid())
      ensures var admitted := old(RollbackAdmitted(rows, record.value, targets, backups, unlaunched, absent));
              && (!admitted ==> end == Raised && targets == old(targets) && record == old(record))
              && (admitted && old(script) == [] ==> end == Done)
      ensures end == Done ==> AllBefore(rows, targets) && record.value.rolledBack
      ensures forall k: Kind | old(targets)[k] == rows[k].before :: targets[k] == rows[k].before
    {
      var r := record.value;
      if !unlaunched || r.activationSubmitted || r.rolledBack || r.rollbackSubmitted {
        return Raised;
      }
      if !absent && (r.stopSubmitted || exists k: Kind :: k != UnitFragment && targets[k] != rows[k].before) {
        return Raised;
      }
      var known := Inspect();
      if !known {
        return Raised;
      }
      var next := r.(rollbackSubmitted := true);
      end := Update(r, next);
      if end == Done {
        end, next := RestoreTargets(next);
      }
      if end == Done {
        end := Command();  // daemon-reload; the source is still as observed
      }
      if end == Done {
        end := Update(next, next.(rolledBack := true));
      }
      if end == Done {
        end := Command();  // the closing observation
      }
    }

    /** The loop over the kinds in reverse. */
    method RestoreTargets(r: Record) returns (end: End, r': Record)
      requires Valid() && record == Some(r) && BackedUp(rows, backups) && !Foreign(rows, targets)
      requires r.rollbackSubmitted && !r.activationSubmitted && !r.rolledBack
      modifies this`targets, this`record, this`script
      ensures Valid() && record.Some?
      ensures r' == r.(pendingFile := r'.pendingFile)
      ensures end == Done ==> AllBefore(rows, targets) && record == Some(r')
      ensures forall k: Kind | old(targets)[k] == rows[k].before :: targets[k] == rows[k].before
      ensures old(script) == [] ==> script == [] && end == Done
    {
      hide BackedUp, Consistent;
      end, r' := Done, r;
      var i := |KINDS|;
      while i > 0 && end == Done
        invariant 0 <= i <= |KINDS| && Valid() && record.Some? && !Foreign(rows, targets)
        invariant r' == r.(pendingFile := r'.pendingFile)
        invariant end == Done ==> record == Some(r')
        invariant end == Done ==> forall j | i <= j < |KINDS| :: targets[KINDS[j]] == rows[KINDS[j]].before
        invariant forall k: Kind | old(targets)[k] == rows[k].before :: targets[k] == rows[k].before
        invariant old(script) == [] ==> script == [] && end == Done
      {
        i := i - 1;
        end, r' := RestoreOne(r', KINDS[i]);
      }
      if end == Done {
        forall k: Kind ensures targets[k] == rows[k].before {
          assert KINDS[Index(k)] == k;
        }
      }
    }

    method RestoreOne(r: Record, k: Kind) returns (end: End, r': Record)
      requires Valid() && record == Some(r) && BackedUp(rows, backups) && !Foreign(rows, targets)
      requires r.rollbackSubmitted && !r.activationSubmitted && !r.rolledBack
      modifies this`targets, this`record, this`script
      ensures Valid() && record.Some? && !Foreign(rows, targets)
      ensures r' == r.(pendingFile := r'.pendingFile)
      ensures targets == old(targets) || targets == old(targets)[k := rows[k].before]
      ensures end == Done ==> record == Some(r') && targets == old(targets)[k := rows[k].before]
      ensures old(script) == [] ==> script == [] && end == Done
    {
      hide Consistent, BackedUp;
      r', end := r, Done;
      if targets[k] == rows[k].before {
        assert targets[k := rows[k].before] == targets;
        return;
      }
      assert Known(rows[k], targets[k]);
      r' := r.(pendingFile := Some(k));
      NoteKeeps(rows, r, r', targets, backups);
      RestoreKeeps(rows, r', targets, backups, k);
      end := Update(r, r');
      if end == Done {
        if rows[k].before.None? {
          end := Remove(k, rows[k].after);
        } else {
          BackupOf(k);
          end := ReplaceOwned(k, Some(rows[k].after), backups[k], rows[k].before.value);
        }
      }
      if end == Done {
        var next := r'.(pendingFile := None);
        NoteKeeps(rows, r', next, targets, backups);
        end := Update(r', next);
        r' := next;
      }
    }

    lemma BackupOf(k: Kind)
      requires Total(rows) && BackedUp(rows, backups) && rows[k].before.Some?
      ensures k in backups && backups[k] == rows[k].before.value.content
    {
    }

    /**
     From every state that a crash or failure of staging leaves, one undisturbed rollback puts every target back,
     as long as the stop of the source was not submitted or the source is absent. It cannot be repeated.
     */
    method UndoAfterCrash(absent: bool) returns (end: End, stopped: bool)
      requires Valid() && record.None? && AllBefore(rows, targets)
      modifies this
      ensures Valid()
      ensures absent || !stopped ==> AllBefore(rows, targets)
      ensures (absent || !stopped) && record.Some? && BackedUp(rows, backups) ==> end == Done && record.value.rolledBack
    {
      hide BackedUp;
      end := Stage();
      stopped := record.Some? && record.value.stopSubmitted;
      if record.Some? {
        script := [];
        end := Rollback(true, absent);
      }
    }
  }
}
