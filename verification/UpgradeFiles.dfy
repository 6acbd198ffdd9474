/** The file transaction of deploy/upgrade.py: what its record promises about the files and the pointer. */
module UpgradeFiles {
  import opened Options

  /** The six managed files. */
  datatype File = Unit | Config | Cli | CliRun | SchedulerRun | ManifestFile

  const ALLOWED: set<File> := {Unit, Config, Cli, CliRun, SchedulerRun, ManifestFile}
  const LAUNCHERS: set<File> := {Cli, CliRun, SchedulerRun}
  const SWITCHED: set<File> := {Unit, Cli, CliRun, SchedulerRun}

  /** File contents; None is an absent file. Digests are compared by content. */
  type Contents = m: map<File, Option<string>> | m.Keys == ALLOWED
    witness map[Unit := None, Config := None, Cli := None, CliRun := None, SchedulerRun := None, ManifestFile := None]

  datatype Status = Preparing | Switching | Committed | RollingBack | RolledBack | FailedBeforeSwitch

  datatype StateFile = StateFile(token: nat, status: Status)

  datatype Transaction = Transaction(
    status: Status, settings: string, before: Contents, guarded: map<string, Option<string>>,
    planned: map<File, string>, previous: Option<string>, next: string, previousState: Option<StateFile>)

  /** `planned_sha256.get(name)`. */
  function PlannedOf(t: Transaction, f: File): Option<string> {
    if f in t.planned then Some(t.planned[f]) else None
  }

  predicate FileAccepted(t: Transaction, f: File, now: Option<string>)
    requires f in ALLOWED
  {
    now == t.before[f] || now == PlannedOf(t, f)
  }

  predicate FilesAccepted(t: Transaction, files: Contents) {
    forall f | f in ALLOWED :: FileAccepted(t, f, files[f])
  }

  predicate PointerAccepted(t: Transaction, pointer: Option<string>) {
    pointer == t.previous || pointer == Some(t.next)
  }

  /** Launcher bytes of this transaction that were not there before it. */
  predicate NewLauncher(t: Transaction, files: Contents, f: File) {
    f in LAUNCHERS && f in t.planned && files[f] == Some(t.planned[f]) && t.before[f] != files[f]
  }

  /** A new launcher resolves the pointer, so there must be one. */
  predicate LaunchersResolve(t: Transaction, files: Contents, pointer: Option<string>) {
    forall f | NewLauncher(t, files, f) :: pointer.Some?
  }

  /** No write but the transaction's own happened; a rollback would be accepted. */
  predicate Recoverable(t: Transaction, files: Contents, pointer: Option<string>) {
    FilesAccepted(t, files) && PointerAccepted(t, pointer) && LaunchersResolve(t, files, pointer)
  }

  predicate Restored(t: Transaction, files: Contents, pointer: Option<string>) {
    files == t.before && pointer == t.previous
  }

  /** The new generation is in place; the operator's configuration is untouched. */
  predicate Switched(t: Transaction, files: Contents, pointer: Option<string>) {
    && pointer == Some(t.next) && files[Config] == t.before[Config]
    && forall f | f in SWITCHED :: f in t.planned && files[f] == Some(t.planned[f])
  }

  /** The tests that `restore` makes before its first write. */
  predicate RestoreAccepts(t: Transaction, settings: string, files: Contents, others: map<string, Option<string>>,
                           pointer: Option<string>) {
    && t.settings == settings && PointerAccepted(t, pointer) && FilesAccepted(t, files)
    && GuardedSame(t, others)
  }

  predicate GuardedSame(t: Transaction, others: map<string, Option<string>>) {
    forall n | n in t.guarded :: n in others && others[n] == t.guarded[n]
  }

  /**
   The operator's configuration has no planned content, so exactly its original content and its deletion
   are accepted; the deletion is then repaired.
   */
  lemma ConfigDeletionAccepted(t: Transaction, now: Option<string>)
    requires Config !in t.planned
    ensures FileAccepted(t, Config, now) <==> now == t.before[Config] || now == None
  {
  }

  /** Writing one planned file, with the pointer already switched, leaves a recoverable state. */
  lemma SwitchStep(t: Transaction, files: Contents, f: File)
    requires Recoverable(t, files, Some(t.next)) && f in t.planned
    ensures Recoverable(t, files[f := Some(t.planned[f])], Some(t.next))
  {
    assert FileAccepted(t, f, Some(t.planned[f]));
  }

  /** So does putting one file back. */
  lemma RestoreStep(t: Transaction, files: Contents, pointer: Option<string>, f: File)
    requires Recoverable(t, files, pointer) && f in ALLOWED
    ensures Recoverable(t, files[f := t.before[f]], pointer)
  {
    var after := files[f := t.before[f]];
    forall g | NewLauncher(t, after, g) ensures pointer.Some? {
      assert NewLauncher(t, files, g);
    }
  }

  /** The pointer may move to the new generation at any time, and back to a previous one too. */
  lemma PointerStep(t: Transaction, files: Contents, pointer: Option<string>, to: string)
    requires Recoverable(t, files, pointer) && (to == t.next || Some(to) == t.previous)
    ensures Recoverable(t, files, Some(to))
  {
  }

  /** Without a previous generation the pointer may go only once every file is back. */
  lemma UnpointStep(t: Transaction, files: Contents)
    ensures t.previous.None? && FilesAccepted(t, files) ==>
              (Recoverable(t, files, None) <==> forall f | f in LAUNCHERS :: !NewLauncher(t, files, f))
  {
  }

  /** Planning the manifest, which still has its original content, changes nothing about the other files. */
  lemma PlanStep(t: Transaction, files: Contents, pointer: Option<string>, content: string)
    requires Recoverable(t, files, pointer) && files[ManifestFile] == t.before[ManifestFile]
    ensures Recoverable(t.(planned := t.planned[ManifestFile := content]), files, pointer)
  {
    var t' := t.(planned := t.planned[ManifestFile := content]);
    forall f | f in ALLOWED ensures FileAccepted(t', f, files[f]) {
      assert FileAccepted(t, f, files[f]);
    }
    forall f | NewLauncher(t', files, f) ensures pointer.Some? {
      assert NewLauncher(t, files, f);
    }
  }
}
