/**
 `Upgrade` of deploy/upgrade.py: the switch to a new generation, `restore` and `rollback`, as single
 durable writes with a possible crash at each of them. Files, pointer, transaction records and state
 file survive a crash. No other process writes the managed files.
 */
module Upgrade {
  import opened Options
  import opened UpgradeFiles

  /** What goes wrong at the next write or command; once the script is empty, nothing does. */
  datatype Trouble =
    | Fine
    | Crash
    | Refuse  // it fails before its effect
    | Late    // it fails after its effect

  datatype End = Done | Raised | Died

  /** A command of the operator, and what goes wrong during it. */
  datatype Attempt =
    | Undo(token: nat, script: seq<Trouble>)
    | Apply(token: nat, next: string, planned: map<File, string>, manifestContent: string, script: seq<Trouble>)

  type Transactions = map<nat, Transaction>

  /** The token's transaction, if the state file names it, can be rolled back from this state. */
  predicate CurrentRecoverable(ts: Transactions, state: Option<StateFile>, files: Contents, pointer: Option<string>) {
    state.Some? ==> state.value.token in ts && Recoverable(ts[state.value.token], files, pointer)
  }

  /** Rolling a transaction back leaves the one before it recoverable in turn. */
  predicate Chained(ts: Transactions) {
    forall k | k in ts :: CurrentRecoverable(ts, ts[k].previousState, ts[k].before, ts[k].previous)
  }

  predicate AllGuarded(ts: Transactions, others: map<string, Option<string>>, settings: string) {
    forall k | k in ts :: GuardedSame(ts[k], others) && ts[k].settings == settings
  }

  /** A transaction is only made after a settled one. */
  predicate SettledBefore(ts: Transactions) {
    forall k | k in ts && ts[k].previousState.Some? :: SettledStatus(ts[k].previousState.value.status)
  }

  /** No transaction was made while this one was current. */
  predicate Latest(ts: Transactions, token: nat) {
    forall k | k in ts :: ts[k].previousState.Some? ==> ts[k].previousState.value.token != token
  }

  /** The state file names this transaction. */
  predicate Names(state: Option<StateFile>, token: nat) {
    state.Some? && state.value.token == token
  }

  predicate SettledStatus(s: Status) {
    s == Committed || s == RolledBack || s == FailedBeforeSwitch
  }

  /** The status plays no part in a rollback. */
  lemma SameRecoverable(t: Transaction, t': Transaction, files: Contents, pointer: Option<string>)
    requires t.before == t'.before && t.planned == t'.planned && t.previous == t'.previous && t.next == t'.next
    ensures Recoverable(t, files, pointer) <==> Recoverable(t', files, pointer)
  {
    if Recoverable(t, files, pointer) {
      forall f | NewLauncher(t', files, f) ensures pointer.Some? {
        assert NewLauncher(t, files, f);
      }
      forall f | f in ALLOWED ensures FileAccepted(t', f, files[f]) {
        assert FileAccepted(t, f, files[f]);
      }
    }
    if Recoverable(t', files, pointer) {
      forall f | NewLauncher(t, files, f) ensures pointer.Some? {
        assert NewLauncher(t', files, f);
      }
      forall f | f in ALLOWED ensures FileAccepted(t, f, files[f]) {
        assert FileAccepted(t', f, files[f]);
      }
    }
  }

  lemma UntouchedRecoverable(t: Transaction)
    ensures Recoverable(t, t.before, t.previous)
  {
  }

  class Installation {
    const settings: string
    var files: Contents
    var others: map<string, Option<string>>  // protected files
    var pointer: Option<string>
    var transactions: Transactions
    var state: Option<StateFile>
    var script: seq<Trouble>

    predicate Valid()
      reads this`transactions, this`state, this`files, this`others, this`pointer
    {
      && Chained(transactions) && AllGuarded(transactions, others, settings) && SettledBefore(transactions)
      && CurrentRecoverable(transactions, state, files, pointer)
    }

    /** `load`: an upgrade may start only after a settled one. */
    predicate Ready()
      reads this`state
    {
      state.None? || SettledStatus(state.value.status)
    }

    /** `rollback` finds nothing to do. */
    predicate AlreadyUndone(token: nat)
      reads this`transactions, this`files, this`pointer
    {
      token in transactions && transactions[token].status == RolledBack && Restored(transactions[token], files, pointer)
    }

    /** The state file keeps calling a transaction unfinished that has nothing left to undo. */
    predicate Stuck()
      reads this`transactions, this`state, this`files, this`pointer
    {
      !Ready() && AlreadyUndone(state.value.token)
    }

    constructor (settings: string, files: Contents, others: map<string, Option<string>>, pointer: Option<string>,
                 script: seq<Trouble>)
      ensures Valid() && this.files == files && this.pointer == pointer && state.None? && transactions == map[]
    {
      this.settings, this.files, this.others, this.pointer := settings, files, others, pointer;
      transactions, state, this.script := map[], None, script;
    }

    method Ask() returns (trouble: Trouble)
      modifies this`script
      ensures if old(script) == [] then trouble.Fine? && script == []
              else trouble == old(script)[0] && script == old(script)[1..]
    {
      if script == [] {
        return Fine;
      }
      trouble, script := script[0], script[1..];
    }

    /** `atomic` on a managed file, or its `unlink`. */
    method Write(f: File, content: Option<string>) returns (end: End)
      requires f in ALLOWED
      modifies this`files, this`script
      ensures files == old(files) || files == old(files)[f := content]
      ensures end == Done ==> files == old(files)[f := content]
      ensures old(script) == [] ==> script == [] && end == Done
    {
      var trouble := Ask();
      if trouble.Fine? || trouble.Late? {
        files := files[f := content];
      }
      end := if trouble.Fine? then Done else if trouble.Crash? then Died else Raised;
    }

    /** `point`. */
    method Point(value: Option<string>) returns (end: End)
      modifies this`pointer, this`script
      ensures pointer == old(pointer) || pointer == value
      ensures end == Done ==> pointer == value
      ensures old(script) == [] ==> script == [] && end == Done
    {
      var trouble := Ask();
      if trouble.Fine? || trouble.Late? {
        pointer := value;
      }
      end := if trouble.Fine? then Done else if trouble.Crash? then Died else Raised;
    }

    /** `json_write` of the transaction record. */
    method Note(token: nat, t: Transaction) returns (end: End)
      modifies this`transactions, this`script
      ensures transactions == old(transactions) || transactions == old(transactions)[token := t]
      ensures end == Done ==> transactions == old(transactions)[token := t]
      ensures old(script) == [] ==> script == [] && end == Done
      ensures old(script) == [Fine, Crash] ==> script == [Crash] && end == Done
    {
      var trouble := Ask();
      if trouble.Fine? || trouble.Late? {
        transactions := transactions[token := t];
      }
      end := if trouble.Fine? then Done else if trouble.Crash? then Died else Raised;
    }

    /** `json_write` of the state file. */
    method Mark(s: StateFile) returns (end: End)
      modifies this`state, this`script
      ensures state == old(state) || state == Some(s)
      ensures end == Done ==> state == Some(s)
      ensures old(script) == [] ==> script == [] && end == Done
      ensures old(script) == [Crash] ==> state == old(state) && end == Died
    {
      var trouble := Ask();
      if trouble.Fine? || trouble.Late? {
        state := Some(s);
      }
      end := if trouble.Fine? then Done else if trouble.Crash? then Died else Raised;
    }

    /** A command: restart, health, idle. */
    method Command() returns (end: End)
      modifies this`script
      ensures old(script) == [] ==> script == [] && end == Done
    {
      var trouble := Ask();
      end := if trouble.Fine? then Done else if trouble.Crash? then Died else Raised;
    }

    // ---- restore ----

    /** The checks of `restore`: every pointer, managed file and protected file, before any write. */
    method Check(t: Transaction) returns (ok: bool)
      ensures ok == RestoreAccepts(t, settings, files, others, pointer)
    {
      if t.settings != settings || (pointer != t.previous && pointer != Some(t.next)) {
        return false;
      }
      var names := ALLOWED;
      while names != {}
        invariant names <= ALLOWED && forall f | f in ALLOWED - names :: FileAccepted(t, f, files[f])
      {
        var f :| f in names;
        if files[f] != t.before[f] && files[f] != PlannedOf(t, f) {
          assert !FileAccepted(t, f, files[f]);
          return false;
        }
        names := names - {f};
      }
      var paths := t.guarded.Keys;
      while paths != {}
        invariant paths <= t.guarded.Keys
        invariant forall n | n in t.guarded.Keys - paths :: n in others && others[n] == t.guarded[n]
      {
        var n :| n in paths;
        if n !in others || others[n] != t.guarded[n] {
          return false;
        }
        paths := paths - {n};
      }
      return true;
    }

    /** The record is this process's view of the current transaction, and nobody else wrote. */
    predicate Holds(token: nat, t: Transaction)
      reads this`transactions, this`state, this`files, this`others, this`pointer
    {
      && Valid() && token in transactions && state.Some? && state.value.token == token
      && Recoverable(t, files, pointer) && GuardedSame(t, others) && t.settings == settings
      && t.previousState == transactions[token].previousState && t.before == transactions[token].before
      && t.previous == transactions[token].previous && t.next == transactions[token].next
      && (t.planned == transactions[token].planned || Latest(transactions, token))
    }

    lemma NoteHolds(token: nat, t: Transaction, t': Transaction)
      requires Holds(token, t) && t' == t.(status := t'.status)
      ensures var after := transactions[token := t'];
              && Chained(after) && AllGuarded(after, others, settings) && SettledBefore(after)
              && CurrentRecoverable(after, state, files, pointer) && Recoverable(t', files, pointer)
              && GuardedSame(t', others) && (Latest(transactions, token) ==> Latest(after, token))
    {
      hide Recoverable;
      SameRecoverable(t, t', files, pointer);
      var after := transactions[token := t'];
      forall k | k in after
        ensures CurrentRecoverable(after, after[k].previousState, after[k].before, after[k].previous)
      {
        assert k in transactions;
        assert CurrentRecoverable(transactions, transactions[k].previousState, transactions[k].before, transactions[k].previous);
        if transactions[k].previousState.Some? && transactions[k].previousState.value.token == token {
          SameRecoverable(transactions[token], t', transactions[k].before, transactions[k].previous);
        }
      }
    }

    /** The durable record is exactly this one. */
    predicate Owns(token: nat, t: Transaction)
      reads this`transactions, this`state, this`files, this`others, this`pointer
    {
      Valid() && state.Some? && state.value.token == token && token in transactions && transactions[token] == t
    }

    /** Save the record with another status. */
    method NoteStatus(token: nat, t: Transaction, status: Status) returns (end: End, t': Transaction)
      requires Holds(token, t)
      modifies this`transactions, this`script
      ensures t' == t.(status := status)
      ensures Valid() && token in transactions && transactions.Keys == old(transactions).Keys
      ensures transactions[token] == old(transactions)[token] || transactions[token] == t'
      ensures Holds(token, t') && (end == Done ==> Owns(token, t'))
      ensures old(Latest(transactions, token)) ==> Latest(transactions, token)
      ensures old(script) == [] ==> script == [] && end == Done
      ensures old(script) == [Fine, Crash] ==> script == [Crash] && end == Done
    {
      hide Recoverable, GuardedSame, AllGuarded, CurrentRecoverable, Chained, Latest, SettledBefore;
      t' := t.(status := status);
      NoteHolds(token, t, t');
      end := Note(token, t');
    }

    /** One managed file is written or removed by the current transaction. */
    method Put(token: nat, t: Transaction, f: File, content: Option<string>) returns (end: End)
      requires Owns(token, t) && f in ALLOWED && Recoverable(t, files[f := content], pointer)
      modifies this`files, this`script
      ensures Owns(token, t)
      ensures files == old(files) || files == old(files)[f := content]
      ensures end == Done ==> files == old(files)[f := content]
      ensures old(script) == [] ==> script == [] && end == Done
    {
      hide Recoverable, AllGuarded, Chained, SettledBefore;
      end := Write(f, content);
    }

    /** The pointer is moved by the current transaction. */
    method Turn(token: nat, t: Transaction, value: Option<string>) returns (end: End)
      requires Owns(token, t) && Recoverable(t, files, value)
      modifies this`pointer, this`script
      ensures Owns(token, t)
      ensures pointer == old(pointer) || pointer == value
      ensures end == Done ==> pointer == value
      ensures old(script) == [] ==> script == [] && end == Done
    {
      hide Recoverable, AllGuarded, Chained, SettledBefore;
      end := Point(value);
    }

    /** The loop of `restore` over the managed files. */
    method RestoreFiles(token: nat, t: Transaction) returns (end: End)
      requires Owns(token, t)
      modifies this`files, this`script
      ensures Owns(token, t)
      ensures end == Done ==> files == t.before
      ensures old(script) == [] ==> script == [] && end == Done
    {
      hide Recoverable, AllGuarded, Chained, SettledBefore;
      end := Done;
      var names := ALLOWED;
      while names != {} && end == Done
        invariant Owns(token, t) && names <= ALLOWED
        invariant end == Done ==> forall f | f in ALLOWED - names :: files[f] == t.before[f]
        invariant old(script) == [] ==> script == [] && end == Done
      {
        var f :| f in names;
        if files[f] != t.before[f] {
          RestoreStep(t, files, pointer, f);
          end := Put(token, t, f, t.before[f]);
        }
        names := names - {f};
      }
    }

    /**
     `restore`. It refuses, before any write, unless every file and the pointer hold what the transaction
     knows; otherwise each write keeps the state recoverable, so that it may be run again after a crash.
     */
    method Restore(token: nat, t: Transaction) returns (end: End)
      requires token in transactions && (RestoreAccepts(t, settings, files, others, pointer) ==> Holds(token, t))
      modifies this`transactions, this`state, this`files, this`pointer, this`script
      ensures !old(RestoreAccepts(t, settings, files, others, pointer)) ==>
                end == Raised && files == old(files) && pointer == old(pointer)
                && transactions == old(transactions) && state == old(state)
      ensures old(RestoreAccepts(t, settings, files, others, pointer)) ==> Valid()
      ensures token in transactions && transactions.Keys == old(transactions).Keys
      ensures old(RestoreAccepts(t, settings, files, others, pointer)) && end == Done ==>
                Restored(t, files, pointer) && Ready()
      ensures old(RestoreAccepts(t, settings, files, others, pointer)) && old(script) == [] ==> end == Done
      ensures old(RestoreAccepts(t, settings, files, others, pointer)) ==>
                transactions[token].before == t.before && transactions[token].previous == t.previous
                && (Restored(t, files, pointer) || (state.Some? && state.value.token == token))
    {
      hide Recoverable, GuardedSame, Chained, SettledBefore, AllGuarded, RestoreAccepts;
      var ok := Check(t);
      if !ok {
        return Raised;
      }
      var record;
      end, record := NoteStatus(token, t, RollingBack);
      if end == Done {
        end := PutBack(token, record);
      }
      if end == Done {
        end := Leave(token, record);
      }
    }

    /** The writes of `restore`, between its first and its last note. */
    method PutBack(token: nat, t: Transaction) returns (end: End)
      requires Owns(token, t)
      modifies this`state, this`files, this`pointer, this`script
      ensures Owns(token, t)
      ensures end == Done ==> Restored(t, files, pointer) && state == Some(StateFile(token, RollingBack))
      ensures old(script) == [] ==> script == [] && end == Done
    {
      hide Recoverable, GuardedSame, Chained, SettledBefore, AllGuarded;
      end := Mark(StateFile(token, RollingBack));
      if end == Done && t.previous.Some? {
        PointerStep(t, files, pointer, t.previous.value);
        end := Turn(token, t, t.previous);
      }
      if end == Done {
        end := RestoreFiles(token, t);
      }
      if end == Done && t.previous.None? {
        NothingNew(t);
        end := Turn(token, t, None);
      }
      if end == Done {
        end := Command();  // restart, protection, health
      }
    }

    lemma NothingNew(t: Transaction)
      ensures t.previous.None? ==> Recoverable(t, t.before, None)
    {
    }

    /** The last two notes; the state file then names the transaction before, if there was one. */
    method Leave(token: nat, t: Transaction) returns (end: End)
      requires Owns(token, t) && Restored(t, files, pointer)
      modifies this`transactions, this`state, this`script
      ensures Valid() && token in transactions && transactions.Keys == old(transactions).Keys
      ensures transactions[token].before == t.before && transactions[token].previous == t.previous
      ensures end == Done ==> Ready() && transactions[token].status == RolledBack
      ensures old(script) == [] ==> end == Done
      ensures old(script) == [Fine, Crash] ==> state == old(state) && transactions[token].status == RolledBack
    {
      hide Recoverable, GuardedSame, AllGuarded, Chained, SettledBefore, CurrentRecoverable;
      var record;
      OwnsHolds(token, t);
      end, record := NoteStatus(token, t, RolledBack);
      if end == Done {
        end := HandBack(token, record, StateFile(token, RolledBack));
      }
    }

    /** The state file goes back to what it said before the transaction, or else says how that ended. */
    method HandBack(token: nat, t: Transaction, ending: StateFile) returns (end: End)
      requires Owns(token, t) && Restored(t, files, pointer) && ending.token == token && SettledStatus(ending.status)
      modifies this`state, this`script
      ensures Valid() && (end == Done ==> Ready())
      ensures old(script) == [] ==> end == Done
      ensures old(script) == [Crash] ==> state == old(state) && end == Died
    {
      hide Recoverable, GuardedSame, AllGuarded, Chained, SettledBefore, CurrentRecoverable;
      var last := if t.previousState.Some? then t.previousState.value else ending;
      LeavesRecoverable(token, t, last);
      end := Mark(last);
    }

    lemma LeavesRecoverable(token: nat, t: Transaction, last: StateFile)
      requires Owns(token, t) && Restored(t, files, pointer)
      requires if t.previousState.Some? then Some(last) == t.previousState else last.token == token && SettledStatus(last.status)
      ensures CurrentRecoverable(transactions, Some(last), files, pointer) && SettledStatus(last.status)
    {
      hide Recoverable, GuardedSame, AllGuarded;
      assert token in transactions;
      assert CurrentRecoverable(transactions, t.previousState, t.before, t.previous);
    }

    lemma OwnsHolds(token: nat, t: Transaction)
      requires Owns(token, t)
      ensures Holds(token, t)
    {
    }

    /** `rollback`. */
    method Rollback(token: nat) returns (end: End)
      requires Valid()
      modifies this`transactions, this`state, this`files, this`pointer, this`script
      ensures Valid() && transactions.Keys == old(transactions).Keys
      ensures end == Done ==> token in transactions && Restored(old(transactions)[token], files, pointer)
      // a finished rollback leaves the way free for the next upgrade, unless it found nothing to do
      ensures end == Done ==> (Ready() <==> (old(AlreadyUndone(token)) ==> old(Ready())))
      ensures old(Stuck()) ==> Stuck() && state == old(state) && files == old(files) && pointer == old(pointer)
      ensures old(Stuck()) && Names(old(state), token) ==> end == Done
      ensures old(script) == [] && Names(old(state), token) ==> end == Done
      ensures token in transactions ==> transactions[token].before == old(transactions)[token].before
                                        && transactions[token].previous == old(transactions)[token].previous
      ensures !Names(old(state), token) ==> files == old(files) && pointer == old(pointer) && state == old(state)
      ensures Names(old(state), token) ==>
                token in transactions && (Names(state, token) || Restored(transactions[token], files, pointer))
    {
      hide Recoverable, GuardedSame, Chained, SettledBefore, AllGuarded;
      if token !in transactions {
        return Raised;
      }
      var t := transactions[token];
      if t.status == RolledBack && pointer == t.previous && files == t.before {
        return Done;
      }
      if !Names(state, token) {
        return Raised;
      }
      end := Command();  // lock, idle
      if end == Done {
        OwnsHolds(token, t);
        HeldIsAccepted(token, t);
        end := Restore(token, t);
      }
    }

    lemma HeldIsAccepted(token: nat, t: Transaction)
      requires Holds(token, t)
      ensures RestoreAccepts(t, settings, files, others, pointer)
    {
    }

    // ---- the switch ----

    /** A transaction made now can be rolled back, and so can the one before it. */
    lemma BeginsRecoverable(token: nat, t: Transaction)
      requires Valid() && Ready() && token !in transactions && t.before == files && t.previous == pointer
      requires t.previousState == state && t.guarded == others && t.settings == settings
      ensures var after := transactions[token := t];
              && Chained(after) && AllGuarded(after, others, settings) && SettledBefore(after)
              && CurrentRecoverable(after, state, files, pointer) && Latest(after, token) && Recoverable(t, files, pointer)
    {
      hide Recoverable;
      var after := transactions[token := t];
      UntouchedRecoverable(t);
      forall k | k in after
        ensures CurrentRecoverable(after, after[k].previousState, after[k].before, after[k].previous)
      {
        if k != token {
          assert CurrentRecoverable(transactions, transactions[k].previousState, transactions[k].before,
                                    transactions[k].previous);
        }
      }
      forall k | k in after && after[k].previousState.Some? ensures after[k].previousState.value.token != token {
        if k != token {
          assert CurrentRecoverable(transactions, transactions[k].previousState, transactions[k].before,
                                    transactions[k].previous);
        }
      }
    }

    /** The first two notes. */
    method Begin(token: nat, t: Transaction) returns (end: End)
      requires Valid() && Ready() && token !in transactions && t.before == files && t.previous == pointer
      requires t.previousState == state && t.guarded == others && t.settings == settings
      modifies this`transactions, this`state, this`script
      ensures Valid() && (token in transactions ==> transactions[token] == t)
      ensures end == Done ==> Owns(token, t) && Latest(transactions, token)
      ensures state == old(state) || (state.Some? && state.value.token == token)
      ensures old(script) == [] ==> script == [] && end == Done
    {
      hide Recoverable, GuardedSame, AllGuarded, Chained, SettledBefore, Latest;
      BeginsRecoverable(token, t);
      end := Note(token, t);
      if end == Done {
        end := Mark(StateFile(token, Preparing));
      }
    }

    /** A failure before the switch: nothing was changed, and the state file goes back. */
    method Withdraw(token: nat, t: Transaction) returns (end: End)
      requires Owns(token, t) && Restored(t, files, pointer)
      modifies this`transactions, this`state, this`script
      ensures Valid() && token in transactions
      ensures transactions[token].before == t.before && transactions[token].previous == t.previous
    {
      hide Recoverable, GuardedSame, AllGuarded, Chained, SettledBefore, CurrentRecoverable;
      var record;
      OwnsHolds(token, t);
      end, record := NoteStatus(token, t, FailedBeforeSwitch);
      if end == Done {
        end := HandBack(token, record, StateFile(token, FailedBeforeSwitch));
      }
    }

    /** Plan the new manifest in the record, before it is written. */
    method PlanManifest(token: nat, t: Transaction, content: string) returns (end: End, t': Transaction)
      requires Owns(token, t) && Latest(transactions, token) && files[ManifestFile] == t.before[ManifestFile]
      modifies this`transactions, this`script
      ensures t' == t.(planned := t.planned[ManifestFile := content])
      ensures Holds(token, t') && Latest(transactions, token)
      ensures transactions[token] == t || transactions[token] == t'
      ensures end == Done ==> Owns(token, t')
      ensures old(script) == [] ==> script == [] && end == Done
    {
      hide Recoverable, GuardedSame, AllGuarded, Chained, SettledBefore, Latest, CurrentRecoverable;
      t' := t.(planned := t.planned[ManifestFile := content]);
      PlanHolds(token, t, t');
      end := Note(token, t');
    }

    lemma PlanHolds(token: nat, t: Transaction, t': Transaction)
      requires Owns(token, t) && Latest(transactions, token) && files[ManifestFile] == t.before[ManifestFile]
      requires ManifestFile in t'.planned && t' == t.(planned := t.planned[ManifestFile := t'.planned[ManifestFile]])
      ensures var after := transactions[token := t'];
              && Chained(after) && AllGuarded(after, others, settings) && SettledBefore(after)
              && CurrentRecoverable(after, state, files, pointer) && Recoverable(t', files, pointer)
              && GuardedSame(t', others) && t'.settings == settings && Latest(after, token)
    {
      hide Recoverable;
      PlanStep(t, files, pointer, t'.planned[ManifestFile]);
      var after := transactions[token := t'];
      forall k | k in after
        ensures CurrentRecoverable(after, after[k].previousState, after[k].before, after[k].previous)
      {
        assert k in transactions;
        assert CurrentRecoverable(transactions, transactions[k].previousState, transactions[k].before, transactions[k].previous);
      }
    }

    /** Point to the new generation, then write the planned files. */
    method WriteFiles(token: nat, t: Transaction) returns (end: End)
      requires Owns(token, t) && t.planned.Keys == SWITCHED && files == t.before
      modifies this`files, this`pointer, this`script
      ensures Owns(token, t)
      ensures files[Config] == t.before[Config] && files[ManifestFile] == t.before[ManifestFile]
      ensures end == Done ==> Switched(t, files, pointer)
      ensures old(script) == [] ==> script == [] && end == Done
    {
      hide Recoverable, GuardedSame, AllGuarded, Chained, SettledBefore;
      PointerStep(t, files, pointer, t.next);
      end := Turn(token, t, Some(t.next));
      var names := SWITCHED;
      while names != {} && end == Done
        invariant Owns(token, t) && names <= SWITCHED
        invariant forall f | f in ALLOWED - SWITCHED :: files[f] == t.before[f]
        invariant end == Done ==> pointer == Some(t.next)
        invariant end == Done ==> forall f | f in SWITCHED - names :: files[f] == Some(t.planned[f])
        invariant old(script) == [] ==> script == [] && end == Done
      {
        var f :| f in names;
        SwitchStep(t, files, f);
        end := Put(token, t, f, Some(t.planned[f]));
        names := names - {f};
      }
    }

    /** Announce the switch, then write. */
    method Start(token: nat, t: Transaction) returns (end: End, t': Transaction)
      requires Owns(token, t) && Latest(transactions, token) && t.planned.Keys == SWITCHED && files == t.before
      modifies this`transactions, this`state, this`files, this`pointer, this`script
      ensures Holds(token, t') && Latest(transactions, token) && t' == t.(status := Switching)
      ensures end == Done ==> Owns(token, t') && Switched(t', files, pointer)
                              && files[ManifestFile] == t.before[ManifestFile]
      ensures old(script) == [] ==> script == [] && end == Done
    {
      hide Holds, Owns, Latest, Switched;
      OwnsHolds(token, t);
      end, t' := NoteStatus(token, t, Switching);
      if end == Done {
        end := MarkOwn(token, t', Switching);
      }
      if end == Done {
        end := WriteFiles(token, t');
        OwnsHolds(token, t');
      }
    }

    /** The switch proper; on failure `t'` is the record in memory. */
    method Apply(token: nat, t: Transaction, manifestContent: string) returns (end: End, t': Transaction)
      requires Owns(token, t) && Latest(transactions, token) && t.planned.Keys == SWITCHED && files == t.before
      modifies this`transactions, this`state, this`files, this`pointer, this`script
      ensures Holds(token, t') && t'.before == t.before && t'.previous == t.previous && t'.next == t.next
      ensures end == Done ==> Switched(t, files, pointer) && files[ManifestFile] == Some(manifestContent)
                              && state == Some(StateFile(token, Committed))
      ensures old(script) == [] ==> end == Done
    {
      hide Holds, Owns, Latest;
      end, t' := Start(token, t);
      if end == Done {
        end := Command();  // restart, protection, configuration unchanged, health
      }
      if end == Done {
        end, t' := Commit(token, t', manifestContent);
      }
    }

    /** Plan and write the manifest, then close the transaction. */
    method Commit(token: nat, t: Transaction, manifestContent: string) returns (end: End, t': Transaction)
      requires Owns(token, t) && Latest(transactions, token) && Switched(t, files, pointer)
      requires files[ManifestFile] == t.before[ManifestFile]
      modifies this`transactions, this`state, this`files, this`script
      ensures Holds(token, t') && t'.before == t.before && t'.previous == t.previous && t'.next == t.next
      ensures end == Done ==> Switched(t, files, pointer) && files[ManifestFile] == Some(manifestContent)
                              && state == Some(StateFile(token, Committed))
      ensures old(script) == [] ==> end == Done
    {
      hide Holds, Owns, Latest;
      end, t' := PlanManifest(token, t, manifestContent);
      if end == Done {
        end := PutManifest(token, t');
        OwnsHolds(token, t');
      }
      if end == Done {
        end, t' := Close(token, t');
      }
    }

    /** The last two notes of a switch. */
    method Close(token: nat, t: Transaction) returns (end: End, t': Transaction)
      requires Holds(token, t)
      modifies this`transactions, this`state, this`script
      ensures Holds(token, t') && t' == t.(status := Committed)
      ensures end == Done ==> state == Some(StateFile(token, Committed))
      ensures old(script) == [] ==> script == [] && end == Done
    {
      hide Holds, Owns, Latest;
      end, t' := NoteStatus(token, t, Committed);
      if end == Done {
        end := MarkOwn(token, t', Committed);
      }
    }

    /** Save the state file, which keeps naming this transaction. */
    method MarkOwn(token: nat, t: Transaction, status: Status) returns (end: End)
      requires Holds(token, t)
      modifies this`state, this`script
      ensures Holds(token, t) && (end == Done ==> state == Some(StateFile(token, status)))
      ensures old(Owns(token, t)) ==> Owns(token, t)
      ensures old(script) == [] ==> script == [] && end == Done
    {
      hide Recoverable, GuardedSame, AllGuarded, Chained, SettledBefore, Latest;
      end := Mark(StateFile(token, status));
    }

    method PutManifest(token: nat, t: Transaction) returns (end: End)
      requires Owns(token, t) && pointer == Some(t.next) && ManifestFile in t.planned
      modifies this`files, this`script
      ensures Owns(token, t)
      ensures forall f | f in ALLOWED && f != ManifestFile :: files[f] == old(files)[f]
      ensures end == Done ==> files[ManifestFile] == Some(t.planned[ManifestFile])
      ensures old(script) == [] ==> script == [] && end == Done
    {
      hide Recoverable, GuardedSame, AllGuarded, Chained, SettledBefore, Latest;
      SwitchStep(t, files, ManifestFile);
      end := Put(token, t, ManifestFile, Some(t.planned[ManifestFile]));
    }

    /** The switch, undone in the same process if it fails. */
    method Replace(token: nat, t: Transaction, manifestContent: string) returns (end: End)
      requires Owns(token, t) && Latest(transactions, token) && t.planned.Keys == SWITCHED && files == t.before
      requires pointer == t.previous
      modifies this`transactions, this`state, this`files, this`pointer, this`script
      ensures Valid() && token in transactions
      ensures transactions[token].before == t.before && transactions[token].previous == t.previous
      ensures (state.Some? && state.value.token == token) || Restored(t, files, pointer)
      ensures end == Done ==> Switched(t, files, pointer) && files[ManifestFile] == Some(manifestContent)
                              && state == Some(StateFile(token, Committed))
      ensures old(script) == [] ==> end == Done
    {
      hide Recoverable, GuardedSame, AllGuarded, Chained, SettledBefore, Latest;
      var record;
      end, record := Apply(token, t, manifestContent);
      if end == Raised {
        HeldIsAccepted(token, record);
        var undone := Restore(token, record);
        end := if undone == Died then Died else Raised;
      }
    }

    /**
     `upgrade`, from the first record to the commit. Whatever happens, the durable state stays valid; if the
     state file does not name this transaction at the end, nothing has changed.
     */
    method Switch(token: nat, next: string, planned: map<File, string>, manifestContent: string) returns (end: End)
      requires Valid() && token !in transactions && planned.Keys == SWITCHED
      modifies this`transactions, this`state, this`files, this`pointer, this`script
      ensures Valid()
      ensures !old(Ready()) ==> end == Raised && transactions == old(transactions) && state == old(state)
                                && files == old(files) && pointer == old(pointer)
      ensures token in transactions ==>
                transactions[token].before == old(files) && transactions[token].previous == old(pointer)
      ensures (state.Some? && state.value.token == token && token in transactions)
              || (files == old(files) && pointer == old(pointer))
      ensures end == Done ==>
                if old(pointer) == Some(next) then files == old(files) && pointer == old(pointer)
                else && pointer == Some(next) && files[Config] == old(files)[Config]
                     && (forall f | f in SWITCHED :: files[f] == Some(planned[f]))
                     && files[ManifestFile] == Some(manifestContent)
                     && state == Some(StateFile(token, Committed))
      ensures old(script) == [] && old(Ready()) ==> end == Done
    {
      hide Recoverable, GuardedSame, AllGuarded, Chained, SettledBefore, Latest;
      if !Ready() {
        return Raised;
      }
      if pointer == Some(next) {
        return Done;  // already current
      }
      var t := Transaction(Preparing, settings, files, others, planned, pointer, next, state);
      end := Begin(token, t);
      if end == Done {
        end := Command();  // prepare the generation, preflight, guards, idle
        if end == Raised {
          var withdrawn := Withdraw(token, t);
          end := if withdrawn == Died then Died else Raised;
        }
      }
      if end == Done {
        end := Replace(token, t, manifestContent);
      }
    }

    /**
     From every state that a crash or failure of the switch leaves, and after any number of rollbacks that
     crash or fail themselves, one undisturbed rollback ends with the pointer and all files as before.
     */
    method UndoAfterCrashes(token: nat, next: string, planned: map<File, string>, manifestContent: string,
                            attempts: seq<seq<Trouble>>)
      requires Valid() && token !in transactions && planned.Keys == SWITCHED
      modifies this`transactions, this`state, this`files, this`pointer, this`script
      ensures Valid() && files == old(files) && pointer == old(pointer)
    {
      hide Recoverable, GuardedSame, AllGuarded, Chained, SettledBefore, Latest, CurrentRecoverable;
      var end := Switch(token, next, planned, manifestContent);
      for i := 0 to |attempts|
        invariant Valid()
        invariant token in transactions ==>
                    transactions[token].before == old(files) && transactions[token].previous == old(pointer)
        invariant (Names(state, token) && token in transactions) || (files == old(files) && pointer == old(pointer))
      {
        script := attempts[i];
        end := Rollback(token);
      }
      script := [];
      end := Rollback(token);
    }

    /**
     A crash between the last two notes of `restore` is never repaired: every later upgrade is refused, and every
     later rollback finds nothing to do, whatever is attempted in whatever order.
     */
    method StuckForever(token: nat, t: Transaction, attempts: seq<Attempt>)
      requires Owns(token, t) && Restored(t, files, pointer) && state == Some(StateFile(token, RollingBack))
      modifies this`transactions, this`state, this`files, this`pointer, this`script
      ensures Valid() && Stuck() && state == old(state) && Restored(t, files, pointer)
    {
      hide Recoverable, GuardedSame, AllGuarded, Chained, Latest, CurrentRecoverable, SettledBefore;
      script := [Fine, Crash];
      var end := Leave(token, t);
      for i := 0 to |attempts|
        invariant Valid() && Stuck() && state == old(state) && files == old(files) && pointer == old(pointer)
      {
        script := attempts[i].script;
        match attempts[i] {
          case Undo(other, _) =>
            end := Rollback(other);
          case Apply(other, next, planned, manifestContent, _) =>
            if other !in transactions && planned.Keys == SWITCHED {
              end := Switch(other, next, planned, manifestContent);
            }
        }
      }
    }
  }
}
