/**
 The declarative account of fault evidence: everything that happened to a model since its present
 chain of rounds began, and what that history means. It keeps no counters. The detector's counters
 and flags are proved equal to the functions below (module FaultDetection).
 */
module FaultWindow {
  import opened Options
  import opened FaultEvidence

  datatype Item =
    | Round(key: Key, s: Sample)  // a recorded round
    | Cut(stopped: bool)          // an expected transition invalidated the evidence
    | Wake                        // an accepted warm wake

  type Window = w: seq<Item> | w == [] || w[0].Round? witness []

  datatype Event =
    | Observed(call: Call)
    | Invalidated(stopped: bool)
    | WarmWoken(leaseId: string, now: Option<real>)
    | Dropped  // the recovery controller threw the record away

  /** The last recorded round. */
  function Latest(w: Window): (item: Item)
    requires w != []
    ensures item.Round?
  {
    if w[|w| - 1].Round? then w[|w| - 1] else Latest(w[..|w| - 1])
  }

  function Record(w: Window, key: Key, s: Sample): (w': Window)
    ensures w' != [] && w'[|w'| - 1] == Round(key, s)
  {
    if w != [] && Follows(Latest(w).key, Latest(w).s, key, s) then w + [Round(key, s)] else [Round(key, s)]
  }

  predicate AcceptsWake(w: Window, leaseId: string, now: Option<real>) {
    && w != [] && Latest(w).key.leaseId == leaseId
    && Latest(w).s.status.healthOk == Yes && Latest(w).s.status.isSleeping == Yes
    && Known(now) && 0.0 <= now.value - Latest(w).s.receivedAt <= MAX_EVIDENCE_GAP_SECONDS
  }

  function Extend(w: Window, e: Event): Window {
    match e
    case Observed(call) => (
      match Read(call)
      case Rejected => []
      case Absent(s) => if w == [] || !SameAccount(Latest(w).key, s) then w else Record(w, Latest(w).key, s)
      case Present(s, invocation) => Record(w, Key(s.leaseId, s.unit, invocation, s.gpu), s))
    case Invalidated(stopped) => if w == [] then w else w + [Cut(stopped)]
    case WarmWoken(leaseId, now) => if AcceptsWake(w, leaseId, now) then w + [Wake] else w
    case Dropped => []
  }

  /** The window left by a whole history of one model. */
  function WindowOf(history: seq<Event>): Window {
    if history == [] then [] else Extend(WindowOf(history[..|history| - 1]), history[|history| - 1])
  }

  // ---- what the history means ----

  /** Seen serving healthily in this chain, and no expected stop since. */
  ghost predicate Served(w: Window) {
    exists i :: 0 <= i < |w| && ServesAt(w, i) && forall j :: i < j < |w| ==> w[j] != Cut(true)
  }

  ghost predicate ServesAt(w: Window, i: nat)
    requires i < |w|
  {
    w[i].Round? && HealthyAwake(w[i].s)
  }

  /** A served daemon seen warming up: its proxy is starting, or just went from starting or stopped to ready. */
  ghost predicate RestartsAt(w: Window, i: nat)
    requires i < |w|
  {
    && w[i].Round? && Serving(w[i].s) && w[i].s.status.healthOk == Yes && w[i].s.status.isSleeping == Yes
    && Served(w[..i])
    && (|| w[i].s.status.swapState == "starting"
        || (w[i].s.status.swapState == "ready"
            && Latest(w[..i]).s.status.swapState in {"starting", "stopped"}))
  }

  ghost predicate ArmsAt(w: Window, i: nat)
    requires i < |w|
  {
    ServesAt(w, i) || RestartsAt(w, i) || w[i].Wake?
  }

  ghost predicate DisarmsAt(w: Window, i: nat)
    requires i < |w|
  {
    w[i].Cut? || (w[i].Round? && Lost(w[i].s))
  }

  /** Armed at some point of this chain and not disarmed since. */
  ghost predicate Armed(w: Window) {
    exists i :: 0 <= i < |w| && ArmsAt(w, i) && forall j :: i < j < |w| ==> !DisarmsAt(w, j)
  }

  /** How many of the last items are rounds failing their health check. */
  function FailingTail(w: Window): (n: nat)
    ensures n <= |w|
  {
    if w != [] && w[|w| - 1].Round? && Failing(w[|w| - 1].s) then 1 + FailingTail(w[..|w| - 1]) else 0
  }

  /** How many of the last items are rounds whose proxy is ready while the model sleeps. */
  function MismatchTail(w: Window): (n: nat)
    ensures n <= |w|
  {
    if w != [] && w[|w| - 1].Round? && Mismatched(w[|w| - 1].s) then 1 + MismatchTail(w[..|w| - 1]) else 0
  }

  ghost function Failures(w: Window): nat {
    if Armed(w) then FailingTail(w) else 0
  }

  ghost function Mismatches(w: Window): nat {
    if Armed(w) then MismatchTail(w) else 0
  }

  lemma {:induction false} MismatchTailIsRounds(w: Window)
    ensures forall i :: |w| - MismatchTail(w) <= i < |w| ==> w[i].Round? && Mismatched(w[i].s)
    ensures MismatchTail(w) < |w| ==>
              var item := w[|w| - MismatchTail(w) - 1]; item.Round? ==> !Mismatched(item.s)
  {
    if MismatchTail(w) != 0 {
      MismatchTailIsRounds(w[..|w| - 1]);
    }
  }

  lemma {:induction false} FailingTailIsRounds(w: Window)
    ensures forall i :: |w| - FailingTail(w) <= i < |w| ==> w[i].Round? && Failing(w[i].s)
    ensures FailingTail(w) < |w| ==>
              var item := w[|w| - FailingTail(w) - 1]; item.Round? ==> !Failing(item.s)
  {
    if FailingTail(w) != 0 {
      FailingTailIsRounds(w[..|w| - 1]);
    }
  }

  /** When the current run of mismatched rounds was first received. */
  ghost function MismatchSince(w: Window): (at: Option<real>)
  {
    MismatchTailIsRounds(w);
    if Mismatches(w) == 0 then None else Some(w[|w| - Mismatches(w)].s.receivedAt)
  }

  datatype Verdict = Verdict(reason: Reason, samples: nat, span: Option<real>)

  /** What the last round of a window proves. */
  ghost function Judge(w: Window, healthFailures: nat): Option<Verdict>
    requires w != [] && w[|w| - 1].Round?
  {
    var s := w[|w| - 1].s;
    if Exited(s) && Armed(w[..|w| - 1]) then Some(Verdict(UnexpectedUnitExit, 1, None))
    else if Failures(w) > 0 && Failures(w) >= healthFailures then
      Some(Verdict(ConsecutiveHealthFailures, Failures(w), None))
    else if Mismatches(w) > 0 && MismatchLongEnough(w) then
      Some(Verdict(ReadyStillSleeping, Mismatches(w), Some(MismatchSpan(w))))
    else None
  }

  ghost predicate MismatchLongEnough(w: Window)
    requires w != [] && w[|w| - 1].Round? && Mismatches(w) > 0
  {
    w[|w| - 1].s.startedAt - MismatchSince(w).value >= SLEEP_MISMATCH_SECONDS
  }

  ghost function MismatchSpan(w: Window): real
    requires w != [] && w[|w| - 1].Round? && Mismatches(w) > 0
  {
    w[|w| - 1].s.startedAt - MismatchSince(w).value
  }

  // ---- how each reading changes with one more item ----

  lemma ServedStep(w: Window, item: Item)
    requires w == [] ==> item.Round?
    ensures Served(w + [item]) <==> (item.Round? && HealthyAwake(item.s)) || (Served(w) && item != Cut(true))
  {
    var v := w + [item];
    if Served(v) {
      var i :| 0 <= i < |v| && ServesAt(v, i) && forall j :: i < j < |v| ==> v[j] != Cut(true);
      if i < |w| {
        assert ServesAt(w, i) && forall j :: i < j < |w| ==> w[j] == v[j];
        assert v[|w|] == item;
      }
    }
    if item.Round? && HealthyAwake(item.s) {
      assert ServesAt(v, |w|);
    } else if Served(w) && item != Cut(true) {
      var i :| 0 <= i < |w| && ServesAt(w, i) && forall j :: i < j < |w| ==> w[j] != Cut(true);
      assert ServesAt(v, i) && forall j :: i < j < |v| ==> v[j] != Cut(true);
    }
  }

  lemma ArmedStep(w: Window, item: Item)
    requires w == [] ==> item.Round?
    ensures Armed(w + [item]) <==>
            ArmsAt(w + [item], |w|) || (Armed(w) && !DisarmsAt(w + [item], |w|))
  {
    var v := w + [item];
    forall i | 0 <= i < |w|
      ensures v[i] == w[i] && v[..i] == w[..i] && (ArmsAt(v, i) <==> ArmsAt(w, i)) && (DisarmsAt(v, i) <==> DisarmsAt(w, i))
    {
      assert v[..i] == w[..i];
    }
    if Armed(v) {
      var i :| 0 <= i < |v| && ArmsAt(v, i) && forall j :: i < j < |v| ==> !DisarmsAt(v, j);
      if i < |w| {
        assert ArmsAt(w, i) && forall j :: i < j < |w| ==> !DisarmsAt(w, j);
      }
    }
    if ArmsAt(v, |w|) {
    } else if Armed(w) && !DisarmsAt(v, |w|) {
      var i :| 0 <= i < |w| && ArmsAt(w, i) && forall j :: i < j < |w| ==> !DisarmsAt(w, j);
      assert ArmsAt(v, i) && forall j :: i < j < |v| ==> !DisarmsAt(v, j);
    }
  }

  // ---- unbroken chains ----

  /** Every round follows the one recorded before it. */
  predicate Chained(w: Window) {
    w == [] ||
    (var v: Window := w[..|w| - 1];
     && Chained(v)
     && (w[|w| - 1].Round? ==>
           && Sane(w[|w| - 1].s)
           && (v != [] ==> Follows(Latest(v).key, Latest(v).s, w[|w| - 1].key, w[|w| - 1].s))))
  }

  predicate Sane(s: Sample) {
    s.startedAt <= s.finishedAt <= s.receivedAt <= s.startedAt + MAX_EVIDENCE_GAP_SECONDS
  }

  lemma ReadIsSane(c: Call)
    ensures Read(c).Absent? || Read(c).Present? ==> Sane(Read(c).sample)
  {
  }

  lemma ExtendChained(w: Window, e: Event)
    requires Chained(w)
    ensures Chained(Extend(w, e))
  {
    var v := Extend(w, e);
    if v != [] && v != w {
      assert v[..|v| - 1] == w || v[..|v| - 1] == [];
      match e {
        case Observed(call) => ReadIsSane(call);
        case Invalidated(_) =>
        case WarmWoken(_, _) =>
        case Dropped =>
      }
    }
  }

  /** Every history leaves an unbroken chain: it never joins rounds across a gap or a changed identity. */
  lemma {:induction false} HistoryChained(history: seq<Event>)
    ensures Chained(WindowOf(history))
  {
    if history != [] {
      HistoryChained(history[..|history| - 1]);
      ExtendChained(WindowOf(history[..|history| - 1]), history[|history| - 1]);
    }
  }

  /** Rounds of a chain keep one identity while their generations and times rise. */
  lemma {:induction false} ChainRises(w: Window, i: nat)
    requires Chained(w) && w != [] && i < |w| && w[i].Round?
    ensures w[i].key == Latest(w).key
    ensures w[i] == Latest(w) ||
            (w[i].s.generation < Latest(w).s.generation && w[i].s.sampledAt < Latest(w).s.sampledAt
             && w[i].s.receivedAt < Latest(w).s.receivedAt)
    decreases |w|
  {
    if i < |w| - 1 {
      ChainRises(w[..|w| - 1], i);
    }
  }

  /** A run of k adjacent rounds at the end of a chain spans at most two seconds a step. */
  lemma {:induction false} RunSpan(w: Window, k: nat)
    requires Chained(w) && 0 < k <= |w|
    requires forall i :: |w| - k <= i < |w| ==> w[i].Round?
    ensures w[|w| - 1].s.receivedAt - w[|w| - k].s.receivedAt <= MAX_EVIDENCE_GAP_SECONDS * (k - 1) as real
    decreases k
  {
    if k > 1 {
      var v: Window := w[..|w| - 1];
      RunSpan(v, k - 1);
      assert Latest(v) == v[|v| - 1];
      assert Sane(v[|v| - 1].s);
    }
  }

  // ---- the theorems about proofs ----

  lemma MismatchRun(w: Window)
    requires Chained(w) && w != [] && w[|w| - 1].Round? && Mismatches(w) > 0
    ensures w[|w| - 1].s.startedAt <= w[|w| - 1].s.receivedAt
    ensures w[|w| - 1].s.receivedAt - MismatchSince(w).value <= MAX_EVIDENCE_GAP_SECONDS * (Mismatches(w) - 1) as real
    ensures MismatchLongEnough(w) ==> Mismatches(w) >= 6
  {
    MismatchTailIsRounds(w);
    RunSpan(w, Mismatches(w));
  }

  /**
   An open mismatch window never spans more than two seconds a round. So ten seconds of it already
   take at least six rounds, and the detector's separate test for six rounds decides nothing.
   */
  lemma MismatchSpanBound(history: seq<Event>)
    requires var w := WindowOf(history); w != [] && w[|w| - 1].Round? && Mismatches(w) > 0
    ensures var w := WindowOf(history);
            && w[|w| - 1].s.receivedAt - MismatchSince(w).value <= MAX_EVIDENCE_GAP_SECONDS * (Mismatches(w) - 1) as real
            && (MismatchLongEnough(w) ==> Mismatches(w) >= 6)
  {
    HistoryChained(history);
    MismatchRun(WindowOf(history));
  }

  /** The round at i directly follows the round at i - 1, in one chain. */
  predicate FollowsPrevious(w: Window, i: int) {
    0 < i < |w| && w[i - 1].Round? && w[i].Round? && Follows(w[i - 1].key, w[i - 1].s, w[i].key, w[i].s)
  }

  /** The last k items are failing rounds of one identity. */
  predicate FailingRun(w: Window, k: nat) {
    && 0 < k <= |w| && w[|w| - 1].Round?
    && forall i :: |w| - k <= i < |w| ==> w[i].Round? && Failing(w[i].s) && w[i].key == w[|w| - 1].key
  }

  /** Armed before item n and not disarmed since. */
  ghost predicate ArmedBefore(w: Window, n: int) {
    exists a :: 0 <= a < n && a < |w| && ArmsAt(w, a) && forall j :: a < j < |w| ==> !DisarmsAt(w, j)
  }

  /** Exactly what `consecutive_health_failures` says about the history. */
  ghost predicate HealthFailureChain(w: Window, k: nat, healthFailures: nat) {
    && healthFailures <= k && FailingRun(w, k)
    && (forall i :: |w| - k < i < |w| ==> FollowsPrevious(w, i))
    && ArmedBefore(w, |w| - k)
  }

  lemma {:induction false} AdjacentFollow(w: Window, i: nat)
    requires Chained(w) && 0 < i < |w| && w[i - 1].Round? && w[i].Round?
    ensures FollowsPrevious(w, i)
    decreases |w|
  {
    var v: Window := w[..|w| - 1];
    if i < |w| - 1 {
      AdjacentFollow(v, i);
    } else {
      assert Latest(v) == w[i - 1];
    }
  }

  /** Soundness: a health-failure proof is backed by such a chain, of the length the proof reports. */
  lemma HealthProofSound(history: seq<Event>, healthFailures: nat)
    requires var w := WindowOf(history); w != [] && w[|w| - 1].Round?
    requires var v := Judge(WindowOf(history), healthFailures); v.Some? && v.value.reason == ConsecutiveHealthFailures
    ensures HealthFailureChain(WindowOf(history), Judge(WindowOf(history), healthFailures).value.samples, healthFailures)
  {
    HistoryChained(history);
    FailuresAreAChain(WindowOf(history));
  }

  lemma FailuresAreAChain(w: Window)
    requires Chained(w) && w != [] && w[|w| - 1].Round? && Failures(w) > 0
    ensures HealthFailureChain(w, Failures(w), Failures(w))
  {
    var k := Failures(w);
    FailingTailIsRounds(w);
    assert Latest(w) == w[|w| - 1];
    forall i | |w| - k <= i < |w| ensures w[i].Round? && Failing(w[i].s) && w[i].key == w[|w| - 1].key {
      ChainRises(w, i);
    }
    forall i | |w| - k < i < |w| ensures FollowsPrevious(w, i) {
      AdjacentFollow(w, i);
    }
    ArmedBeforeFailing(w);
  }

  lemma ArmedBeforeFailing(w: Window)
    requires Armed(w)
    ensures ArmedBefore(w, |w| - FailingTail(w))
  {
    var a :| 0 <= a < |w| && ArmsAt(w, a) && forall j :: a < j < |w| ==> !DisarmsAt(w, j);
    FailingTailIsRounds(w);
  }

  /** Completeness: whenever the history ends in such a chain, a fault is proved. */
  lemma HealthProofComplete(history: seq<Event>, k: nat, healthFailures: nat)
    requires var w := WindowOf(history); w != [] && w[|w| - 1].Round?
    requires HealthFailureChain(WindowOf(history), k, healthFailures)
    ensures var v := Judge(WindowOf(history), healthFailures);
            v.Some? && v.value.reason == ConsecutiveHealthFailures && v.value.samples >= k
  {
    var w := WindowOf(history);
    FailingTailCovers(w, k);
    assert Armed(w);
  }

  lemma {:induction false} FailingTailCovers(w: Window, k: nat)
    requires k <= |w| && forall i :: |w| - k <= i < |w| ==> w[i].Round? && Failing(w[i].s)
    ensures FailingTail(w) >= k
    decreases k
  {
    if k > 0 {
      FailingTailCovers(w[..|w| - 1], k - 1);
    }
  }

  /** An exit is only a fault when the evidence was armed before it and not disarmed since. */
  lemma ExitProofSound(w: Window, healthFailures: nat)
    requires w != [] && w[|w| - 1].Round?
    requires Judge(w, healthFailures).Some? && Judge(w, healthFailures).value.reason == UnexpectedUnitExit
    ensures Exited(w[|w| - 1].s)
    ensures exists a :: 0 <= a < |w| - 1 && ArmsAt(w, a) && forall j :: a < j < |w| - 1 ==> !DisarmsAt(w, j)
  {
    hide Failures, Mismatches, MismatchSince, Served, Latest;
    var n := |w| - 1;
    var p: Window := w[..n];
    var a :| 0 <= a < |p| && ArmsAt(p, a) && forall j :: a < j < |p| ==> !DisarmsAt(p, j);
    assert w[..a] == p[..a];
    assert ArmsAt(w, a);
    forall j | a < j < n ensures !DisarmsAt(w, j) {
      assert !DisarmsAt(p, j);
    }
  }

  /** A model is only called ready but asleep after six rounds and ten seconds of it, armed. */
  lemma SleepProofSound(history: seq<Event>, healthFailures: nat)
    requires var w := WindowOf(history); w != [] && w[|w| - 1].Round?
    requires var v := Judge(WindowOf(history), healthFailures); v.Some? && v.value.reason == ReadyStillSleeping
    ensures var w := WindowOf(history); var k := Judge(w, healthFailures).value.samples;
            && Armed(w) && 6 <= k <= |w|
            && (forall i :: |w| - k <= i < |w| ==> w[i].Round? && Mismatched(w[i].s))
            && w[|w| - 1].s.startedAt - w[|w| - k].s.receivedAt >= SLEEP_MISMATCH_SECONDS
  {
    hide WindowOf, Armed, FailingTail, MismatchTail, Latest;
    MismatchSpanBound(history);
    MismatchTailIsRounds(WindowOf(history));
  }
}
