/**
 The counters and flags the detector keeps for one model, as values, and the theorem that they are
 exactly what the history says (module FaultWindow).
 */
module FaultTally {
  import opened Options
  import opened FaultEvidence
  import opened FaultWindow

  datatype Tally = Tally(
    key: Key, sampledAt: real, receivedAt: real, generation: int, startedAt: real, finishedAt: real,
    epoch: nat, served: bool, eligible: bool, health: Flag, sleeping: Flag, swap: string,
    failures: nat, mismatchAt: Option<real>, mismatchReceived: Option<real>, mismatchSamples: nat)
  {
    function ResetCounts(): Tally {
      this.(failures := 0, mismatchAt := None, mismatchReceived := None, mismatchSamples := 0)
    }

    function Invalidate(stopped: bool): Tally {
      this.(epoch := epoch + 1, eligible := false, served := served && !stopped).ResetCounts()
    }

    predicate AcceptsWarmWake(leaseId: string, now: Option<real>) {
      && key.leaseId == leaseId && health == Yes && sleeping == Yes
      && Known(now) && 0.0 <= now.value - receivedAt <= MAX_EVIDENCE_GAP_SECONDS
    }

    function WarmWake(): Tally {
      this.(epoch := epoch + 1, eligible := true).ResetCounts()
    }

    /** Whether a round continues this record. */
    predicate ContinuedBy(key: Key, s: Sample) {
      && this.key == key && s.generation > generation && s.sampledAt > sampledAt
      && s.startedAt >= receivedAt && 0.0 < s.receivedAt - receivedAt
      && s.receivedAt - startedAt <= MAX_EVIDENCE_GAP_SECONDS
      && s.startedAt - finishedAt <= s.sampledAt - sampledAt <= s.finishedAt - startedAt
    }

    function Stamp(key: Key, s: Sample): Tally {
      this.(key := key, sampledAt := s.sampledAt, receivedAt := s.receivedAt, generation := s.generation,
            startedAt := s.startedAt, finishedAt := s.finishedAt,
            health := s.status.healthOk, sleeping := s.status.isSleeping, swap := s.status.swapState)
    }

    /** The counters after one more serving round that is not healthy and awake. */
    function Degraded(s: Sample): Tally {
      var warming := served && s.status.healthOk == Yes && s.status.isSleeping == Yes
                     && (s.status.swapState == "starting"
                         || (swap in {"starting", "stopped"} && s.status.swapState == "ready"));
      if !(eligible || warming) then this.ResetCounts()
      else
        var t := this.(eligible := true, failures := if s.status.healthOk == No then failures + 1 else 0);
        if s.status.swapState == "ready" && s.status.isSleeping == Yes then
          var first := mismatchAt.None?;
          t.(mismatchAt := if first then Some(s.receivedAt) else mismatchAt,
             mismatchReceived := if first then Some(s.receivedAt) else mismatchReceived,
             mismatchSamples := mismatchSamples + 1)
        else t.(mismatchAt := None, mismatchReceived := None, mismatchSamples := 0)
    }

    function Count(s: Sample): Tally {
      if s.status.unitActive == No && (s.seen.exited || s.seen.inactive) then this.ResetCounts()
      else if s.seen.active && s.status.unitActive == Yes then
        if HealthyAwake(s) then this.(served := true, eligible := true).ResetCounts() else this.Degraded(s)
      else this.(eligible := false).ResetCounts()
    }

    /** The verdict on a round, where this is the tally after it and `armed` says it was eligible before. */
    function Verdict(s: Sample, armed: bool, healthFailures: nat): (v: Option<Verdict>) {
      if s.status.unitActive == No && (s.seen.exited || s.seen.inactive) then
        if armed then Some(FaultWindow.Verdict(UnexpectedUnitExit, 1, None)) else None
      else if !Serving(s) || HealthyAwake(s) || !eligible then None
      else if failures >= healthFailures then Some(FaultWindow.Verdict(ConsecutiveHealthFailures, failures, None))
      else if s.status.swapState == "ready" && s.status.isSleeping == Yes
              && mismatchAt.Some? && mismatchReceived.Some?
              && s.startedAt - mismatchAt.value >= SLEEP_MISMATCH_SECONDS
              && s.receivedAt - mismatchReceived.value >= SLEEP_MISMATCH_SECONDS && mismatchSamples >= 6 then
        Some(FaultWindow.Verdict(ReadyStillSleeping, mismatchSamples,
                                 Some(Least(s.startedAt - mismatchAt.value, s.receivedAt - mismatchReceived.value))))
      else None
    }
  }

  function Least(x: real, y: real): real {
    if x <= y then x else y
  }

  function Fresh(key: Key, s: Sample): Tally {
    Tally(key, s.sampledAt, s.receivedAt, s.generation, s.startedAt, s.finishedAt,
          0, false, false, Unknown, Unknown, "", 0, None, None, 0)
  }

  /** One recorded round: the new tally and what it proves. */
  function Take(previous: Option<Tally>, key: Key, s: Sample, healthFailures: nat): (Tally, Option<Verdict>) {
    var continuous := previous.Some? && previous.value.ContinuedBy(key, s);
    var base := if continuous then previous.value else Fresh(key, s);
    var after := base.(epoch := base.epoch + 1).Count(s);
    (after.Stamp(key, s), after.Verdict(s, continuous && base.eligible, healthFailures))
  }

  function MakeProof(call: Call, key: Key, s: Sample, epoch: nat, v: Verdict): FaultProof {
    FaultProof(call.lease.model, call.lease.leaseId, call.unit, key.invocationId, call.lease.gpu, v.reason,
               s.sampledAt, s.receivedAt, s.generation, epoch, v.samples, s.startedAt, v.span)
  }

  function Observe(previous: Option<Tally>, call: Call, healthFailures: nat): (Option<Tally>, Option<FaultProof>) {
    var reading := Read(call);
    if reading.Rejected? then (None, None)
    else if reading.Absent? && (previous.None? || !SameAccount(previous.value.key, reading.sample)) then (previous, None)
    else
      var s := reading.sample;
      var key := if reading.Absent? then previous.value.key else Key(s.leaseId, s.unit, reading.invocationId, s.gpu);
      var (t, v) := Take(previous, key, s, healthFailures);
      (Some(t), if v.None? then None else Some(MakeProof(call, key, s, t.epoch, v.value)))
  }

  function Step(previous: Option<Tally>, e: Event, healthFailures: nat): (Option<Tally>, Option<FaultProof>) {
    match e
    case Observed(call) => Observe(previous, call, healthFailures)
    case Invalidated(stopped) =>
      (if previous.None? then None else Some(previous.value.Invalidate(stopped)), None)
    case WarmWoken(leaseId, now) =>
      (if previous.Some? && previous.value.AcceptsWarmWake(leaseId, now) then Some(previous.value.WarmWake()) else previous,
       None)
    case Dropped => (None, None)
  }

  /** The record and the last verdict after a whole history of one model. */
  function Run(history: seq<Event>, healthFailures: nat): Option<Tally> {
    if history == [] then None
    else Step(Run(history[..|history| - 1], healthFailures), history[|history| - 1], healthFailures).0
  }

  // ---- the tally that the history calls for ----

  ghost function TallyOf(w: Window): Option<Tally> {
    if w == [] then None
    else
      var s := Latest(w).s;
      Some(Tally(Latest(w).key, s.sampledAt, s.receivedAt, s.generation, s.startedAt, s.finishedAt,
                 |w|, Served(w), Armed(w), s.status.healthOk, s.status.isSleeping, s.status.swapState,
                 Failures(w), MismatchSince(w), MismatchSince(w), Mismatches(w)))
  }

  /** Whether an observation adds a round to a model's window. */
  predicate Recorded(before: Window, call: Call) {
    var reading := Read(call);
    reading.Present? || (reading.Absent? && before != [] && SameAccount(Latest(before).key, reading.sample))
  }

  /** The proof the history calls for after one more event. */
  ghost function ProofOf(before: Window, e: Event, healthFailures: nat): Option<FaultProof> {
    if !e.Observed? || !Recorded(before, e.call) then None
    else
      var w := Extend(before, e);
      var v := Judge(w, healthFailures);
      if v.None? then None
      else Some(MakeProof(e.call, w[|w| - 1].key, w[|w| - 1].s, |w|, v.value))
  }

  lemma {:induction false} CutTally(w: Window, stopped: bool)
    requires w != []
    ensures TallyOf(w + [Cut(stopped)]) == Some(TallyOf(w).value.Invalidate(stopped))
  {
    ServedStep(w, Cut(stopped));
    ArmedStep(w, Cut(stopped));
    assert (w + [Cut(stopped)])[..|w|] == w;
  }

  lemma {:induction false} WakeTally(w: Window)
    requires w != []
    ensures TallyOf(w + [Wake]) == Some(TallyOf(w).value.WarmWake())
  {
    ServedStep(w, Wake);
    ArmedStep(w, Wake);
    assert (w + [Wake])[..|w|] == w;
  }

  lemma {:induction false} RoundTails(w: Window, key: Key, s: Sample)
    ensures var v := w + [Round(key, s)];
            && v[..|w|] == w && Latest(v) == Round(key, s)
            && FailingTail(v) == (if Failing(s) then FailingTail(w) + 1 else 0)
            && MismatchTail(v) == (if Mismatched(s) then MismatchTail(w) + 1 else 0)
  {
    hide FailingTail, MismatchTail, Latest;
    assert (w + [Round(key, s)])[..|w|] == w;
    LatestRound(w, key, s);
    FailingStep(w, key, s);
    MismatchStep(w, key, s);
  }

  lemma {:induction false} LatestRound(w: Window, key: Key, s: Sample)
    ensures Latest(w + [Round(key, s)]) == Round(key, s)
  {
  }

  lemma {:induction false} FailingStep(w: Window, key: Key, s: Sample)
    ensures FailingTail(w + [Round(key, s)]) == (if Failing(s) then FailingTail(w) + 1 else 0)
  {
    hide FailingTail, Failing;
    var v: Window := w + [Round(key, s)];
    UnfoldFailingTail(v);
    assert v[..|v| - 1] == w && v[|v| - 1] == Round(key, s);
  }

  lemma {:induction false} UnfoldFailingTail(v: Window)
    requires v != [] && v[|v| - 1].Round?
    ensures FailingTail(v) == (if Failing(v[|v| - 1].s) then 1 + FailingTail(v[..|v| - 1]) else 0)
  {
    hide Failing;
  }

  lemma {:induction false} MismatchStep(w: Window, key: Key, s: Sample)
    ensures MismatchTail(w + [Round(key, s)]) == (if Mismatched(s) then MismatchTail(w) + 1 else 0)
  {
    hide MismatchTail, Mismatched;
    var v: Window := w + [Round(key, s)];
    UnfoldMismatchTail(v);
    assert v[..|v| - 1] == w && v[|v| - 1] == Round(key, s);
  }

  lemma {:induction false} UnfoldMismatchTail(v: Window)
    requires v != [] && v[|v| - 1].Round?
    ensures MismatchTail(v) == (if Mismatched(v[|v| - 1].s) then 1 + MismatchTail(v[..|v| - 1]) else 0)
  {
    hide Mismatched;
  }

  /** The flags after one more round. */
  lemma {:induction false} RoundFlags(w: Window, key: Key, s: Sample)
    ensures var v := w + [Round(key, s)];
            && Served(v) == (HealthyAwake(s) || Served(w))
            && Armed(v) == (HealthyAwake(s) || Warms(w, s) || (Armed(w) && !Lost(s)))
  {
    var item := Round(key, s);
    ServedStep(w, item);
    ArmedStep(w, item);
    assert (w + [item])[..|w|] == w;
  }

  /** RestartsAt, for a round not yet recorded. */
  ghost predicate Warms(w: Window, s: Sample) {
    && Serving(s) && s.status.healthOk == Yes && s.status.isSleeping == Yes && Served(w)
    && (|| s.status.swapState == "starting"
        || (s.status.swapState == "ready" && Latest(w).s.status.swapState in {"starting", "stopped"}))
  }

  /** A round that warms up while ready and asleep starts a new run of mismatched rounds. */
  lemma {:induction false} WarmingStartsRun(w: Window, s: Sample)
    requires Warms(w, s) && Mismatched(s)
    ensures MismatchTail(w) == 0
  {
    assert w != [];
    if w[|w| - 1].Round? {
      assert Latest(w) == w[|w| - 1];
    }
  }

  /** The counters after one more round. */
  lemma {:induction false} RoundCounts(w: Window, key: Key, s: Sample)
    requires Armed(w + [Round(key, s)])
    ensures var v := w + [Round(key, s)];
            && Failures(v) == (if Failing(s) then Failures(w) + 1 else 0)
            && Mismatches(v) == (if Mismatched(s) then Mismatches(w) + 1 else 0)
            && MismatchSince(v) ==
               (if !Mismatched(s) then None else if Mismatches(w) == 0 then Some(s.receivedAt) else MismatchSince(w))
  {
    RoundTails(w, key, s);
    RoundFlags(w, key, s);
    if Mismatched(s) && !Armed(w) {
      WarmingStartsRun(w, s);
    }
  }

  ghost function Base(w: Window, key: Key, s: Sample): Tally {
    if w == [] then Fresh(key, s) else TallyOf(w).value
  }

  /** Counting a round on top of a tallied window tallies the extended window. */
  lemma {:induction false} RoundTally(w: Window, key: Key, s: Sample)
    ensures var base := Base(w, key, s);
            TallyOf(w + [Round(key, s)]) == Some(base.(epoch := |w| + 1).Count(s).Stamp(key, s))
  {
    var v := w + [Round(key, s)];
    RoundTails(w, key, s);
    RoundFlags(w, key, s);
    if Armed(v) {
      RoundCounts(w, key, s);
    }
  }

  /** The detector's tests on its counters decide exactly what the history says. */
  lemma {:induction false} RoundVerdict(w: Window, key: Key, s: Sample, healthFailures: nat)
    requires Chained(w + [Round(key, s)]) && healthFailures >= 3
    ensures Judge(w + [Round(key, s)], healthFailures)
            == TallyOf(w + [Round(key, s)]).value.Verdict(s, Armed(w), healthFailures)
  {
    var v := w + [Round(key, s)];
    assert v[..|w|] == w;
    assert Latest(v) == v[|w|];
    RoundTails(w, key, s);
    if Mismatches(v) > 0 {
      MismatchRun(v);
    }
  }

  /** Copying the round's fields into the record does not affect the verdict. */
  lemma {:induction false} CountedVerdict(t: Tally, key: Key, s: Sample, armed: bool, healthFailures: nat)
    ensures t.Stamp(key, s).Verdict(s, armed, healthFailures) == t.Verdict(s, armed, healthFailures)
  {
  }

  /** The tally before a round is judged: the earlier counters plus this round. */
  ghost function Counted(base: Window, key: Key, s: Sample): Tally {
    Base(base, key, s).(epoch := |base| + 1).Count(s)
  }

  lemma {:induction false} RoundRefines(base: Window, key: Key, s: Sample, healthFailures: nat)
    requires Chained(base + [Round(key, s)]) && healthFailures >= 3
    ensures TallyOf(base + [Round(key, s)]) == Some(Counted(base, key, s).Stamp(key, s))
    ensures Judge(base + [Round(key, s)], healthFailures) == Counted(base, key, s).Verdict(s, Armed(base), healthFailures)
  {
    RoundTally(base, key, s);
    RoundVerdict(base, key, s, healthFailures);
    CountedVerdict(Counted(base, key, s), key, s, Armed(base), healthFailures);
  }

  lemma {:induction false} TakeRefines(w: Window, key: Key, s: Sample, healthFailures: nat)
    requires Chained(Record(w, key, s)) && healthFailures >= 3
    ensures TallyOf(Record(w, key, s)) == Some(Take(TallyOf(w), key, s, healthFailures).0)
    ensures Judge(Record(w, key, s), healthFailures) == Take(TallyOf(w), key, s, healthFailures).1
  {
    var continuous := w != [] && Follows(Latest(w).key, Latest(w).s, key, s);
    var base: Window := if continuous then w else [];
    RoundRefines(base, key, s, healthFailures);
    assert Record(w, key, s) == base + [Round(key, s)];
    assert TallyOf(w).Some? && TallyOf(w).value.ContinuedBy(key, s) <==> continuous;
    assert Armed(base) == (continuous && TallyOf(w).value.eligible);
  }

  lemma {:induction false} ObservedRefines(w: Window, call: Call, healthFailures: nat)
    requires Chained(w) && healthFailures >= 3
    ensures Observe(TallyOf(w), call, healthFailures)
            == (TallyOf(Extend(w, Observed(call))), ProofOf(w, Observed(call), healthFailures))
  {
    hide Judge, Served, Armed, Failures, Mismatches, MismatchSince, Chained, Take, Read, Follows;
    var reading := Read(call);
    ExtendChained(w, Observed(call));
    if Recorded(w, call) {
      var s := reading.sample;
      var key := if reading.Absent? then Latest(w).key else Key(s.leaseId, s.unit, reading.invocationId, s.gpu);
      TakeRefines(w, key, s, healthFailures);
      assert Extend(w, Observed(call)) == Record(w, key, s);
    }
  }

  /** One event: the detector's counters and proof are those the history calls for. */
  lemma {:induction false} StepRefines(w: Window, e: Event, healthFailures: nat)
    requires Chained(w) && healthFailures >= 3
    ensures Step(TallyOf(w), e, healthFailures) == (TallyOf(Extend(w, e)), ProofOf(w, e, healthFailures))
  {
    hide Observe, Chained, Served, Armed, Failures, Mismatches, MismatchSince, Read, Judge;
    match e {
      case Observed(call) =>
        ObservedRefines(w, call, healthFailures);
      case Invalidated(stopped) =>
        if w != [] {
          CutTally(w, stopped);
        }
      case WarmWoken(leaseId, now) =>
        if w != [] {
          WakeTally(w);
        }
      case Dropped =>
    }
  }

  /** After any history, the record is the tally of its window, and the next proof is the one the history calls for. */
  lemma {:induction false} RunRefines(history: seq<Event>, e: Event, healthFailures: nat)
    requires healthFailures >= 3
    ensures Run(history, healthFailures) == TallyOf(WindowOf(history))
    ensures Step(Run(history, healthFailures), e, healthFailures).1 == ProofOf(WindowOf(history), e, healthFailures)
  {
    if history != [] {
      var n := |history| - 1;
      RunRefines(history[..n], history[n], healthFailures);
      HistoryChained(history[..n]);
      StepRefines(WindowOf(history[..n]), history[n], healthFailures);
    }
    HistoryChained(history);
    StepRefines(WindowOf(history), e, healthFailures);
  }

  // ---- what a returned proof means, over whole histories ----

  lemma {:induction false} ExtendIsWindowOf(history: seq<Event>, e: Event)
    ensures WindowOf(history + [e]) == Extend(WindowOf(history), e)
  {
    assert (history + [e])[..|history|] == history;
  }

  /**
   `consecutive_health_failures` is returned exactly when the round is recorded and the history, this round
   included, ends in an unbroken chain of at least `healthFailures` failing rounds of one identity that was
   armed before them and not disarmed since. No unrecorded round proves anything.
   */
  lemma {:induction false} HealthProofMeans(history: seq<Event>, call: Call, healthFailures: nat)
    requires healthFailures >= 3
    ensures var w := WindowOf(history + [Observed(call)]);
            var proof := Step(Run(history, healthFailures), Observed(call), healthFailures).1;
            && (proof.Some? ==> Recorded(WindowOf(history), call))
            && (proof.Some? && proof.value.reason == ConsecutiveHealthFailures ==>
                  HealthFailureChain(w, proof.value.samples, healthFailures))
            && (Recorded(WindowOf(history), call) && (exists k :: HealthFailureChain(w, k, healthFailures)) ==>
                  proof.Some? && proof.value.reason == ConsecutiveHealthFailures)
  {
    hide WindowOf, Run, Step, Read, Judge, Armed, FailingTail, Latest;
    var e := Observed(call);
    ExtendIsWindowOf(history, e);
    RunRefines(history, e, healthFailures);
    if Recorded(WindowOf(history), call) {
      var w := WindowOf(history + [e]);
      if k :| HealthFailureChain(w, k, healthFailures) {
        HealthProofComplete(history + [e], k, healthFailures);
      }
      if Judge(w, healthFailures).Some? && Judge(w, healthFailures).value.reason == ConsecutiveHealthFailures {
        HealthProofSound(history + [e], healthFailures);
      }
    }
  }

  // ---- a proof stays current only while nothing happens ----

  /** The scheduler numbers its rounds upwards. */
  ghost predicate Rising(history: seq<Event>) {
    forall i, j :: 0 <= i < j < |history| && history[i].Observed? && history[j].Observed?
                   ==> history[i].call.generation < history[j].call.generation
  }

  predicate Current(t: Option<Tally>, proof: FaultProof, wallNow: Option<real>, now: Option<real>) {
    && t.Some? && t.value.key == Key(proof.leaseId, proof.unit, proof.invocationId, proof.gpu)
    && t.value.epoch == proof.epoch && t.value.generation == proof.generation
    && Known(wallNow) && Known(now)
    && 0.0 <= wallNow.value - proof.sampledAt <= MAX_EVIDENCE_GAP_SECONDS
    && proof.receivedAt <= now.value
    && 0.0 <= now.value - proof.roundStartedAt <= MAX_EVIDENCE_GAP_SECONDS
  }

  /** The round behind a proof is the last item of the window it was read from. */
  lemma {:induction false} ProofRound(history: seq<Event>, e: Event, healthFailures: nat)
    requires healthFailures >= 3 && Step(Run(history, healthFailures), e, healthFailures).1.Some?
    ensures var w := Extend(WindowOf(history), e); var proof := Step(Run(history, healthFailures), e, healthFailures).1.value;
            && e.Observed? && w != [] && w[|w| - 1].Round? && w[|w| - 1] == Latest(w)
            && |w| == proof.epoch && Latest(w).s.generation == proof.generation == e.call.generation
  {
    hide Judge, Follows, Served, Armed, Failures, Mismatches, MismatchSince, Run, TallyOf;
    RunRefines(history, e, healthFailures);
  }

  lemma RisesAfter(history: seq<Event>, e: Event, later: seq<Event>)
    requires Rising(history + [e] + later) && e.Observed?
    ensures forall l | l in later && l.Observed? :: l.call.generation > e.call.generation
  {
    forall l | l in later && l.Observed? ensures l.call.generation > e.call.generation {
      var j :| 0 <= j < |later| && later[j] == l;
      var all := history + [e] + later;
      assert all[|history|] == e && all[|history| + 1 + j] == l;
    }
  }

  /**
   When a proof is still current after further events, not one of them was recorded, invalidated the
   evidence or woke the model: the window is exactly the one the proof was read from.
   */
  lemma {:induction false} CurrentMeansUntouched(history: seq<Event>, e: Event, later: seq<Event>,
                              wallNow: Option<real>, now: Option<real>, healthFailures: nat)
    requires healthFailures >= 3 && Rising(history + [e] + later)
    requires Step(Run(history, healthFailures), e, healthFailures).1.Some?
    requires var proof := Step(Run(history, healthFailures), e, healthFailures).1.value;
             Current(Run(history + [e] + later, healthFailures), proof, wallNow, now)
    ensures WindowOf(history + [e] + later) == WindowOf(history + [e])
  {
    hide Judge, Follows, Read, Served, Armed, Failures, Mismatches, MismatchSince, Run, Step, WindowOf, Rising;
    ProofRound(history, e, healthFailures);
    ExtendIsWindowOf(history, e);
    RunRefines(history + [e] + later, e, healthFailures);
    RisesAfter(history, e, later);
    StaysBeyond(history + [e], later);
  }

  /** The window v extends w past its last round, or has moved on to a later one. */
  predicate Beyond(w: Window, v: Window) {
    w != [] && (v == [] || (w <= v && Latest(v) == Latest(w)) || Latest(v).s.generation > Latest(w).s.generation)
  }

  lemma {:induction false} StepStaysBeyond(w: Window, v: Window, e: Event)
    requires Beyond(w, v) && (e.Observed? ==> e.call.generation > Latest(w).s.generation)
    ensures Beyond(w, Extend(v, e))
  {
    var v' := Extend(v, e);
    if v' != [] && v' != v && e.Observed? {
      assert Latest(v') == v'[|v'| - 1];
    }
  }

  lemma {:induction false} StaysBeyond(history: seq<Event>, later: seq<Event>)
    requires Beyond(WindowOf(history), WindowOf(history))
    requires forall e | e in later && e.Observed? :: e.call.generation > Latest(WindowOf(history)).s.generation
    ensures Beyond(WindowOf(history), WindowOf(history + later))
  {
    if later == [] {
      assert history + later == history;
    } else {
      var m := |later| - 1;
      StaysBeyond(history, later[..m]);
      assert history + later == (history + later[..m]) + [later[m]];
      ExtendIsWindowOf(history + later[..m], later[m]);
      StepStaysBeyond(WindowOf(history), WindowOf(history + later[..m]), later[m]);
    }
  }
}
