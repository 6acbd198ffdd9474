/** `ModelActionController.free` of llmsvc/actions.py: measure, plan one action, dispatch it, see its effect, repeat. */
module FreeLoop {
  import opened Options
  import opened FreeMeasure

  /** The environment's next answer. */
  datatype Answer =
    | Late                                        // the deadline passed
    | Stopping                                    // the scheduler is stopping
    | Fails(reason: string)                       // a guard, a sample or the catalog refuses
    | Passes
    | Sampled(round: Round)
    | Planned(action: Option<Action>, blocked: bool)
    | Rejected(attempted: bool, reason: string)   // the dispatch failed, perhaps after it took effect

  datatype Status = Blocked | Complete | Partial | Failed | NoProgress | Timeout

  /** How one turn of the loop goes on; `Throws` is an error that `free` does not handle. */
  datatype Turn = Again | Ends(status: Status, error: Option<string>) | Throws

  datatype Result = Result(tally: Tally, status: Status, error: Option<string>)

  function Pairs(active: set<string>): set<(Kind, string)> {
    set k: Kind, m | m in active :: (k, m)
  }

  lemma {:induction false} PairCount(active: set<string>)
    ensures |Pairs(active)| == 2 * |active|
  {
    if active == {} {
      assert Pairs(active) == {};
    } else {
      var m :| m in active;
      PairCount(active - {m});
      assert Pairs(active) == Pairs(active - {m}) + {(Sleep, m), (Stop, m)} by {
        forall p | p in Pairs(active) ensures p in Pairs(active - {m}) + {(Sleep, m), (Stop, m)} {
          var k, n :| n in active && p == (k, n);
          assert n in active - {m} ==> (k, n) in Pairs(active - {m});
          assert k.Sleep? || k.Stop?;
          assert n == m ==> p == (Sleep, m) || p == (Stop, m);
        }
      }
      assert |{(Sleep, m), (Stop, m)}| == 2;
    }
  }

  function SentPairs(sent: seq<Dispatch>): set<(Kind, string)> {
    set i | 0 <= i < |sent| :: (sent[i].action.kind, sent[i].action.model)
  }

  predicate NoRepeats(sent: seq<Dispatch>) {
    forall i, j | 0 <= i < j < |sent| ::
      (sent[i].action.kind, sent[i].action.model) != (sent[j].action.kind, sent[j].action.model)
  }

  lemma {:induction false} SentCount(sent: seq<Dispatch>, active: set<string>)
    requires NoRepeats(sent) && SentPairs(sent) <= Pairs(active)
    ensures |sent| <= 2 * |active|
  {
    SentSize(sent);
    PairCount(active);
    SubsetSize(SentPairs(sent), Pairs(active));
  }

  lemma {:induction false} SentSize(sent: seq<Dispatch>)
    requires NoRepeats(sent)
    ensures |SentPairs(sent)| == |sent|
  {
    if sent == [] {
      assert SentPairs(sent) == {};
    } else {
      var n := |sent| - 1;
      SentSize(sent[..n]);
      assert SentPairs(sent) == SentPairs(sent[..n]) + {(sent[n].action.kind, sent[n].action.model)};
    }
  }

  lemma {:induction false} SubsetSize<T>(a: set<T>, b: set<T>)
    requires a <= b
    ensures |a| <= |b|
  {
    if a != {} {
      var x :| x in a;
      SubsetSize(a - {x}, b - {x});
    }
  }

  /** The state of a call between two turns: every dispatch was confirmed, and none repeats. */
  ghost predicate TurnOk(active: set<string>, units: map<string, string>, rounds: seq<Round>, sent: seq<Dispatch>,
                         t: Tally, before: Option<real>, selection: Selection) {
    && Supported(units, rounds, sent, t, before, selection) && NoRepeats(sent)
    && SentPairs(sent) == t.confirmed && t.confirmed <= Pairs(active)
  }

  /** The state of a call whose last dispatch may be unconfirmed. */
  ghost predicate EndOk(active: set<string>, units: map<string, string>, rounds: seq<Round>, sent: seq<Dispatch>,
                        t: Tally, before: Option<real>, selection: Selection) {
    Supported(units, rounds, sent, t, before, selection) && NoRepeats(sent) && SentPairs(sent) <= Pairs(active)
  }

  lemma DispatchKeeps(active: set<string>, units: map<string, string>, rounds: seq<Round>, sent: seq<Dispatch>,
                      t: Tally, before: Option<real>, selection: Selection, d: Dispatch)
    requires TurnOk(active, units, rounds, sent, t, before, selection)
    requires (d.action.kind, d.action.model) !in t.confirmed && d.action.model in active
    ensures EndOk(active, units, rounds, sent + [d], t, before, selection)
    ensures SentPairs(sent + [d]) == t.confirmed + {(d.action.kind, d.action.model)}
  {
    hide NoRepeats, SentPairs, Supported;
    PairsGrow(sent, d);
    StillNoRepeats(sent, d);
    SupportedLater(units, rounds, sent, rounds, sent + [d], t, before, selection);
  }

  lemma StillNoRepeats(sent: seq<Dispatch>, d: Dispatch)
    requires NoRepeats(sent) && (d.action.kind, d.action.model) !in SentPairs(sent)
    ensures NoRepeats(sent + [d])
  {
    var longer := sent + [d];
    assert forall i | 0 <= i < |sent| :: (longer[i].action.kind, longer[i].action.model) in SentPairs(sent);
  }

  lemma PairsGrow(sent: seq<Dispatch>, d: Dispatch)
    ensures SentPairs(sent + [d]) == SentPairs(sent) + {(d.action.kind, d.action.model)}
  {
    var longer := sent + [d];
    assert longer[|sent|] == d;
    forall p | p in SentPairs(sent) ensures p in SentPairs(longer) {
      var i :| 0 <= i < |sent| && (sent[i].action.kind, sent[i].action.model) == p;
      assert longer[i] == sent[i];
    }
  }

  class FreeController {
    const active: set<string>
    const units: map<string, string>
    var pending: set<string>
    var freeActive: bool
    var script: seq<Answer>
    ghost var rounds: seq<Round>      // collected by this call
    ghost var sent: seq<Dispatch>     // dispatched by this call

    constructor (active: set<string>, units: map<string, string>, script: seq<Answer>)
      ensures this.active == active && this.units == units && pending == {} && !freeActive
    {
      this.active, this.units, this.script := active, units, script;
      pending, freeActive, rounds, sent := {}, false, [], [];
    }

    method Ask() returns (answer: Answer)
      modifies this`script
      ensures |script| < |old(script)| || (answer == Late && script == [])
    {
      if script == [] {
        return Late;
      }
      answer, script := script[0], script[1..];
    }

    /** `_refresh`: a new round, or nothing. */
    method Refresh() returns (round: Option<Round>)
      modifies this`script, this`rounds
      ensures rounds == if round.Some? then old(rounds) + [round.value] else old(rounds)
      ensures |script| < |old(script)| || (round.None? && script == [])
    {
      var answer := Ask();
      if answer.Sampled? {
        rounds := rounds + [answer.round];
        return Some(answer.round);
      }
      return None;
    }

    /** `_wait_effect`: two fresh rounds in a row show the effect, the second sampled later. */
    method WaitEffect(action: Action, ghost d: Dispatch) returns (applied: bool, last: Round)
      requires d.at <= |rounds| && d.action == action
      modifies this`script, this`rounds
      ensures old(rounds) <= rounds
      ensures applied ==> last in rounds && Shown(units, rounds, d)
    {
      hide Effect;
      applied, last := false, Round(0.0, false, [], None, []);
      var seenAt: Option<real> := None;
      ghost var at: nat := 0;
      var round := Refresh();
      while round.Some?
        invariant old(rounds) <= rounds
        invariant round.Some? ==> |rounds| > |old(rounds)| && rounds[|rounds| - 1] == round.value
        invariant seenAt.Some? ==> d.at <= at < |rounds| - (if round.Some? then 1 else 0) && rounds[at].current
                                   && Effect(units, d.action, rounds[at]) && rounds[at].sampledAt == seenAt.value
        decreases |script|, round.Some?
      {
        last := round.value;
        var shown := last.current && Effect(units, action, last);
        if shown && seenAt.Some? && last.sampledAt > seenAt.value {
          assert SeenTwice(units, rounds, d, at, |rounds| - 1);
          return true, last;
        }
        seenAt := if shown then Some(last.sampledAt) else None;
        at := |rounds| - 1;
        round := Refresh();
      }
    }

    /** After a failed request: two more rounds, in case it took effect all the same. */
    method SeeAnyway(action: Action, attempted: bool, ghost d: Dispatch) returns (failed: bool, shown: bool, last: Round)
      requires d.at <= |rounds| && d.action == action
      modifies this`script, this`rounds
      ensures old(rounds) <= rounds
      ensures shown ==> last in rounds && Shown(units, rounds, d)
    {
      hide Effect;
      failed, shown, last := true, false, Round(0.0, false, [], None, []);
      var first := Refresh();
      if first.None? {
        return;
      }
      if !attempted || !first.value.current || !Effect(units, action, first.value) {
        return false, false, first.value;
      }
      var second := Refresh();
      if second.None? {
        return;
      }
      last := second.value;
      failed := false;
      shown := last.current && last.sampledAt > first.value.sampledAt && Effect(units, action, last);
      if shown {
        assert SeenTwice(units, rounds, d, |rounds| - 2, |rounds| - 1);
      }
    }

    /** Record a confirmed action. */
    lemma ConfirmKeeps(sent': seq<Dispatch>, rounds': seq<Round>, t: Tally, before: Option<real>, selection: Selection,
                       last: Round)
      requires sent' != [] && EndOk(active, units, rounds', sent', t, before, selection) && last in rounds'
      requires Shown(units, rounds', sent'[|sent'| - 1])
      ensures var action := sent'[|sent'| - 1].action;
              var t' := Recorded(t, last, Some(action), before, selection);
              EndOk(active, units, rounds', sent', t', before, selection)
              && t'.confirmed == t.confirmed + {(action.kind, action.model)}
    {
      var d := sent'[|sent'| - 1];
      var i, j :| SeenTwice(units, rounds', d, i, j);
      assert Confirmed(units, rounds', sent', (d.action.kind, d.action.model));
      RecordSupported(units, rounds', sent', t, last, Some(d.action), before, selection);
    }

    /** Send the action and watch it: the second half of a turn. */
    method Act(action: Action, t: Tally, before: Option<real>, selection: Selection, previousHost: Option<real>)
      returns (turn: Turn, t': Tally)
      requires TurnOk(active, units, rounds, sent, t, before, selection)
      requires (action.kind, action.model) !in t.confirmed && action.model in active
      modifies this`script, this`rounds, this`sent
      ensures EndOk(active, units, rounds, sent, t', before, selection)
      ensures turn.Again? ==> TurnOk(active, units, rounds, sent, t', before, selection)
                              && t'.confirmed == t.confirmed + {(action.kind, action.model)}
    {
      hide Supported, NoRepeats, Pairs, SentPairs, Recorded, Shown, Metric;
      ghost var d := Dispatch(action, |rounds|);
      DispatchKeeps(active, units, rounds, sent, t, before, selection, d);
      sent := sent + [d];
      t' := t;
      ghost var seen := rounds;
      var answer := Ask();
      if !answer.Passes? {
        var attempted := answer.Rejected? && answer.attempted;
        var failed, shown, last := SeeAnyway(action, attempted, d);
        SupportedLater(units, seen, sent, rounds, sent, t, before, selection);
        if shown {
          ConfirmKeeps(sent, rounds, t, before, selection, last);
          t' := Recorded(t, last, Some(action), before, selection);
        }
        var reason := if answer.Rejected? && !failed then answer.reason else "deadline_exceeded";
        return Ends(if t'.confirmed != {} then Partial else Failed, Some(reason)), t';
      }
      var applied, last := WaitEffect(action, d);
      SupportedLater(units, seen, sent, rounds, sent, t, before, selection);
      if !applied {
        answer := Ask();
        turn := Ends(if t.confirmed != {} then Partial else if answer.Late? then Timeout else NoProgress,
                     Some("effect_not_confirmed"));
        return;
      }
      ConfirmKeeps(sent, rounds, t, before, selection, last);
      t' := Recorded(t, last, Some(action), before, selection);
      turn := Judge(t, t', action, last, selection, previousHost);
      if turn.Again? {
        answer := Ask();  // the lock
        if !answer.Passes? {
          turn := Ends(Partial, Some("deadline_exceeded"));
        }
      }
    }

    /** Whether a confirmed action released anything. */
    method Judge(t: Tally, t': Tally, action: Action, last: Round, selection: Selection, previousHost: Option<real>)
      returns (turn: Turn)
    {
      if Metric(selection, last).None? {
        return Ends(Partial, Some("measurement_unavailable"));
      }
      if t'.freed.None? || t.freed.None? {
        return Throws;
      }
      var preparing := action.preparesRam && previousHost.Some? && last.host.Some? && last.host.value > previousHost.value;
      return if t'.freed.value <= t.freed.value && !preparing then Ends(NoProgress, Some("no_measured_release")) else Again;
    }

    /** The first half of a turn: why to stop, or the action to send. */
    method Choose(t: Tally, before: Option<real>, need: Option<real>)
      returns (turn: Turn, action: Option<Action>, host: Option<real>)
      modifies this`script
      ensures turn.Again? <==> action.Some?
      ensures action.Some? ==> action.value.model in active && action.value.model !in pending
                               && (action.value.kind, action.value.model) !in t.confirmed && before.Some?
    {
      action, host := None, None;
      var some := if t.confirmed != {} then Partial else Failed;
      var enough := need.Some? && t.freed.Some? && t.freed.value >= need.value;
      var answer := Ask();
      match answer {
        case Late => return Ends(if t.confirmed != {} then Partial else Timeout, Some("deadline_exceeded")), action, host;
        case Stopping =>
          return (if enough then Ends(Complete, None) else Ends(some, Some("scheduler_stopping"))), action, host;
        case Fails(reason) => return Ends(some, Some(reason)), action, host;
        case _ =>
      }
      answer := Ask();  // the published snapshot
      if !answer.Sampled? || !answer.round.current {
        return Ends(if t.confirmed != {} then Partial else Blocked, None), action, host;
      }
      host := answer.round.host;
      if before.None? {
        return Ends(Blocked, None), action, host;
      }
      if enough {
        return Ends(Complete, None), action, host;
      }
      answer := Ask();  // the planner
      if !answer.Planned? || answer.action.None? {
        var blocked := answer.Planned? && answer.blocked;
        turn := Ends(if !blocked then Complete else if t.confirmed != {} then Partial else Blocked, None);
        return;
      }
      var first := answer.action.value;
      if (first.kind, first.model) in t.confirmed {
        return Ends(NoProgress, None), action, host;
      }
      answer := Ask();  // faults and recoveries of the model
      if first.model !in active || answer.Fails? {
        return Ends(some, Some("model_retired")), action, host;
      }
      if first.model in pending {
        return Ends(some, Some("operation_in_progress")), action, host;
      }
      return Again, Some(first), host;
    }

    /**
     `free`. Each action is dispatched at most once, so at most two for each active model, whatever the
     planner and the deadline do; every name it reports was seen in its target state in two fresh rounds
     after its dispatch; and the pending marks are left as they were.
     */
    method Free(need: Option<real>, selection: Selection) returns (result: Option<Result>)
      modifies this
      ensures pending == old(pending) && freeActive == old(freeActive)
      ensures old(freeActive) ==> result.None? && sent == old(sent)
      ensures !old(freeActive) ==> NoRepeats(sent) && |sent| <= 2 * |active|
      ensures result.Some? ==>
                && (forall n | n in result.value.tally.slept :: Confirmed(units, rounds, sent, (Sleep, n)))
                && (forall n | n in result.value.tally.stopped :: Confirmed(units, rounds, sent, (Stop, n)))
                && exists before :: Supported(units, rounds, sent, result.value.tally, before, selection)
    {
      hide Supported, NoRepeats, Pairs, SentPairs, Recorded, Metric;
      if freeActive {
        return None;
      }
      rounds, sent := [], [];
      NothingSent();
      var answer := Ask();  // the lock and the guards
      if !answer.Passes? {
        return None;
      }
      freeActive := true;
      var t := Tally(None, None, [], [], {}, 0);
      var round := Refresh();
      ghost var before: Option<real> := None;
      var turn := Again;
      if round.None? {
        turn := Ends(Failed, Some("deadline_exceeded"));
        EmptyTally(before, selection);
      } else {
        var first := Metric(selection, round.value);
        EmptyTally(first, selection);
        RecordSupported(units, rounds, sent, t, round.value, None, first, selection);
        FirstRecord(t, round.value, first, selection);
        t := Recorded(t, round.value, None, first, selection);
        before := first;
        turn, t := Turns(t, first, need, selection);
      }
      freeActive := false;
      EndCounts(t, before, selection);
      if turn.Ends? {
        result := Some(Result(t, turn.status, turn.error));
      } else {
        result := None;
      }
    }

    lemma NothingSent()
      requires sent == []
      ensures NoRepeats(sent) && |sent| <= 2 * |active| && SentPairs(sent) == {}
    {
      assert SentPairs(sent) == {};
    }

    lemma EmptyTally(before: Option<real>, selection: Selection)
      requires sent == []
      ensures var t := Tally(None, None, [], [], {}, 0);
              TurnOk(active, units, rounds, sent, t, before, selection) && EndOk(active, units, rounds, sent, t, before, selection)
    {
      NothingSent();
    }

    lemma FirstRecord(t: Tally, r: Round, before: Option<real>, selection: Selection)
      ensures Recorded(t, r, None, before, selection).confirmed == t.confirmed
    {
    }

    lemma EndCounts(t: Tally, before: Option<real>, selection: Selection)
      requires EndOk(active, units, rounds, sent, t, before, selection)
      ensures NoRepeats(sent) && |sent| <= 2 * |active|
      ensures forall n | n in t.slept :: Confirmed(units, rounds, sent, (Sleep, n))
      ensures forall n | n in t.stopped :: Confirmed(units, rounds, sent, (Stop, n))
      ensures Supported(units, rounds, sent, t, before, selection)
    {
      hide Confirmed, Pairs, SentPairs;
      SentCount(sent, active);
    }

    /** The loop. It ends because every turn that goes on confirms one more of finitely many actions. */
    method Turns(start: Tally, before: Option<real>, need: Option<real>, selection: Selection)
      returns (turn: Turn, t: Tally)
      requires TurnOk(active, units, rounds, sent, start, before, selection)
      modifies this`script, this`rounds, this`sent, this`pending
      ensures EndOk(active, units, rounds, sent, t, before, selection)
      ensures pending == old(pending) && !turn.Again?
    {
      hide Supported, NoRepeats, Pairs, SentPairs;
      t, turn := start, Again;
      var mine: Option<string> := None;
      while turn.Again?
        invariant EndOk(active, units, rounds, sent, t, before, selection)
        invariant turn.Again? ==> TurnOk(active, units, rounds, sent, t, before, selection) && mine.None?
        invariant if mine.Some? then pending == old(pending) + {mine.value} && mine.value !in old(pending)
                  else pending == old(pending)
        decreases turn.Again?, |Pairs(active) - t.confirmed|
      {
        ghost var confirmed := t.confirmed;
        var action, host;
        turn, action, host := Choose(t, before, need);
        if action.Some? {
          mine, pending := Some(action.value.model), pending + {action.value.model};
          turn, t := Act(action.value, t, before, selection, host);
          if turn.Again? {
            pending, mine := pending - {action.value.model}, None;
            OneMore(confirmed, (action.value.kind, action.value.model), t.confirmed);
          }
        }
      }
      if mine.Some? {
        pending := pending - {mine.value};
      }
    }

    lemma OneMore(confirmed: set<(Kind, string)>, pair: (Kind, string), after: set<(Kind, string)>)
      requires pair !in confirmed && after == confirmed + {pair} && after <= Pairs(active)
      ensures |Pairs(active) - after| < |Pairs(active) - confirmed|
    {
      assert pair in Pairs(active);
      assert Pairs(active) - confirmed == (Pairs(active) - after) + {pair};
    }
  }
}
