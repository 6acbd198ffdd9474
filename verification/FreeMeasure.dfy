/** What the measured `free` of llmsvc/actions.py observes: rounds, effects and the release it reports. */
module FreeMeasure {
  import opened Options

  datatype Kind = Sleep | Stop

  datatype Action = Action(kind: Kind, model: string, gpu: Option<int>, preparesRam: bool)

  datatype ModelStatus = ModelStatus(
    name: string, state: string, unit: Option<string>, unitActive: Flag, isSleeping: Flag, gpu: Option<int>)

  datatype Gpu = Gpu(index: int, freeGb: Option<real>)

  /** One published round; `current` tells whether it is recent, known and without errors when it is tested. */
  datatype Round = Round(sampledAt: real, current: bool, models: seq<ModelStatus>, host: Option<real>, gpus: seq<Gpu>)

  function Named(models: seq<ModelStatus>, name: string): seq<ModelStatus> {
    if models == [] then []
    else (if models[0].name == name then [models[0]] else []) + Named(models[1..], name)
  }

  /** `_effect`: the model is seen, exactly once and at its unit, in the state the action aims at. */
  predicate Effect(units: map<string, string>, a: Action, r: Round) {
    var models := Named(r.models, a.model);
    && |models| == 1 && a.model in units && models[0].unit == Some(units[a.model])
    && match a.kind
       case Sleep =>
         models[0].state == "sleeping" && models[0].isSleeping == Yes && models[0].unitActive == Yes
         && (a.gpu.None? || models[0].gpu == a.gpu)
       case Stop => models[0].state == "stopped" && models[0].unitActive == No
  }

  // ---- the measurement ----

  datatype Selection = Ram | Gpus(ids: set<int>)

  function Selected(gpus: seq<Gpu>, ids: set<int>): seq<Gpu> {
    if gpus == [] then []
    else (if gpus[0].index in ids then [gpus[0]] else []) + Selected(gpus[1..], ids)
  }

  function SumFree(gpus: seq<Gpu>): Option<real> {
    if gpus == [] then Some(0.0)
    else if gpus[0].freeGb.None? || SumFree(gpus[1..]).None? then None
    else Some(gpus[0].freeGb.value + SumFree(gpus[1..]).value)
  }

  /** `_metric`. */
  function Metric(selection: Selection, r: Round): Option<real> {
    match selection
    case Ram => r.host
    case Gpus(ids) =>
      var selected := Selected(r.gpus, ids);
      if |selected| != |ids| || selected == [] then None else SumFree(selected)
  }

  function AtLeastZero(x: real): real {
    if x < 0.0 then 0.0 else x
  }

  // ---- the growing result ----

  /** A dispatched action and how many rounds had been collected before it. */
  datatype Dispatch = Dispatch(action: Action, at: nat)

  datatype Tally = Tally(
    freed: Option<real>, measuredAt: Option<real>, slept: seq<string>, stopped: seq<string>,
    confirmed: set<(Kind, string)>, measuredEffects: nat)

  function WithName(names: seq<string>, name: string): seq<string> {
    if name in names then names else names + [name]
  }

  /** `record`. */
  function Recorded(t: Tally, r: Round, action: Option<Action>, before: Option<real>, selection: Selection): Tally {
    var metric := Metric(selection, r);
    var measured :=
      if before.Some? && metric.Some? && r.current then
        t.(freed := Some(AtLeastZero(metric.value - before.value)), measuredAt := Some(r.sampledAt),
           measuredEffects := t.measuredEffects + (if action.Some? then 1 else 0))
      else if action.Some? && t.measuredEffects == 0 then t.(freed := None, measuredAt := None)
      else t;
    if action.None? then measured
    else
      measured.(slept := if action.value.kind == Sleep then WithName(t.slept, action.value.model) else t.slept,
                stopped := if action.value.kind == Stop then WithName(t.stopped, action.value.model) else t.stopped,
                confirmed := t.confirmed + {(action.value.kind, action.value.model)})
  }

  /** After dispatch d its effect was seen in two fresh rounds, the second sampled strictly later. */
  predicate SeenTwice(units: map<string, string>, rounds: seq<Round>, d: Dispatch, i: nat, j: nat) {
    && d.at <= i < j < |rounds| && rounds[i].current && rounds[j].current
    && rounds[i].sampledAt < rounds[j].sampledAt
    && Effect(units, d.action, rounds[i]) && Effect(units, d.action, rounds[j])
  }

  ghost predicate Shown(units: map<string, string>, rounds: seq<Round>, d: Dispatch) {
    exists i, j :: SeenTwice(units, rounds, d, i, j)
  }

  ghost predicate Confirmed(units: map<string, string>, rounds: seq<Round>, sent: seq<Dispatch>, pair: (Kind, string)) {
    exists k :: 0 <= k < |sent| && (sent[k].action.kind, sent[k].action.model) == pair && Shown(units, rounds, sent[k])
  }

  /** Every reported name is confirmed, and a reported release was measured in a fresh round. */
  ghost predicate Supported(units: map<string, string>, rounds: seq<Round>, sent: seq<Dispatch>, t: Tally,
                            before: Option<real>, selection: Selection) {
    && (forall n :: n in t.slept <==> (Sleep, n) in t.confirmed)
    && (forall n :: n in t.stopped <==> (Stop, n) in t.confirmed)
    && (forall p | p in t.confirmed :: Confirmed(units, rounds, sent, p))
    && (t.freed.Some? ==> before.Some? && t.measuredAt.Some?
                          && exists r :: r in rounds && Measures(r, t, before.value, selection))
  }

  predicate Measures(r: Round, t: Tally, before: real, selection: Selection) {
    && r.current && t.measuredAt == Some(r.sampledAt) && Metric(selection, r).Some?
    && t.freed == Some(AtLeastZero(Metric(selection, r).value - before))
  }

  /** More rounds and dispatches take nothing away. */
  lemma SupportedLater(units: map<string, string>, rounds: seq<Round>, sent: seq<Dispatch>, rounds': seq<Round>,
                       sent': seq<Dispatch>, t: Tally, before: Option<real>, selection: Selection)
    requires Supported(units, rounds, sent, t, before, selection) && rounds <= rounds' && sent <= sent'
    ensures Supported(units, rounds', sent', t, before, selection)
  {
    hide Effect, Metric;
    forall p | p in t.confirmed ensures Confirmed(units, rounds', sent', p) {
      var k :| 0 <= k < |sent| && (sent[k].action.kind, sent[k].action.model) == p && Shown(units, rounds, sent[k]);
      var i, j :| SeenTwice(units, rounds, sent[k], i, j);
      assert sent'[k] == sent[k] && SeenTwice(units, rounds', sent'[k], i, j);
    }
    if t.freed.Some? {
      var r :| r in rounds && Measures(r, t, before.value, selection);
      assert r in rounds';
    }
  }

  /** Recording a collected round, with an action only if it was confirmed. */
  lemma RecordSupported(units: map<string, string>, rounds: seq<Round>, sent: seq<Dispatch>, t: Tally, r: Round,
                        action: Option<Action>, before: Option<real>, selection: Selection)
    requires Supported(units, rounds, sent, t, before, selection) && r in rounds
    requires action.Some? ==> Confirmed(units, rounds, sent, (action.value.kind, action.value.model))
    ensures Supported(units, rounds, sent, Recorded(t, r, action, before, selection), before, selection)
  {
    hide Metric, Confirmed;
    var t' := Recorded(t, r, action, before, selection);
    if before.Some? && Metric(selection, r).Some? && r.current {
      assert Measures(r, t', before.value, selection);
    } else if t'.freed.Some? {
      var q :| q in rounds && Measures(q, t, before.value, selection);
      assert Measures(q, t', before.value, selection);
    }
  }
}
