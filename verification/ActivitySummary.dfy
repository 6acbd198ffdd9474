/** The recent-activity summary of llmsvc/activity.py: `_summary_rows` and `ActivityReader.read`. */
module ActivitySummary {
  import opened Collation
  import opened Options

  /** A row of the activity table; `source` stands for its source columns. */
  datatype Row = Row(id: int, ts: Option<int>, model: Option<string>, source: string)

  datatype Summary = Summary(lastUsed: int, lastHour: nat, last10m: nat)

  type Rows = seq<Row>

  // ---- the queries ----

  predicate Above(model: Option<string>, bound: Option<string>) {
    model.Some? && (bound.Some? ==> Less(bound.value, model.value))
  }

  /** `SELECT MIN(model_id) … WHERE model_id > bound`; no bound selects every id. */
  function MinAbove(rows: Rows, bound: Option<string>): (least: Option<string>)
    ensures least.Some? ==> Above(least, bound) && exists r :: r in rows && r.model == least
    ensures forall r | r in rows && Above(r.model, bound) :: least.Some? && !Less(r.model.value, least.value)
  {
    if rows == [] then None
    else
      var last, before := rows[|rows| - 1], MinAbove(rows[..|rows| - 1], bound);
      assert rows == rows[..|rows| - 1] + [last];
      if !Above(last.model, bound) then before
      else if before.Some? && !Less(last.model.value, before.value) then before
      else
        assert forall r | r in rows && Above(r.model, bound) :: !Less(r.model.value, last.model.value) by {
          LeastOfTwo(rows[..|rows| - 1], bound, before, last.model.value);
        }
        last.model
  }

  lemma LeastOfTwo(rows: Rows, bound: Option<string>, before: Option<string>, least: string)
    requires forall r | r in rows && Above(r.model, bound) :: before.Some? && !Less(r.model.value, before.value)
    requires before.Some? ==> Less(least, before.value)
    ensures !Less(least, least)
    ensures forall r | r in rows && Above(r.model, bound) :: !Less(r.model.value, least)
  {
    LessIrreflexive(least);
    forall r | r in rows && Above(r.model, bound) ensures !Less(r.model.value, least) {
      if Less(r.model.value, least) {
        LessTransitive(r.model.value, least, before.value);
      }
    }
  }

  /** The row counts for a model at or before now. */
  predicate Eligible(r: Row, now: int) {
    r.ts.Some? && r.ts.value <= now
  }

  /** `SELECT MAX(ts_created) … WHERE model_id IS ? AND ts_created <= ?`. */
  function MaxTs(rows: Rows, model: Option<string>, now: int): (latest: Option<int>)
    ensures latest.Some? ==> exists r :: r in rows && r.model == model && Eligible(r, now) && r.ts == latest
    ensures forall r | r in rows && r.model == model && Eligible(r, now) :: latest.Some? && r.ts.value <= latest.value
  {
    if rows == [] then None
    else
      var last, before := rows[|rows| - 1], MaxTs(rows[..|rows| - 1], model, now);
      assert rows == rows[..|rows| - 1] + [last];
      if last.model != model || !Eligible(last, now) then before
      else if before.Some? && before.value >= last.ts.value then before
      else last.ts
  }

  /** How many rows of the model between lo and hi are at or after `from`. */
  function CountFrom(rows: Rows, model: Option<string>, lo: int, hi: int, from: int): nat {
    if rows == [] then 0
    else
      var last := rows[|rows| - 1];
      CountFrom(rows[..|rows| - 1], model, lo, hi, from)
      + (if last.model == model && last.ts.Some? && lo <= last.ts.value <= hi && last.ts.value >= from then 1 else 0)
  }

  /** `SELECT … WHERE model_id IS ? AND ts_created = ? ORDER BY id DESC LIMIT 1`. */
  function HighestAt(rows: Rows, model: Option<string>, ts: int): (highest: Option<Row>)
    ensures highest.Some? ==> highest.value in rows && highest.value.model == model && highest.value.ts == Some(ts)
    ensures forall r | r in rows && r.model == model && r.ts == Some(ts) :: highest.Some? && r.id <= highest.value.id
  {
    if rows == [] then None
    else
      var last, before := rows[|rows| - 1], HighestAt(rows[..|rows| - 1], model, ts);
      assert rows == rows[..|rows| - 1] + [last];
      if last.model != model || last.ts != Some(ts) then before
      else if before.Some? && before.value.id > last.id then before
      else Some(last)
  }

  // ---- the reference: one pass over the whole table ----

  function Counted(r: Row, now: int, before: Option<Summary>): Summary
    requires Eligible(r, now)
  {
    var s := if before.Some? then before.value else Summary(r.ts.value, 0, 0);
    Summary(if r.ts.value > s.lastUsed then r.ts.value else s.lastUsed,
            s.lastHour + (if r.ts.value >= now - 3600 then 1 else 0),
            s.last10m + (if r.ts.value >= now - 600 then 1 else 0))
  }

  function GroupBy(rows: Rows, now: int): map<Option<string>, Summary> {
    if rows == [] then map[]
    else
      var last, before := rows[|rows| - 1], GroupBy(rows[..|rows| - 1], now);
      if !Eligible(last, now) then before
      else before[last.model := Counted(last, now, if last.model in before then Some(before[last.model]) else None)]
  }

  /** The group of a model, by the seeks of the skip-scan. */
  lemma {:induction false} GroupBySeeks(rows: Rows, now: int, model: Option<string>)
    ensures model in GroupBy(rows, now) <==> MaxTs(rows, model, now).Some?
    ensures model in GroupBy(rows, now) ==>
              GroupBy(rows, now)[model]
              == Summary(MaxTs(rows, model, now).value, CountFrom(rows, model, now - 3600, now, now - 3600),
                         CountFrom(rows, model, now - 3600, now, now - 600))
    ensures model !in GroupBy(rows, now) ==>
              CountFrom(rows, model, now - 3600, now, now - 3600) == CountFrom(rows, model, now - 3600, now, now - 600) == 0
  {
    if rows != [] {
      GroupBySeeks(rows[..|rows| - 1], now, model);
    }
  }

  // ---- the skip-scan ----

  ghost function IdsAbove(rows: Rows, bound: Option<string>): set<string> {
    set r | r in rows && Above(r.model, bound) :: r.model.value
  }

  /** The enumeration of the model ids: each once, the missing id first. */
  method ModelIds(rows: Rows) returns (models: seq<Option<string>>)
    ensures forall i, j | 0 <= i < j < |models| :: models[i] != models[j]
    ensures forall m :: m in models <==> exists r :: r in rows && r.model == m
  {
    models := [];
    if exists r :: r in rows && r.model.None? {
      models := [None];
    }
    ghost var bound: Option<string> := None;
    var next := MinAbove(rows, None);
    while next.Some?
      invariant next == MinAbove(rows, bound)
      invariant forall i, j | 0 <= i < j < |models| :: models[i] != models[j]
      invariant forall m | m in models :: exists r :: r in rows && r.model == m
      invariant forall r | r in rows && !Above(r.model, bound) :: r.model in models
      invariant forall m | m in models :: !Above(m, bound)
      decreases IdsAbove(rows, bound)
    {
      SkipStep(rows, bound, next.value, models);
      models := models + [next];
      bound := next;
      next := MinAbove(rows, next);
    }
  }

  lemma SkipStep(rows: Rows, bound: Option<string>, next: string, models: seq<Option<string>>)
    requires MinAbove(rows, bound) == Some(next)
    requires forall r | r in rows && !Above(r.model, bound) :: r.model in models
    requires forall m | m in models :: !Above(m, bound)
    ensures Some(next) !in models
    ensures forall r | r in rows && !Above(r.model, Some(next)) :: r.model in models + [Some(next)]
    ensures forall m | m in models + [Some(next)] :: !Above(m, Some(next))
    ensures IdsAbove(rows, Some(next)) < IdsAbove(rows, bound)
  {
    LessIrreflexive(next);
    forall r | r in rows && !Above(r.model, Some(next)) ensures r.model in models + [Some(next)] {
      if Above(r.model, bound) {
        LessTotal(r.model.value, next);
      }
    }
    forall m | m in models ensures !Above(m, Some(next)) {
      if Above(m, Some(next)) && bound.Some? {
        LessTransitive(bound.value, next, m.value);
      }
    }
    forall id | id in IdsAbove(rows, Some(next)) ensures id in IdsAbove(rows, bound) {
      if bound.Some? {
        LessTransitive(bound.value, next, id);
      }
    }
    assert next in IdsAbove(rows, bound) && next !in IdsAbove(rows, Some(next));
  }

  datatype SummaryRow = SummaryRow(model: Option<string>, summary: Summary)

  /** `_summary_rows`: exactly the groups of the one-pass aggregate, each once. */
  method SummaryRows(rows: Rows, now: int) returns (summaries: seq<SummaryRow>)
    ensures forall i, j | 0 <= i < j < |summaries| :: summaries[i].model != summaries[j].model
    ensures forall m :: m in GroupBy(rows, now) <==> exists s :: s in summaries && s.model == m
    ensures forall s | s in summaries :: s.model in GroupBy(rows, now) && s.summary == GroupBy(rows, now)[s.model]
    ensures forall s | s in summaries :: MaxTs(rows, s.model, now) == Some(s.summary.lastUsed)
  {
    hide GroupBy, CountFrom, MaxTs, Eligible;
    summaries := [];
    var models := ModelIds(rows);
    for i := 0 to |models|
      invariant forall s | s in summaries :: s.model in models[..i]
      invariant forall a, b | 0 <= a < b < |summaries| :: summaries[a].model != summaries[b].model
      invariant forall m | m in models[..i] && m in GroupBy(rows, now) :: exists s :: s in summaries && s.model == m
      invariant forall s | s in summaries :: s.model in GroupBy(rows, now) && s.summary == GroupBy(rows, now)[s.model]
      invariant forall s | s in summaries :: MaxTs(rows, s.model, now) == Some(s.summary.lastUsed)
    {
      var model := models[i];
      var lastUsed := MaxTs(rows, model, now);
      GroupBySeeks(rows, now, model);
      if lastUsed.Some? {
        var lastHour := CountFrom(rows, model, now - 3600, now, now - 3600);
        var last10m := CountFrom(rows, model, now - 3600, now, now - 600);
        summaries := summaries + [SummaryRow(model, Summary(lastUsed.value, lastHour, last10m))];
        assert summaries[|summaries| - 1].model == model;
      }
    }
    forall m | m in GroupBy(rows, now) ensures m in models[..|models|] {
      GroupBySeeks(rows, now, m);
      var r :| r in rows && r.model == m && Eligible(r, now);
      assert models[..|models|] == models;
    }
  }

  datatype Recent = Recent(summary: Summary, source: string)

  /** The row is the last one of its model: greatest in time, then in id. */
  predicate LastRow(rows: Rows, now: int, r: Row) {
    && r in rows && Eligible(r, now)
    && forall q | q in rows && q.model == r.model && Eligible(q, now) ::
         q.ts.value < r.ts.value || (q.ts == r.ts && q.id <= r.id)
  }

  predicate ComesFromLast(rows: Rows, now: int, model: Option<string>, source: string) {
    exists r :: r in rows && LastRow(rows, now, r) && r.model == model && r.source == source
  }

  /** `read`, inside one snapshot: every recent model with its counts and the source of its last row. */
  method Read(rows: Rows, now: int) returns (result: Option<map<Option<string>, Recent>>)
    ensures result.Some? && result.value.Keys == GroupBy(rows, now).Keys
    ensures forall m | m in result.value ::
              && result.value[m].summary == GroupBy(rows, now)[m]
              && ComesFromLast(rows, now, m, result.value[m].source)
  {
    hide GroupBy, ComesFromLast;
    var summaries := SummaryRows(rows, now);
    var recent: map<Option<string>, Recent> := map[];
    for i := 0 to |summaries|
      invariant forall m :: m in recent <==> exists j :: 0 <= j < i && summaries[j].model == m
      invariant forall m | m in recent :: m in GroupBy(rows, now) && recent[m].summary == GroupBy(rows, now)[m]
      invariant forall m | m in recent :: ComesFromLast(rows, now, m, recent[m].source)
    {
      var s := summaries[i];
      HighestIsLast(rows, now, s.model, s.summary.lastUsed);
      var latest := HighestAt(rows, s.model, s.summary.lastUsed);
      if latest.None? {
        assert false;  // the summary found a row of this time, in the same snapshot
      }
      recent := recent[s.model := Recent(s.summary, latest.value.source)];
    }
    result := Some(recent);
  }

  lemma HighestIsLast(rows: Rows, now: int, model: Option<string>, ts: int)
    requires MaxTs(rows, model, now) == Some(ts)
    ensures HighestAt(rows, model, ts).Some? && LastRow(rows, now, HighestAt(rows, model, ts).value)
    ensures ComesFromLast(rows, now, model, HighestAt(rows, model, ts).value.source)
  {
    var r :| r in rows && r.model == model && Eligible(r, now) && r.ts == Some(ts);
    var highest := HighestAt(rows, model, ts).value;
    forall q | q in rows && q.model == model && Eligible(q, now)
      ensures q.ts.value < ts || (q.ts == highest.ts && q.id <= highest.id)
    {
      assert q.ts.value <= ts;
    }
  }
}
