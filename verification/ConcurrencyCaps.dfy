/** The caps of deploy/concurrency_smoke.py: which models `candidate_config` edits, and to what. */
module ConcurrencyCaps {
  import opened Options
  import opened Splice

  /** A model's concurrencyLimit as loaded; `Other` is any value that is not an integer. */
  datatype Cap = Missing | Number(n: int) | Other

  /** A configuration as loaded: the caps of its models, and everything else. */
  datatype Values = Values(caps: map<string, Cap>, rest: string)

  /** Where the parser found a model's cap, or where a line for it can go. */
  datatype Site = Scalar(start: nat, end: nat) | Line(at: nat, indent: nat)

  function Digits(n: nat): string {
    if n < 10 then ["0123456789"[n]] else Digits(n / 10) + ["0123456789"[n % 10]]
  }

  function Spaces(n: nat): string {
    seq(n, _ => ' ')
  }

  predicate Usable(cap: Cap) {
    cap == Missing || (cap.Number? && cap.n >= 0)
  }

  /** `max(limit, previous or 0)`. */
  function Chosen(limit: nat, cap: Cap): nat
    requires Usable(cap)
  {
    if cap == Missing || cap.n < limit then limit else cap.n
  }

  /** The caps the candidate must have: none lowered, all at least the limit, everything else as it was. */
  function Raised(limit: nat, v: Values): Values
    requires forall m | m in v.caps :: Usable(v.caps[m])
  {
    v.(caps := map m | m in v.caps :: Number(Chosen(limit, v.caps[m])))
  }

  /** The models whose cap changes. */
  function Changed(limit: nat, v: Values): set<string>
    requires forall m | m in v.caps :: Usable(v.caps[m])
  {
    set m | m in v.caps && v.caps[m] != Number(Chosen(limit, v.caps[m]))
  }

  function EditFor(site: Site, chosen: nat, newline: string): Edit {
    match site
    case Scalar(start, end) => Edit(start, end, Digits(chosen))
    case Line(at, indent) => Edit(at, at, Spaces(indent) + "concurrencyLimit: " + Digits(chosen) + newline)
  }

  /** The edits of a set of models. */
  function EditsFor(models: set<string>, limit: nat, v: Values, sites: map<string, Site>, newline: string): set<Edit>
    requires models <= v.caps.Keys && models <= sites.Keys && forall m | m in v.caps :: Usable(v.caps[m])
  {
    set m | m in models :: EditFor(sites[m], Chosen(limit, v.caps[m]), newline)
  }

  predicate Below(a: Site, b: Site) {
    var (start, end) := Span(a); end <= Span(b).0 && start < Span(b).0
  }

  function Span(s: Site): (nat, nat) {
    match s
    case Scalar(start, end) => (start, end)
    case Line(at, _) => (at, at)
  }

  /** What the parser's marks are: inside the text, and at distinct places for distinct models. */
  predicate Placed(sites: map<string, Site>, text: string) {
    && (forall m | m in sites :: Span(sites[m]).0 <= Span(sites[m]).1 <= |text|)
    && (forall m, k | m in sites && k in sites && m != k :: Below(sites[m], sites[k]) || Below(sites[k], sites[m]))
  }

  lemma EditsAreSeparate(models: set<string>, limit: nat, v: Values, sites: map<string, Site>, newline: string, text: string)
    requires models <= v.caps.Keys && models <= sites.Keys && forall m | m in v.caps :: Usable(v.caps[m])
    requires Placed(sites, text)
    ensures Separate(EditsFor(models, limit, v, sites, newline), text)
  {
  }

  /** A parser: the loaded values of a text, and the marks of its models; None where it refuses. */
  datatype Parser = Parser(values: string -> Option<Values>, sites: string -> map<string, Site>)

  datatype Candidate = Candidate(text: string, changes: set<string>)

  /** The loop over the models. */
  method CollectEdits(limit: nat, v: Values, sites: map<string, Site>, newline: string)
    returns (ok: bool, edits: set<Edit>, changes: set<string>)
    requires forall m | m in v.caps :: Usable(v.caps[m])
    ensures ok <==> Changed(limit, v) <= sites.Keys
    ensures ok ==> changes == Changed(limit, v) && edits == EditsFor(changes, limit, v, sites, newline)
  {
    hide EditFor;
    ok, edits, changes := false, {}, {};
    var names := v.caps.Keys;
    while names != {}
      invariant names <= v.caps.Keys && changes == Changed(limit, v) - names && changes <= sites.Keys
      invariant edits == EditsFor(changes, limit, v, sites, newline)
    {
      var name :| name in names;
      var chosen := Chosen(limit, v.caps[name]);
      names := names - {name};
      if v.caps[name] != Number(chosen) {
        if name !in sites {
          assert name in Changed(limit, v);
          return;
        }
        edits, changes := edits + {EditFor(sites[name], chosen, newline)}, changes + {name};
      }
    }
    ok := true;
  }

  /** Everything that is asked before the edits are made. */
  predicate Editable(text: string, limit: int, parser: Parser) {
    && limit >= 32 && parser.values(text).Some?
    && var v := parser.values(text).value;
       v.caps != map[] && (forall m | m in v.caps :: Usable(v.caps[m])) && Changed(limit, v) <= parser.sites(text).Keys
  }

  /** `candidate_config`: raise every cap to the limit, and touch nothing else. */
  method CandidateConfig(text: string, limit: int, parser: Parser, newline: string)
    returns (r: Option<Candidate>, order: seq<Edit>)
    requires Placed(parser.sites(text), text)
    ensures Editable(text, limit, parser) ==>
              var v := parser.values(text).value;
              var edits := EditsFor(Changed(limit, v), limit, v, parser.sites(text), newline);
              && Ascending(order, text) && |order| == |edits| && (forall e :: e in order <==> e in edits)
              && (parser.values(Substitute(text, order, 0)) == Some(Raised(limit, v)) ==>
                    r == Some(Candidate(Substitute(text, order, 0), Changed(limit, v))))
    ensures r.Some? ==> Editable(text, limit, parser) && Ascending(order, text)
                        && r.value.text == Substitute(text, order, 0)
                        && r.value.changes == Changed(limit, parser.values(text).value)
                        && parser.values(r.value.text) == Some(Raised(limit, parser.values(text).value))
  {
    hide EditsFor, Placed, Separate, Ascending, Substitute;
    order := [];
    if limit < 32 {
      return None, order;
    }
    var loaded := parser.values(text);
    if loaded.None? || loaded.value.caps == map[] {
      return None, order;
    }
    var v, sites := loaded.value, parser.sites(text);
    if exists m | m in v.caps :: !Usable(v.caps[m]) {
      return None, order;
    }
    var ok, edits, changes := CollectEdits(limit, v, sites, newline);
    if !ok {
      return None, order;
    }
    EditsAreSeparate(changes, limit, v, sites, newline, text);
    var result;
    result, order := Apply(text, edits);
    if parser.values(result) != Some(Raised(limit, v)) {
      return None, order;
    }
    r := Some(Candidate(result, changes));
  }

  /** No cap is lowered, and every one is at least the limit. */
  lemma RaisedCaps(limit: nat, v: Values, m: string)
    requires (forall k | k in v.caps :: Usable(v.caps[k])) && m in v.caps
    ensures var after := Raised(limit, v).caps[m].n;
            after >= limit && (v.caps[m].Number? ==> after >= v.caps[m].n)
            && (after == limit || Number(after) == v.caps[m])
  {
  }

  /** A second pass finds nothing to change. */
  lemma RaisedIsStable(limit: nat, v: Values)
    requires forall m | m in v.caps :: Usable(v.caps[m])
    ensures (forall m | m in Raised(limit, v).caps :: Usable(Raised(limit, v).caps[m]))
    ensures Changed(limit, Raised(limit, v)) == {} && Raised(limit, Raised(limit, v)) == Raised(limit, v)
  {
    var w := Raised(limit, v);
    assert forall m | m in w.caps :: w.caps[m] == Number(Chosen(limit, w.caps[m]));
    assert Raised(limit, w).caps == w.caps;
  }

  /** So the transformation accepts its own result, and gives back exactly that text without any edit. */
  method Twice(text: string, limit: int, parser: Parser, newline: string)
    returns (first: Option<Candidate>, second: Option<Candidate>)
    requires forall t: string :: Placed(parser.sites(t), t)
    ensures first.Some? ==> second == Some(Candidate(first.value.text, {}))
  {
    var order;
    first, order := CandidateConfig(text, limit, parser, newline);
    second := None;
    if first.Some? {
      ghost var v := parser.values(text).value;
      var once := first.value.text;
      RaisedIsStable(limit, v);
      RaisedIsEditable(text, once, limit, parser);
      second, order := CandidateConfig(once, limit, parser, newline);
      assert EditsFor({}, limit, Raised(limit, v), parser.sites(once), newline) == {};
      assert order == [] && Substitute(once, order, 0) == once;
    }
  }

  lemma RaisedIsEditable(text: string, once: string, limit: int, parser: Parser)
    requires Editable(text, limit, parser) && parser.values(once) == Some(Raised(limit, parser.values(text).value))
    ensures Editable(once, limit, parser)
  {
    var v := parser.values(text).value;
    RaisedIsStable(limit, v);
    assert Raised(limit, v).caps.Keys == v.caps.Keys;
    var m :| m in v.caps;
    assert m in Raised(limit, v).caps;
  }
}
