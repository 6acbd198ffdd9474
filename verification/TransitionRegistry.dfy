/** Owned transition observations: `TransitionRegistry` of llmsvc/actions.py. */
module TransitionRegistry {
  import opened Options

  datatype Entry = Entry(token: nat, transition: string)

  datatype State = State(entries: map<string, Entry>, lastToken: nat)

  datatype Op = Begin(model: string, transition: string) | End(model: string, token: nat)

  function Next(s: State, op: Op): State {
    match op
    case Begin(m, t) =>
      State(if m in s.entries then s.entries else s.entries[m := Entry(s.lastToken + 1, t)], s.lastToken + 1)
    case End(m, t) =>
      if m in s.entries && s.entries[m].token == t then s.(entries := s.entries - {m}) else s
  }

  function Run(s: State, ops: seq<Op>): State {
    if ops == [] then s else Next(Run(s, ops[..|ops| - 1]), ops[|ops| - 1])
  }

  /** No entry is owned by a token that was not issued. */
  predicate Issued(s: State) {
    forall m | m in s.entries :: s.entries[m].token <= s.lastToken
  }

  class Registry {
    var entries: map<string, Entry>
    var lastToken: nat

    function View(): State
      reads this
    {
      State(entries, lastToken)
    }

    constructor ()
      ensures View() == State(map[], 0)
    {
      entries, lastToken := map[], 0;
    }

    /** `begin`; without a transition it does nothing. */
    method Start(model: string, transition: Option<string>) returns (token: Option<nat>)
      modifies this
      ensures token == if transition.Some? then Some(old(lastToken) + 1) else None
      ensures View() == if transition.Some? then Next(old(View()), Begin(model, transition.value)) else old(View())
    {
      if transition.None? {
        return None;
      }
      lastToken := lastToken + 1;
      if model !in entries {
        entries := entries[model := Entry(lastToken, transition.value)];
      }
      return Some(lastToken);
    }

    /** `end`. */
    method Finish(model: string, token: Option<nat>)
      modifies this
      ensures View() == if token.Some? then Next(old(View()), End(model, token.value)) else old(View())
    {
      if token.Some? && model in entries && entries[model].token == token.value {
        entries := entries - {model};
      }
    }
  }

  /** Only the owner ends a transition: whatever others begin or end, the entry stays as it is. */
  lemma {:induction false} OwnerOnly(s: State, ops: seq<Op>, model: string)
    requires model in s.entries
    requires End(model, s.entries[model].token) !in ops
    ensures model in Run(s, ops).entries && Run(s, ops).entries[model] == s.entries[model]
  {
    if ops != [] {
      assert ops == ops[..|ops| - 1] + [ops[|ops| - 1]];
      OwnerOnly(s, ops[..|ops| - 1], model);
    }
  }

  lemma {:induction false} TokensAreIssued(s: State, ops: seq<Op>)
    requires Issued(s)
    ensures Issued(Run(s, ops)) && Run(s, ops).lastToken >= s.lastToken
  {
    if ops != [] {
      TokensAreIssued(s, ops[..|ops| - 1]);
    }
  }

  /**
   A token handed out while the model already has an owner never becomes an owner itself: it ends nothing,
   then or later.
   */
  lemma {:induction false} SecondTokenIsPowerless(s: State, transition: string, model: string, ops: seq<Op>, other: string)
    requires Issued(s) && model in s.entries
    ensures var token := s.lastToken + 1;
            var s' := Run(Next(s, Begin(model, transition)), ops);
            Next(s', End(other, token)) == s'
  {
    NeverOwned(Next(s, Begin(model, transition)), ops, s.lastToken + 1, other);
  }

  lemma {:induction false} NeverOwned(s: State, ops: seq<Op>, token: nat, model: string)
    requires token <= s.lastToken && forall m | m in s.entries :: s.entries[m].token != token
    ensures forall m | m in Run(s, ops).entries :: Run(s, ops).entries[m].token != token
    ensures Run(s, ops).lastToken >= s.lastToken
  {
    if ops != [] {
      NeverOwned(s, ops[..|ops| - 1], token, model);
    }
  }

  /** A model's own begin and end leave the registry as if nothing had happened to any model. */
  lemma OwnedRoundTrip(s: State, model: string, transition: string)
    requires model !in s.entries
    ensures var begun := Next(s, Begin(model, transition));
            begun.entries[model].token == begun.lastToken
            && Next(begun, End(model, begun.lastToken)).entries == s.entries
  {
  }
}
