/**
 What the durable fault protocol of llmsvc/faults.py promises, said about the whole ledger of its
 effects: one entry for every durable write, request sent and round looked at, over all attempts and
 process lifetimes.
 */
module FaultProtocol {

  datatype Mark =
    | Claim(lease: string)        // the claim became durable
    | Stop(lease: string)         // the unit stop was sent
    | Release(lease: string)      // the account was released
    | Submit(lease: string)       // the unload was durably announced
    | Unload(lease: string)       // the proxy unload was sent
    | Acknowledge(lease: string)  // its acceptance became durable
    | Complete(lease: string)     // the claim was closed
    | Look(lease: string, proxyStopped: bool, absent: bool, at: real)  // one fresh round examined
    | Blank(lease: string)        // one round that could not be used

  type Ledger = seq<Mark>

  predicate IsLook(m: Mark) {
    m.Look? || m.Blank?
  }

  /** The mark that must already be in the ledger; a claim itself needs none. */
  function Need(m: Mark): Mark {
    match m
    case Claim(l) => Claim(l)
    case Stop(l) => Claim(l)
    case Release(l) => Claim(l)
    case Submit(l) => Release(l)
    case Unload(l) => Submit(l)
    case Acknowledge(l) => Unload(l)
    case Complete(l) => Acknowledge(l)
    case Look(l, _, _, _) => Claim(l)
    case Blank(l) => Claim(l)
  }

  /** The ledger ends with two adjacent rounds of absence, the second sampled later. */
  predicate TwoAbsentRounds(g: Ledger, lease: string, proxyStopped: bool) {
    && |g| >= 2
    && g[|g| - 1].Look? && g[|g| - 1].lease == lease && g[|g| - 1].proxyStopped == proxyStopped && g[|g| - 1].absent
    && g[|g| - 2].Look? && g[|g| - 2].lease == lease && g[|g| - 2].proxyStopped == proxyStopped && g[|g| - 2].absent
    && g[|g| - 2].at < g[|g| - 1].at
  }

  /** Whether a mark may be added to a ledger. */
  predicate Allowed(g: Ledger, m: Mark) {
    && (!m.Claim? ==> Need(m) in g)
    && (!IsLook(m) ==> m !in g)
    && (m.Release? ==> TwoAbsentRounds(g, m.lease, false))
    && (m.Complete? ==> TwoAbsentRounds(g, m.lease, true))
    && (m.Look? && m.proxyStopped ==> Acknowledge(m.lease) in g)
  }

  predicate Lawful(g: Ledger) {
    g == [] || (Lawful(g[..|g| - 1]) && Allowed(g[..|g| - 1], g[|g| - 1]))
  }

  lemma LawfulAdd(g: Ledger, m: Mark)
    requires Lawful(g) && Allowed(g, m)
    ensures Lawful(g + [m])
  {
    assert (g + [m])[..|g|] == g;
  }

  function Count(g: Ledger, m: Mark): nat {
    if g == [] then 0 else Count(g[..|g| - 1], m) + (if g[|g| - 1] == m then 1 else 0)
  }

  lemma {:induction false} CountZero(g: Ledger, m: Mark)
    requires m !in g
    ensures Count(g, m) == 0
  {
    if g != [] {
      CountZero(g[..|g| - 1], m);
    }
  }

  /** Every effect of a claim happens at most once, however often it is retried and wherever it crashes. */
  lemma {:induction false} AtMostOnce(g: Ledger, m: Mark)
    requires Lawful(g) && !IsLook(m)
    ensures Count(g, m) <= 1
  {
    if g != [] {
      AtMostOnce(g[..|g| - 1], m);
      if g[|g| - 1] == m {
        CountZero(g[..|g| - 1], m);
      }
    }
  }

  lemma {:induction false} AllowedAt(g: Ledger, i: nat)
    requires Lawful(g) && i < |g|
    ensures Allowed(g[..i], g[i])
  {
    if i < |g| - 1 {
      AllowedAt(g[..|g| - 1], i);
      assert g[..|g| - 1][..i] == g[..i];
    }
  }

  lemma Earlier(g: Ledger, i: nat) returns (j: nat)
    requires Lawful(g) && i < |g| && !g[i].Claim?
    ensures j < i && g[j] == Need(g[i])
  {
    AllowedAt(g, i);
    j :| j < i && g[..i][j] == Need(g[i]);
  }

  /** Nothing happens for a lease that was never claimed. */
  lemma {:induction false} Rooted(g: Ledger, i: nat)
    requires Lawful(g) && i < |g|
    ensures Claim(g[i].lease) in g
    decreases i
  {
    if !g[i].Claim? {
      var j := Earlier(g, i);
      Rooted(g, j);
    }
  }

  /** An effect has one place in the ledger. */
  lemma SamePlace(g: Ledger, i: nat, j: nat)
    requires Lawful(g) && i < |g| && j < |g| && g[i] == g[j] && !IsLook(g[i])
    ensures i == j
  {
    AllowedAt(g, i);
    AllowedAt(g, j);
  }

  /** A release follows its claim and two absent rounds. */
  lemma ReleaseHistory(g: Ledger, r: nat) returns (c: nat)
    requires Lawful(g) && r < |g| && g[r].Release?
    ensures g[..r] != [] && TwoAbsentRounds(g[..r], g[r].lease, false)
    ensures c < r - 2 && g[c] == Claim(g[r].lease)
  {
    AllowedAt(g, r);
    assert g[..r][r - 2] == g[r - 2];
    c := Earlier(g, r - 2);
  }

  /** Closing a claim follows two absent rounds with the proxy stopped, both seen after the acknowledgement. */
  lemma CompleteHistory(g: Ledger, f: nat, a: nat)
    requires Lawful(g) && f < |g| && g[f].Complete? && a < |g| && g[a] == Acknowledge(g[f].lease)
    ensures TwoAbsentRounds(g[..f], g[f].lease, true) && a < f - 2
  {
    AllowedAt(g, f);
    assert g[..f][f - 2] == g[f - 2];
    AllowedAt(g, f - 2);
    var b :| 0 <= b < f - 2 && g[..f - 2][b] == Acknowledge(g[f].lease);
    SamePlace(g, a, b);
  }

  /**
   A completed claim went through every step in order: claimed, released after two absent rounds,
   unload announced, sent and acknowledged, then two more absent rounds with the proxy stopped.
   */
  lemma CompletionHistory(g: Ledger, lease: string) returns (c: nat, r: nat, s: nat, u: nat, a: nat, f: nat)
    requires Lawful(g) && Complete(lease) in g
    ensures c < r - 2 && r < s < u < a < f - 2 && f < |g|
    ensures g[c] == Claim(lease) && g[r] == Release(lease) && g[s] == Submit(lease)
    ensures g[u] == Unload(lease) && g[a] == Acknowledge(lease) && g[f] == Complete(lease)
    ensures TwoAbsentRounds(g[..r], lease, false) && TwoAbsentRounds(g[..f], lease, true)
  {
    f :| f < |g| && g[f] == Complete(lease);
    a := Earlier(g, f);
    u := Earlier(g, a);
    s := Earlier(g, u);
    r := Earlier(g, s);
    c := ReleaseHistory(g, r);
    CompleteHistory(g, f, a);
  }
}
