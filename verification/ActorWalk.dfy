/** Attribution of processes: the walk in `NativeAdapter.inspect_native` of deploy/maintenance_native.py. */
module ActorWalk {

  datatype Pid = Pid(number: int)

  /** The control group as observed: members, their parents, the main process, model roots and pinned auxiliaries. */
  datatype Group = Group(members: set<Pid>, parent: map<Pid, Pid>, main: Pid, roots: set<Pid>, auxiliary: set<Pid>)

  /** Where a walk stops. */
  predicate Stop(g: Group, pid: Pid) {
    pid == g.main || pid in g.roots || pid in g.auxiliary
  }

  /** The walk can leave this process: it is a member whose parent is known, and no stop. */
  predicate Inner(g: Group, pid: Pid) {
    !Stop(g, pid) && pid in g.members && pid in g.parent
  }

  /** After n steps through inner members the parent chain meets a root or an auxiliary, and not the main process. */
  predicate Meets(g: Group, pid: Pid, n: nat)
    decreases n
  {
    if n == 0 then pid != g.main && Stop(g, pid) else Inner(g, pid) && Meets(g, g.parent[pid], n - 1)
  }

  ghost predicate Attributed(g: Group, pid: Pid) {
    exists n: nat :: Meets(g, pid, n)
  }

  lemma StepKeeps(g: Group, pid: Pid)
    requires Inner(g, pid)
    ensures Attributed(g, pid) <==> Attributed(g, g.parent[pid])
  {
    if Attributed(g, pid) {
      var n: nat :| Meets(g, pid, n);
      assert n > 0 && Meets(g, g.parent[pid], n - 1);
    }
    if Attributed(g, g.parent[pid]) {
      var n: nat :| Meets(g, g.parent[pid], n);
      assert Meets(g, pid, n + 1);
    }
  }

  /** A closed set of inner members never gets out. */
  lemma {:induction false} Trapped(g: Group, ring: set<Pid>, pid: Pid, n: nat)
    requires forall p | p in ring :: Inner(g, p) && g.parent[p] in ring
    requires pid in ring
    ensures !Meets(g, pid, n)
    decreases n
  {
    if n > 0 {
      Trapped(g, ring, g.parent[pid], n - 1);
    }
  }

  lemma StopsHere(g: Group, pid: Pid)
    requires !Inner(g, pid)
    ensures Attributed(g, pid) <==> Stop(g, pid) && pid != g.main
  {
    if Stop(g, pid) && pid != g.main {
      assert Meets(g, pid, 0);
    }
  }

  /** One member's walk; it ends because it never visits a member twice. */
  method Walk(g: Group, start: Pid) returns (ok: bool)
    requires start != g.main
    ensures ok <==> Attributed(g, start)
  {
    hide Attributed;
    var pid: Pid, seen: set<Pid> := start, {};
    while !Stop(g, pid)
      invariant seen <= g.members && (forall p | p in seen :: Inner(g, p) && (g.parent[p] in seen || g.parent[p] == pid))
      invariant Attributed(g, start) <==> Attributed(g, pid)
      decreases g.members - seen
    {
      if pid in seen {
        CycleRejected(g, seen, pid);
        return false;
      }
      if pid !in g.members || pid !in g.parent {
        StopsHere(g, pid);
        return false;
      }
      seen := seen + {pid};
      StepKeeps(g, pid);
      pid := g.parent[pid];
    }
    StopsHere(g, pid);
    return pid != g.main;
  }

  /** The whole inspection accepts exactly when every member but the main process is attributed. */
  method AllAttributed(g: Group) returns (ok: bool)
    ensures ok <==> forall p | p in g.members && p != g.main :: Attributed(g, p)
  {
    hide Attributed;
    var todo := g.members;
    while todo != {}
      invariant todo <= g.members
      invariant forall p | p in g.members - todo && p != g.main :: Attributed(g, p)
    {
      var p :| p in todo;
      if p != g.main {
        ok := Walk(g, p);
        if !ok {
          return;
        }
      }
      todo := todo - {p};
    }
    return true;
  }

  /** A process on a cycle of parents is rejected, whatever else is in the group. */
  lemma CycleRejected(g: Group, ring: set<Pid>, pid: Pid)
    requires pid in ring && forall p | p in ring :: Inner(g, p) && g.parent[p] in ring
    ensures !Attributed(g, pid)
  {
    forall n: nat ensures !Meets(g, pid, n) {
      Trapped(g, ring, pid, n);
    }
  }

  /** So is a child of the main process that is neither a root nor an auxiliary, and one whose parent escapes. */
  lemma EscapeRejected(g: Group, pid: Pid)
    requires Inner(g, pid)
    requires g.parent[pid] == g.main || (!Stop(g, g.parent[pid]) && g.parent[pid] !in g.members)
    ensures !Attributed(g, pid)
  {
    StepKeeps(g, pid);
    StopsHere(g, g.parent[pid]);
  }
}
