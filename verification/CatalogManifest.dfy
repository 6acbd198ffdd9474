/**
 Preparing a catalog generation (llmsvc/catalog.py): which candidates `prepare` accepts, the manifest it
 describes, and what every sequence of generations keeps.
 */
module CatalogManifest {
  import opened Options

  /** A profile's `daemon_url`, as far as it is inspected. */
  datatype Origin = Origin(scheme: string, literalHost: bool, port: Option<int>, bare: bool, path: string)

  /** A trusted model profile; a value of another type than expected reads as None. */
  datatype Profile = Profile(
    port: Option<int>, origin: Origin, unit: Option<string>, util: Option<real>, budget: Option<real>,
    weights: Option<real>, isDefault: Option<bool>, rest: string)

  type Profiles = map<string, Profile>

  datatype Manifest = Manifest(sources: map<string, string>, active: Profiles, retained: Profiles)

  /** The registry's record of a temporary model. */
  datatype Temporary = Temporary(daemonPort: Option<int>, base: Option<string>)

  datatype Candidate = Candidate(models: set<string>, records: map<string, Temporary>)

  datatype Observed = Observed(name: string, unit: Option<string>, unitActive: Flag, state: string)

  /** What the durable store refers to. */
  datatype References = References(leases: set<string>, faults: set<string>, recoveries: set<string>, pins: set<string>)

  /** The scheduler as `prepare` sees it under the action lock. */
  datatype World = World(
    store: Option<References>, fenced: bool, epochCurrent: bool, timed: bool, errors: bool,
    sampledAt: Option<real>, models: seq<Observed>, now: real, maxAge: real, sources: map<string, string>)

  // ---- one profile ----

  predicate NameChar(c: char) {
    'A' <= c <= 'Z' || 'a' <= c <= 'z' || '0' <= c <= '9' || c == '.' || c == '_' || c == '-'
  }

  predicate SafeName(name: string) {
    && 1 <= |name| <= 128 && (forall c | c in name :: NameChar(c))
    && name[0] != '.' && name[0] != '_' && name[0] != '-'
    && !("vllm-" <= name)
  }

  function UnitOf(name: string): string {
    "vllm-" + name + ".service"
  }

  predicate Positive(value: Option<real>) {
    value.Some? && value.value > 0.0
  }

  predicate Direct(origin: Origin, port: int) {
    && origin.scheme in {"http", "https"} && origin.literalHost && origin.port == Some(port)
    && origin.bare && origin.path in {"", "/"}
  }

  predicate ProfileSound(name: string, p: Profile) {
    && p.port.Some? && 1 <= p.port.value <= 65535 && Direct(p.origin, p.port.value)
    && p.unit == Some(UnitOf(name))
    && Positive(p.util) && p.util.value <= 1.0 && Positive(p.budget) && Positive(p.weights) && p.isDefault.Some?
  }

  predicate TemporarySound(name: string, p: Profile, candidate: Candidate) {
    name in candidate.records ==>
      var t := candidate.records[name];
      t.daemonPort == p.port && t.base.Some? && t.base.value in candidate.models && t.base.value != name
      && p.isDefault == Some(false)
  }

  /** An existing profile gives up the default role and changes nothing else. */
  predicate Demotion(before: Profile, after: Profile) {
    before.isDefault == Some(true) && after.isDefault == Some(false) && before.(isDefault := Some(false)) == after
  }

  // ---- retiring a retained descriptor ----

  predicate Referenced(name: string, world: World) {
    world.store.None? || name in world.store.value.leases || name in world.store.value.faults
    || name in world.store.value.recoveries
  }

  function SeenAs(models: seq<Observed>, name: string): seq<Observed> {
    if models == [] then []
    else (if models[0].name == name then [models[0]] else []) + SeenAs(models[1..], name)
  }

  /** A fresh sample shows the unit of the profile stopped, exactly once. */
  predicate SeenStopped(name: string, p: Profile, world: World) {
    && world.timed && !world.errors && world.sampledAt.Some? && world.sampledAt.value >= 0.0
    && 0.0 <= world.now - world.sampledAt.value <= world.maxAge
    && var seen := SeenAs(world.models, name);
       |seen| == 1 && seen[0].unit == p.unit && seen[0].unitActive == No && seen[0].state == "stopped"
  }

  /** `_retained_required`: the descriptor must still be kept. */
  predicate Required(name: string, p: Profile, world: World, duringClaim: bool) {
    || (world.fenced && !duringClaim) || !world.epochCurrent
    || Referenced(name, world) || !SeenStopped(name, p, world)
  }

  // ---- the whole candidate ----

  function Described(m: Manifest): Profiles {
    m.retained + m.active
  }

  /** Every test of `prepare` that concerns one name. */
  predicate Accepted(name: string, p: Profile, current: Manifest, world: World, candidate: Candidate,
                     demotable: set<string>) {
    && SafeName(name) && TemporarySound(name, p, candidate) && ProfileSound(name, p)
    && (name !in current.active ==> p.isDefault == Some(false))
    && (name in Described(current) ==>
          Described(current)[name] == p || (name in demotable && Demotion(Described(current)[name], p)))
    && (name in current.retained ==> !Required(name, current.retained[name], world, false))
  }

  predicate Clash(p: Profile, q: Profile) {
    (p.port.Some? && p.port == q.port) || (p.unit.Some? && p.unit == q.unit)
  }

  predicate NoClashes(ps: Profiles) {
    forall a, b | a in ps && b in ps && a != b :: !Clash(ps[a], ps[b])
  }

  predicate Apart(ps: Profiles, qs: Profiles) {
    forall a, b | a in ps && b in qs :: !Clash(ps[a], qs[b])
  }

  /** A removal is allowed: the model is neither pinned nor a default. */
  predicate Removable(active: Profiles, after: Profiles, world: World) {
    forall name | name in active && name !in after ::
      && (world.store.Some? ==> name !in world.store.value.pins)
      && active[name].isDefault != Some(true)
  }

  /** What the next generation keeps observing: removed models, and retained ones not yet settled. */
  function Kept(current: Manifest, active: Profiles, world: World): Profiles {
    map name | name in Described(current) && name !in active
               && (name in current.active || Required(name, Described(current)[name], world, false))
      :: Described(current)[name]
  }

  predicate AllAccepted(active: Profiles, current: Manifest, world: World, candidate: Candidate, demotable: set<string>) {
    forall n | n in active :: Accepted(n, active[n], current, world, candidate, demotable)
  }

  predicate Preparable(current: Manifest, world: World, candidate: Candidate, active: Profiles, demotable: set<string>) {
    && active.Keys == candidate.models
    && AllAccepted(active, current, world, candidate, demotable)
    && NoClashes(active)
    && Apart(active, Kept(current, active, world))
    && Removable(current.active, active, world)
  }

  function Generation(current: Manifest, world: World, active: Profiles): Manifest {
    Manifest(world.sources, active, Kept(current, active, world))
  }

  predicate HasPort(ps: Profiles, x: int) {
    exists n :: n in ps && ps[n].port == Some(x)
  }

  predicate HasUnit(ps: Profiles, u: string) {
    exists n :: n in ps && ps[n].unit == Some(u)
  }

  /** The ports and units of the profiles seen so far. */
  ghost predicate Collects(active: Profiles, ports: set<int>, units: set<string>) {
    && (forall n | n in active :: active[n].port.Some? && active[n].unit.Some?)
    && (forall x :: x in ports <==> HasPort(active, x))
    && (forall u :: u in units <==> HasUnit(active, u))
  }

  predicate InSets(p: Profile, ports: set<int>, units: set<string>) {
    (p.port.Some? && p.port.value in ports) || (p.unit.Some? && p.unit.value in units)
  }

  /** The aliasing test on the two sets is a clash with one of the profiles. */
  lemma ClashBySets(p: Profile, active: Profiles, ports: set<int>, units: set<string>)
    requires Collects(active, ports, units)
    ensures InSets(p, ports, units) <==> exists n :: n in active && Clash(active[n], p)
  {
    if p.port.Some? && HasPort(active, p.port.value) {
      var n :| n in active && active[n].port == Some(p.port.value);
      assert Clash(active[n], p);
    }
    if p.unit.Some? && HasUnit(active, p.unit.value) {
      var n :| n in active && active[n].unit == Some(p.unit.value);
      assert Clash(active[n], p);
    }
    if n :| n in active && Clash(active[n], p) {
      if active[n].port.Some? && active[n].port == p.port {
        assert HasPort(active, p.port.value);
      } else {
        assert HasUnit(active, p.unit.value);
      }
    }
  }

  lemma CollectNone()
    ensures Collects(map[], {}, {})
  {
  }

  lemma CollectOne(active: Profiles, ports: set<int>, units: set<string>, name: string, p: Profile)
    requires Collects(active, ports, units) && name !in active && p.port.Some? && p.unit.Some?
    ensures Collects(active[name := p], ports + {p.port.value}, units + {p.unit.value})
  {
    var after := active[name := p];
    forall x ensures HasPort(after, x) <==> HasPort(active, x) || x == p.port.value {
      if HasPort(active, x) {
        var n :| n in active && active[n].port == Some(x);
        assert after[n].port == Some(x);
      }
      if x == p.port.value {
        assert after[name].port == Some(x);
      }
    }
    forall u ensures HasUnit(after, u) <==> HasUnit(active, u) || u == p.unit.value {
      if HasUnit(active, u) {
        var n :| n in active && active[n].unit == Some(u);
        assert after[n].unit == Some(u);
      }
      if u == p.unit.value {
        assert after[name].unit == Some(u);
      }
    }
  }

  lemma ClashesBySets(active: Profiles, retained: Profiles, ports: set<int>, units: set<string>)
    requires Collects(active, ports, units)
    ensures Apart(active, retained) <==> forall n | n in retained :: !InSets(retained[n], ports, units)
  {
    forall n | n in retained
      ensures InSets(retained[n], ports, units) <==> exists a :: a in active && Clash(active[a], retained[n])
    {
      ClashBySets(retained[n], active, ports, units);
    }
  }

  /** The values of the entries that are profiles at all. */
  function Proposed(profiles: map<string, Option<Profile>>): Profiles {
    map n | n in profiles && profiles[n].Some? :: profiles[n].value
  }

  /** The loop of `prepare` over the candidate's profiles. */
  method InspectAll(current: Manifest, world: World, candidate: Candidate, profiles: map<string, Option<Profile>>,
                    demotable: set<string>)
    returns (ok: bool, active: Profiles, ports: set<int>, units: set<string>, retained: Profiles)
    ensures ok == (Proposed(profiles).Keys == profiles.Keys && NoClashes(Proposed(profiles))
                   && AllAccepted(Proposed(profiles), current, world, candidate, demotable))
    ensures ok ==> active == Proposed(profiles) && Collects(active, ports, units)
                   && retained == current.retained - active.Keys
  {
    hide Accepted, Collects, Clash;
    ok, active, ports, units, retained := false, map[], {}, {}, current.retained;
    ghost var proposed := Proposed(profiles);
    var names := profiles.Keys;
    CollectNone();
    while names != {}
      invariant names <= profiles.Keys && active.Keys == profiles.Keys - names && active.Keys <= proposed.Keys
      invariant forall n | n in active :: active[n] == proposed[n]
      invariant AllAccepted(active, current, world, candidate, demotable)
      invariant Collects(active, ports, units) && NoClashes(active)
      invariant retained == current.retained - active.Keys
    {
      var name :| name in names;
      if profiles[name].None? {
        assert name !in proposed;
        return;
      }
      var p := profiles[name].value;
      var accepted := Inspect(name, p, current, world, candidate, demotable);
      if !accepted {
        assert proposed[name] == p;
        return;
      }
      AcceptedIsSound(name, p, current, world, candidate, demotable);
      ClashBySets(p, active, ports, units);
      if p.port.value in ports || p.unit.value in units {
        var other :| other in active && Clash(active[other], p);
        assert proposed[name] == p && proposed[other] == active[other];
        return;
      }
      CollectOne(active, ports, units, name, p);
      ExtendClashes(active, name, p);
      ports, units := ports + {p.port.value}, units + {p.unit.value};
      active, retained := active[name := p], retained - {name};
      names := names - {name};
    }
    assert active == proposed;
    ok := true;
  }

  lemma ExtendClashes(active: Profiles, name: string, p: Profile)
    requires NoClashes(active) && name !in active && !exists n :: n in active && Clash(active[n], p)
    ensures NoClashes(active[name := p])
  {
  }

  /** `prepare`: the candidate is described as the next generation, or refused. */
  method Prepare(current: Manifest, world: World, candidate: Candidate, profiles: map<string, Option<Profile>>,
                 demotable: set<string>) returns (next: Option<Manifest>)
    requires current.active.Keys !! current.retained.Keys
    ensures next == if Proposed(profiles).Keys == profiles.Keys
                       && Preparable(current, world, candidate, Proposed(profiles), demotable)
                    then Some(Generation(current, world, Proposed(profiles))) else None
  {
    hide Accepted, Required, Collects, NoClashes, InSets, Removable;
    if profiles.Keys != candidate.models {
      return None;
    }
    var ok, active, ports, units, retained := InspectAll(current, world, candidate, profiles, demotable);
    if !ok {
      return None;
    }
    retained := KeepDescriptions(current, world, active, retained);
    ClashesBySets(active, retained, ports, units);
    if exists n :: n in retained && InSets(retained[n], ports, units) {
      return None;
    }
    ok := CheckMembership(current.active, active, world);
    if !ok {
      return None;
    }
    next := Some(Manifest(world.sources, active, retained));
  }

  lemma AcceptedIsSound(name: string, p: Profile, current: Manifest, world: World, candidate: Candidate,
                        demotable: set<string>)
    requires Accepted(name, p, current, world, candidate, demotable)
    ensures ProfileSound(name, p) && p.port.Some? && p.unit.Some?
  {
  }

  /** The tests of one name, in their order. */
  method Inspect(name: string, p: Profile, current: Manifest, world: World, candidate: Candidate,
                 demotable: set<string>) returns (ok: bool)
    ensures ok == Accepted(name, p, current, world, candidate, demotable)
  {
    hide Required, SafeName, Direct, Demotion;
    if !SafeName(name) {
      return false;
    }
    if name in candidate.records {
      var t := candidate.records[name];
      if t.daemonPort != p.port || t.base.None? || t.base.value !in candidate.models || t.base.value == name
         || p.isDefault != Some(false) {
        return false;
      }
    }
    if p.port.None? || !(1 <= p.port.value <= 65535) || !Direct(p.origin, p.port.value) {
      return false;
    }
    if p.unit != Some(UnitOf(name)) {
      return false;
    }
    if !Positive(p.util) || p.util.value > 1.0 || !Positive(p.budget) || !Positive(p.weights) || p.isDefault.None? {
      return false;
    }
    if name !in current.active && p.isDefault.value {
      return false;
    }
    var known := Described(current);
    if name in known && known[name] != p && !(name in demotable && Demotion(known[name], p)) {
      return false;
    }
    return !(name in current.retained && Required(name, current.retained[name], world, false));
  }

  /** The loop over the old descriptions that the candidate no longer activates. */
  method KeepDescriptions(current: Manifest, world: World, active: Profiles, start: Profiles) returns (retained: Profiles)
    requires current.active.Keys !! current.retained.Keys
    requires start == current.retained - active.Keys
    ensures retained == Kept(current, active, world)
  {
    hide Required;
    retained := start;
    var known := Described(current);
    ghost var kept := Kept(current, active, world);
    var names := known.Keys;
    while names != {}
      invariant names <= known.Keys
      invariant forall n | n in names :: n in retained <==> n in start
      invariant forall n | n !in names :: n in retained <==> n in kept
      invariant forall n | n in retained :: n in known && retained[n] == known[n]
    {
      var name :| name in names;
      if name !in active {
        if name in current.active || Required(name, known[name], world, false) {
          retained := retained[name := known[name]];
        } else {
          retained := retained - {name};
        }
      }
      names := names - {name};
    }
    assert retained.Keys == kept.Keys;
  }

  /** `_check_membership`. */
  method CheckMembership(active: Profiles, after: Profiles, world: World) returns (ok: bool)
    ensures ok == Removable(active, after, world)
  {
    var removed := active.Keys - after.Keys;
    var pins := if world.store.Some? then world.store.value.pins else {};
    if exists n :: n in removed && n in pins {
      return false;
    }
    return !exists n :: n in removed && active[n].isDefault == Some(true);
  }

  // ---- what generations keep ----

  /** No name, port or unit stands for two resources. */
  predicate Distinct(m: Manifest) {
    m.active.Keys !! m.retained.Keys && NoClashes(Described(m))
  }

  /** What one generation may change: a described model keeps its endpoint, its unit and its role. */
  predicate Continues(m: Manifest, m': Manifest) {
    && (forall n | n in Described(m) && n in Described(m') :: SameResource(Described(m)[n], Described(m')[n]))
    && (forall n | n in m.active && n !in m'.active :: m.active[n].isDefault != Some(true) && n in m'.retained)
    && (forall n | n in m'.retained :: n in Described(m) && Described(m)[n] == m'.retained[n])
  }

  predicate SameResource(p: Profile, q: Profile) {
    p.port == q.port && p.unit == q.unit && (q.isDefault == Some(true) ==> p == q)
  }

  /** A generation made from distinct profiles is distinct, whatever the candidate. */
  lemma GenerationIsDistinct(current: Manifest, world: World, candidate: Candidate, active: Profiles,
                             demotable: set<string>)
    requires Distinct(current) && Preparable(current, world, candidate, active, demotable)
    ensures Distinct(Generation(current, world, active))
  {
    hide Accepted, Required;
    var next := Generation(current, world, active);
    var described := Described(next);
    forall a, b | a in described && b in described && a != b
      ensures !Clash(described[a], described[b])
    {
      if a !in active && b !in active {
        assert described[a] == Described(current)[a] && described[b] == Described(current)[b];
      }
    }
  }

  lemma GenerationContinues(current: Manifest, world: World, candidate: Candidate, active: Profiles,
                            demotable: set<string>)
    requires current.active.Keys !! current.retained.Keys
    requires Preparable(current, world, candidate, active, demotable)
    ensures Continues(current, Generation(current, world, active))
  {
    hide Required, SafeName, ProfileSound, TemporarySound, NoClashes, Apart;
    var next := Generation(current, world, active);
    forall n | n in Described(current) && n in Described(next)
      ensures SameResource(Described(current)[n], Described(next)[n])
    {
      if n in active {
        assert Accepted(n, active[n], current, world, candidate, demotable);
      }
    }
  }

  /**
   A description disappears only in a generation after one that merely retained it, and only when a fresh
   sample shows its unit stopped and no lease, fault or recovery refers to it.
   */
  lemma DroppedMeans(current: Manifest, world: World, candidate: Candidate, active: Profiles, demotable: set<string>,
                     name: string)
    requires Preparable(current, world, candidate, active, demotable)
    ensures name in Described(current) && name !in Described(Generation(current, world, active))
            <==> && name in current.retained && name !in current.active && name !in active
                 && !Required(name, current.retained[name], world, false)
  {
    hide Required, Accepted, NoClashes, Apart, Removable;
  }

  /** A run of generations, each prepared from its predecessor. */
  ghost predicate Prepared(current: Manifest, next: Manifest) {
    exists world, candidate, demotable ::
      PreparedIn(current, next, world, candidate, demotable)
  }

  predicate PreparedIn(current: Manifest, next: Manifest, world: World, candidate: Candidate, demotable: set<string>) {
    Preparable(current, world, candidate, next.active, demotable) && next == Generation(current, world, next.active)
  }

  ghost predicate Lineage(generations: seq<Manifest>) {
    forall i | 0 < i < |generations| :: Succeeds(generations, i)
  }

  ghost predicate Succeeds(generations: seq<Manifest>, i: nat)
    requires 0 < i < |generations|
  {
    Prepared(generations[i - 1], generations[i])
  }

  /** The name is described, actively or not, in every generation from i to j. */
  predicate DescribedThroughout(generations: seq<Manifest>, i: nat, j: nat, name: string) {
    j < |generations| && forall k | i <= k <= j :: name in Described(generations[k])
  }

  lemma PreparedKeeps(current: Manifest, next: Manifest)
    requires Distinct(current) && Prepared(current, next)
    ensures Distinct(next) && Continues(current, next)
  {
    hide Preparable, Generation, Distinct, Continues;
    var world, candidate, demotable :| PreparedIn(current, next, world, candidate, demotable);
    GenerationIsDistinct(current, world, candidate, next.active, demotable);
    assert current.active.Keys !! current.retained.Keys by { DistinctIsDisjoint(current); }
    GenerationContinues(current, world, candidate, next.active, demotable);
  }

  lemma DistinctIsDisjoint(m: Manifest)
    requires Distinct(m)
    ensures m.active.Keys !! m.retained.Keys
  {
  }

  /** Starting from distinct profiles, every later generation is distinct. */
  lemma {:induction false} AlwaysDistinct(generations: seq<Manifest>, k: nat)
    requires Lineage(generations) && k < |generations| && Distinct(generations[0])
    ensures Distinct(generations[k])
  {
    hide Distinct, Prepared, Continues;
    if k > 0 {
      AlwaysDistinct(generations, k - 1);
      assert Succeeds(generations, k);
      PreparedKeeps(generations[k - 1], generations[k]);
    }
  }

  lemma ResourceStep(m: Manifest, m': Manifest, name: string)
    requires Distinct(m) && Prepared(m, m') && name in Described(m) && name in Described(m')
    ensures SameResource(Described(m)[name], Described(m')[name])
  {
    hide Distinct, Prepared;
    PreparedKeeps(m, m');
  }

  /** While a name stays described, its port and unit never change. */
  lemma {:induction false} ResourceIsStable(generations: seq<Manifest>, i: nat, j: nat, name: string)
    requires Lineage(generations) && i <= j && DescribedThroughout(generations, i, j, name)
    requires Distinct(generations[0])
    ensures Described(generations[i])[name].port == Described(generations[j])[name].port
    ensures Described(generations[i])[name].unit == Described(generations[j])[name].unit
    decreases j
  {
    hide Distinct, Prepared, Described;
    if i < j {
      ResourceIsStable(generations, i, j - 1, name);
      AlwaysDistinct(generations, j - 1);
      assert Succeeds(generations, j);
      ResourceStep(generations[j - 1], generations[j], name);
    }
  }

  /** A model that is a default in a later generation was one in every generation before it. */
  lemma {:induction false} DefaultsAreOld(generations: seq<Manifest>, i: nat, j: nat, name: string)
    requires Lineage(generations) && i <= j < |generations| && Distinct(generations[0])
    requires name in generations[j].active && generations[j].active[name].isDefault == Some(true)
    ensures name in generations[i].active && generations[i].active[name] == generations[j].active[name]
    decreases j
  {
    hide Distinct, Generation, SafeName, ProfileSound, TemporarySound, Required, NoClashes, Apart, Removable;
    if i < j {
      assert Succeeds(generations, j);
      var world, candidate, demotable :| PreparedIn(generations[j - 1], generations[j], world, candidate, demotable);
      assert Accepted(name, generations[j].active[name], generations[j - 1], world, candidate, demotable);
      AlwaysDistinct(generations, j - 1);
      DistinctIsDisjoint(generations[j - 1]);
      DefaultsAreOld(generations, i, j - 1, name);
    }
  }

  /** The name is dropped between two generations, being retained, unreferenced and seen stopped. */
  ghost predicate Retired(m: Manifest, m': Manifest, name: string) {
    && name in m.retained && name !in m.active && name !in Described(m')
    && exists world, candidate, demotable ::
         PreparedIn(m, m', world, candidate, demotable) && !Required(name, m.retained[name], world, false)
  }

  lemma DropStep(m: Manifest, m': Manifest, name: string)
    requires Prepared(m, m') && name in Described(m) && name !in Described(m')
    ensures Retired(m, m', name)
  {
    hide Required, Preparable;
    var world, candidate, demotable :| PreparedIn(m, m', world, candidate, demotable);
    DroppedMeans(m, world, candidate, m'.active, demotable, name);
  }

  /** An active model leaves the catalog only through a later generation that retained it and saw it settled. */
  lemma {:induction false} LeavesThroughRetained(generations: seq<Manifest>, i: nat, k: nat, name: string)
    returns (j: nat)
    requires Lineage(generations) && i < k < |generations|
    requires name in generations[i].active && name !in Described(generations[k])
    ensures i < j < k && Retired(generations[j], generations[j + 1], name)
    decreases k
  {
    hide Prepared;
    if name in Described(generations[k - 1]) {
      assert Succeeds(generations, k);
      DropStep(generations[k - 1], generations[k], name);
      j := k - 1;
    } else {
      j := LeavesThroughRetained(generations, i, k - 1, name);
    }
  }
}
