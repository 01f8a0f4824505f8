/** The local certificate authority and its renewable certificate: one directory, several managers, crashes
    between the two files, and a clock that may jump (internal/localtls/localtls.go). */
module LocalTls {
  import opened Basics

  const LEAF_LIFETIME: int := 90 * DAY
  const RENEW_BEFORE: int := 30 * DAY
  const BACKDATE: int := 5 * MINUTE

  // Certificates hold whole seconds.
  datatype Ca = Ca(serial: nat, notBefore: int, notAfter: int)
  datatype Leaf = Leaf(issuer: nat, names: set<string>, notBefore: int, notAfter: int)
  datatype Identity = Identity(ca: Ca, leaf: Option<Leaf>)

  // identity.json with both key pairs, and ca.crt, the exported public half.
  datatype Disk = Disk(identity: Option<Identity>, exported: Option<Ca>)

  const BASE: set<string> := {"localhost", "*.localhost"}
  const ALWAYS: set<string> := {"manager.localhost", "primary.localhost"}

  function Earlier(a: int, b: int): int {
    if a <= b then a else b
  }

  function Later(a: int, b: int): int {
    if a <= b then b else a
  }

  predicate IsAddress(host: string) {
    host == "127.0.0.1" || host == "::1"
  }

  function Named(hosts: set<string>): set<string> {
    set h | h in hosts && !IsAddress(h)
  }

  function Whole(t: int): (r: int)
    ensures t - SECOND < r <= t
  {
    t - t % SECOND
  }

  /** A leaf as the manager issues it: under its CA, within the CA's time, and for the fixed names at least. */
  ghost predicate Issued(leaf: Leaf, ca: Ca) {
    leaf.issuer == ca.serial && leaf.notAfter < ca.notAfter && BASE + ALWAYS <= leaf.names
  }

  /** What the directory may hold if only managers write to it: the export never precedes the identity. */
  ghost predicate Sound(d: Disk) {
    && (d.identity.Some? ==> d.identity.value.leaf.Some? && Issued(d.identity.value.leaf.value, d.identity.value.ca))
    && (d.exported.Some? ==> d.identity.Some? && d.exported.value == d.identity.value.ca)
  }

  /** The authority, once there, stays, and the certificate's names only grow. */
  ghost predicate Evolves(d: Disk, n: Disk) {
    && (d.identity.Some? && d.identity.value.leaf.Some? ==>
          && n.identity.Some? && n.identity.value.ca == d.identity.value.ca && n.identity.value.leaf.Some?
          && d.identity.value.leaf.value.names <= n.identity.value.leaf.value.names)
    && (d.exported.Some? ==> n.exported == d.exported)
  }

  lemma EvolvesOn(a: Disk, b: Disk, c: Disk)
    requires Evolves(a, b) && Evolves(b, c)
    ensures Evolves(a, c)
  {}

  class Store {
    var disk: Disk
    var serials: nat
    var faults: seq<bool>
    // How many different authorities were ever written.
    ghost var authorities: nat

    ghost predicate Valid()
      reads this
    {
      Sound(disk) && authorities == (if disk.identity.Some? then 1 else 0)
    }

    constructor (faults: seq<bool>)
      ensures Valid() && disk == Disk(None, None) && authorities == 0
    {
      disk, serials, this.faults, authorities := Disk(None, None), 0, faults, 0;
    }

    method Fault() returns (fails: bool)
      modifies `faults
      ensures old(faults) == [] ==> !fails && faults == []
    {
      fails := faults != [] && faults[0];
      faults := if faults == [] then [] else faults[1..];
    }

    /** newIdentity: an authority for ten years, not yet written anywhere. */
    method NewCa(now: int, decade: int) returns (ca: Ca)
      modifies `serials
      ensures ca.notBefore == Whole(now - BACKDATE) && ca.notAfter == Whole(now + decade)
    {
      serials := serials + 1;
      ca := Ca(serials, Whole(now - BACKDATE), Whole(now + decade));
    }

    /** writeAtomic of the identity: all of it or nothing, also when the process dies. */
    method WriteIdentity(next: Identity) returns (ok: bool)
      requires Valid() && next.leaf.Some? && Issued(next.leaf.value, next.ca)
      requires disk.identity.Some? ==>
        next.ca == disk.identity.value.ca && disk.identity.value.leaf.value.names <= next.leaf.value.names
      requires disk.identity.None? ==> disk.exported.None?
      modifies `disk, `faults, `authorities
      ensures Valid() && Evolves(old(disk), disk) && old(authorities) <= authorities
      ensures old(faults) == [] ==> ok && faults == []
      ensures disk == if ok then old(disk).(identity := Some(next)) else old(disk)
    {
      var failed := Fault();
      ok := !failed;
      if ok {
        authorities := if disk.identity.Some? then authorities else authorities + 1;
        disk := disk.(identity := Some(next));
      }
    }

    method Export(ca: Ca) returns (ok: bool)
      requires Valid() && disk.identity.Some? && ca == disk.identity.value.ca
      modifies `disk, `faults
      ensures Valid() && Evolves(old(disk), disk)
      ensures old(faults) == [] ==> ok && faults == []
      ensures disk == if ok then old(disk).(exported := Some(ca)) else old(disk)
    {
      if disk.exported == Some(ca) { return true; }
      var failed := Fault();
      ok := !failed;
      if ok { disk := disk.(exported := Some(ca)); }
    }
  }

  class Manager {
    const store: Store
    // The length of ten calendar years from the day the authority is made.
    const decade: int
    var hosts: set<string>
    var leaf: Option<Leaf>
    var ca: Option<Ca>
    var nextCheck: int

    /** Whatever was loaded outlives the next check by thirty days less an hour. */
    ghost predicate Loaded()
      reads this
    {
      && ALWAYS <= hosts && leaf.Some? && ca.Some? && Issued(leaf.value, ca.value)
      && leaf.value.notAfter > nextCheck - HOUR + RENEW_BEFORE
    }

    /** The authority can issue a certificate at `now`, or one can be made. */
    ghost predicate Renewable(now: int)
      reads this, store
    {
      match store.disk.identity
      case None => store.disk.exported.None? && ca.None? && decade >= LEAF_LIFETIME + DAY
      case Some(state) =>
        state.ca.notBefore <= now && now + LEAF_LIFETIME < state.ca.notAfter && (ca.Some? ==> ca.value == state.ca)
    }

    /** Open; a manager that could not refresh is never used. */
    constructor (store: Store, more: set<string>, decade: int)
      ensures this.store == store && this.decade == decade && hosts == ALWAYS + more && leaf.None? && ca.None?
    {
      this.store, this.decade, hosts, leaf, ca, nextCheck := store, decade, ALWAYS + more, None, None, 0;
    }

    /** refresh, under the directory's lock. */
    method Refresh(now: int) returns (ok: bool)
      requires store.Valid() && ALWAYS <= hosts
      modifies `leaf, `ca, `nextCheck, store
      ensures store.Valid() && Evolves(old(store.disk), store.disk)
      ensures ok ==>
        Loaded() && nextCheck == now + HOUR && now + RENEW_BEFORE < leaf.value.notAfter && leaf.value.notBefore <= now
      ensures ok ==> store.disk == Disk(Some(Identity(ca.value, leaf)), ca) && Named(hosts) <= leaf.value.names
      ensures ok ==> (old(ca).Some? ==> ca == old(ca)) && ca.value.notBefore <= now < ca.value.notAfter
      ensures !ok ==> leaf == old(leaf) && ca == old(ca) && nextCheck == old(nextCheck)
      ensures old(store.faults) == [] && old(Renewable(now)) ==> ok
    {
      var busy := store.Fault();
      if busy { return false; }
      var state, changed;
      if store.disk.identity.None? {
        if store.disk.exported.Some? { return false; }
        var made := store.NewCa(now, decade);
        state, changed := Identity(made, None), true;
      } else {
        var damaged := store.Fault();
        if damaged { return false; }
        state, changed := store.disk.identity.value, false;
      }
      if now < state.ca.notBefore || now >= state.ca.notAfter { return false; }
      if ca.Some? && ca.value != state.ca { return false; }
      ok := Renew(now, state, changed);
    }

    /** The second half of refresh: renew if due, write, export, and only then remember. */
    method Renew(now: int, state: Identity, fresh0: bool) returns (ok: bool)
      requires store.Valid() && ALWAYS <= hosts
      requires state.ca.notBefore <= now < state.ca.notAfter && (ca.Some? ==> ca.value == state.ca)
      requires if fresh0 then state.leaf.None? && store.disk == Disk(None, None) else store.disk.identity == Some(state)
      modifies `leaf, `ca, `nextCheck, store`disk, store`faults, store`authorities
      ensures store.Valid() && Evolves(old(store.disk), store.disk)
      ensures ok ==>
        Loaded() && nextCheck == now + HOUR && now + RENEW_BEFORE < leaf.value.notAfter && leaf.value.notBefore <= now
      ensures ok ==> store.disk == Disk(Some(Identity(ca.value, leaf)), ca) && Named(hosts) <= leaf.value.names
      ensures ok ==> ca == Some(state.ca)
      ensures !ok ==> leaf == old(leaf) && ca == old(ca) && nextCheck == old(nextCheck)
      ensures old(store.faults) == [] && now + LEAF_LIFETIME < state.ca.notAfter ==> ok
    {
      var known := if state.leaf.Some? then state.leaf.value.names else {};
      var names := BASE + known + Named(hosts);
      var missing := !(Named(hosts) <= BASE + known);
      var next, changed := state, fresh0;
      if missing || state.leaf.None? || now + RENEW_BEFORE >= state.leaf.value.notAfter
        || now < state.leaf.value.notBefore {
        if now + LEAF_LIFETIME >= state.ca.notAfter { return false; }
        next := state.(leaf := Some(Leaf(state.ca.serial, names, Whole(now - BACKDATE), Whole(now + LEAF_LIFETIME))));
        changed := true;
      }
      if changed {
        var written := store.WriteIdentity(next);
        if !written { return false; }
      }
      ok := store.Export(next.ca);
      if ok { leaf, ca, nextCheck := next.leaf, Some(next.ca), now + HOUR; }
    }

    /** GetCertificate reads the clock, and a renewal reads it `again`. What is returned has more than thirty days
        less an hour left at the earlier of the two readings. */
    method GetCertificate(covered: bool, now: int, again: int) returns (served: Option<Leaf>)
      requires store.Valid() && Loaded()
      modifies `leaf, `ca, `nextCheck, store
      ensures store.Valid() && Loaded() && Evolves(old(store.disk), store.disk)
      ensures served.Some? ==> Earlier(now, again) + RENEW_BEFORE - HOUR < served.value.notAfter
      ensures served.Some? ==> served.value.notBefore <= Later(now, again) && now < served.value.notAfter
      ensures served.Some? ==> served == leaf && Issued(served.value, ca.value) && ca == old(ca)
      ensures !covered ==> served.None? && store.disk == old(store.disk)
      ensures old(store.faults) == [] && old(Renewable(again)) && ca.value.notBefore <= now <= again && covered ==>
        served.Some?
    {
      if !covered { return None; }
      if now >= nextCheck || now < leaf.value.notBefore {
        var ok := Refresh(again);
        if !ok { return None; }
      }
      if now < ca.value.notBefore || now >= ca.value.notAfter || now >= leaf.value.notAfter { return None; }
      served := leaf;
    }

    /** EnsureHosts: names are only ever added. */
    method EnsureHosts(names: set<string>, now: int) returns (ok: bool)
      requires store.Valid() && Loaded()
      modifies `hosts, `leaf, `ca, `nextCheck, store
      ensures store.Valid() && Loaded() && Evolves(old(store.disk), store.disk)
      ensures hosts == old(hosts) + names
      ensures ok ==> Named(hosts) <= leaf.value.names && store.disk.identity == Some(Identity(ca.value, leaf))
      ensures old(store.faults) == [] && old(Renewable(now)) ==> ok
    {
      hosts := hosts + names;
      ok := Refresh(now);
    }
  }

  datatype Command = Open(hosts: set<string>, now: int) | Get(who: nat, covered: bool, now: int,
    again: int) | Ensure(who: nat, names: set<string>, now: int)

  /** Any number of managers on one directory, opened, asked and dropped in any order, with writes that fail or
      are cut short by a crash, and with any clock: the authority is made at most once and never changes. */
  method Run(store: Store, commands: seq<Command>, decade: int)
    requires store.Valid()
    modifies store
    ensures store.Valid() && Evolves(old(store.disk), store.disk) && store.authorities <= 1
  {
    var managers: seq<Manager> := [];
    for i := 0 to |commands|
      invariant store.Valid() && Evolves(old(store.disk), store.disk)
      invariant forall m | m in managers :: fresh(m) && m.store == store && m.Loaded()
    {
      ghost var before := store.disk;
      match commands[i] {
        case Open(hosts, now) =>
          var m := new Manager(store, hosts, decade);
          var ok := m.Refresh(now);
          if ok { managers := managers + [m]; }
        case Get(who, covered, now, again) =>
          if who < |managers| {
            var m := managers[who];
            var _ := m.GetCertificate(covered, now, again);
          }
        case Ensure(who, names, now) =>
          if who < |managers| {
            var m := managers[who];
            var _ := m.EnsureHosts(names, now);
          }
      }
      EvolvesOn(old(store.disk), before, store.disk);
    }
  }
}
