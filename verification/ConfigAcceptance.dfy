/** Acceptance of a configuration: every instance is normalised on its own, and a loop over an unordered map
    looks for collisions (internal/appconfig/config.go, Validate). */
module ConfigAcceptance {
  import opened Basics

  type Id = string
  type Path = string

  // "", "shared", "independent", or anything else.
  datatype Mode = Inherit | SharedProgram | Independent | OtherMode

  // A listener address after net.SplitHostPort and net.LookupPort.
  datatype Addr = NoAddr | BadAddr | Addr(host: string, port: int, loopback: bool)

  // A public origin after url.Parse; `local` says whether its host names this computer.
  datatype Origin = NoOrigin | BadOrigin | Origin(scheme: string, host: string, port: Option<int>, local: bool)

  datatype Instance = Instance(useDefaults: bool, mode: Mode, dir: Path, configFile: string, stateDir: Path,
                               port: int, bundled: Path, url: Origin, proxyPort: int, listen: Addr, public: Origin,
                                 token: string)

  // The settings around the instances. A shared listener is NoAddr or a valid address here.
  datatype Global = Global(managerPort: int, managerHost: string, shared: Addr, terminated: bool, local: bool,
    certificates: bool,
                           publicDomain: bool, baseDir: Path, sharedDir: Path, rootDir: Path, bundled: Path,
                             listenHost: string, listenLoopback: bool)

  // The file system and the text rules, which stay abstract.
  datatype World = World(canonical: Path -> Path, installed: Path -> bool, expand: (Id, int) -> Origin,
                         idFits: Id -> bool, isLabel: Id -> bool, isYamlInRoot: string -> bool, secret: Id -> string)

  const DEFAULT_PORT: int := 5680

  predicate InRange(port: int) {
    1 <= port <= 65535
  }

  // ---------- one instance on its own ----------

  /** configureLocalInstance */
  function Localized(g: Global, w: World, id: Id, x: Instance): Instance {
    if !g.local then x
    else x.(public := if !x.useDefaults
      && (x.public.NoOrigin? || (x.public.Origin? && x.public.scheme == "http" && x.public.local))
                      then w.expand(id, 0) else x.public,
            token := if x.token == "" then w.secret(id) else x.token)
  }

  /** A shared listener leaves no instance a listener of its own. */
  function Unlistened(g: Global, x: Instance): Instance {
    if g.shared.Addr? then x.(proxyPort := 0, listen := NoAddr) else x
  }

  function InstanceFile(id: Id): string {
    "root/conf-" + id + ".yaml"
  }

  function InstanceState(g: Global, id: Id): Path {
    g.rootDir + "/.instances/" + id
  }

  /** The older installations are kept where they are. */
  predicate IsLegacy(w: World, x: Instance, dir: Path) {
    x.configFile == DEFAULT_CONF || (x.configFile == "" && w.installed(dir))
  }

  function Placed(g: Global, w: World, id: Id, x: Instance): Instance {
    var dir := if x.dir == "" then g.rootDir + "/" + id else x.dir;
    if x.mode == SharedProgram then x.(bundled := g.bundled)
    else if x.mode != Inherit then x
    else if IsLegacy(w, x, dir) then x.(dir := dir, configFile := DEFAULT_CONF, stateDir := dir, bundled := g.bundled)
    else x.(dir := g.sharedDir, configFile := InstanceFile(id), stateDir := InstanceState(g, id), bundled := g.bundled)
  }

  /** applyGlobalDefaults, or the listener port of an instance with settings of its own. */
  function Defaulted(g: Global, w: World, id: Id, x: Instance): Option<Instance> {
    if !x.useDefaults then
      Some(if x.proxyPort == 0 && x.listen.Addr? then x.(proxyPort := x.listen.port) else x)
    else if !g.shared.Addr? && !InRange(x.proxyPort) then None
    else
      var p := Placed(g, w, id, x.(port := if x.port == 0 then DEFAULT_PORT else x.port));
      var q := p.(url := Origin("https", "localhost", Some(p.port), true), public := w.expand(id, p.proxyPort));
      Some(if g.shared.Addr? then q else q.(listen := Addr(g.listenHost, p.proxyPort, g.listenLoopback)))
  }

  /** applyInstallationMode */
  function Housed(g: Global, w: World, id: Id, x: Instance): Option<Instance> {
    match x.mode
    case Inherit => Some(x)
    case SharedProgram =>
      var moved := x.dir != "" && w.canonical(x.dir) != w.canonical(g.sharedDir);
      var file, state := if moved then "" else x.configFile, if moved then "" else x.stateDir;
      Some(x.(dir := g.sharedDir, bundled := g.bundled, configFile := if file == "" then InstanceFile(id) else file,
              stateDir := if state == "" then InstanceState(g, id) else state))
    case Independent => Some(if x.dir == "" then x.(dir := g.rootDir + "/" + id) else x)
    case OtherMode => None
  }

  /** NormalizeAndValidate of the gateway's own settings. */
  function Grounded(g: Global, w: World, x: Instance): Option<Instance> {
    var dir := if x.dir == "" then g.baseDir + "/gateway" else x.dir;
    var file := if x.configFile == "" then DEFAULT_CONF else x.configFile;
    var state := if x.stateDir != "" then x.stateDir else if file == DEFAULT_CONF then dir
      else dir + ".instances/" + file;
    var port := if x.port == 0 then DEFAULT_PORT else x.port;
    var url := if x.url.NoOrigin? then Origin("https", "127.0.0.1", Some(port), true) else x.url;
    if w.isYamlInRoot(file) && InRange(port) && url.Origin? && url.scheme in {"http", "https"} && url.local
      && url.port == Some(port)
    then Some(x.(dir := dir, configFile := file, stateDir := state, port := port, url := url))
    else None
  }

  function Normalized(g: Global, w: World, id: Id, x: Instance): Option<Instance> {
    match Defaulted(g, w, id, Unlistened(g, Localized(g, w, id, x)))
    case None => None
    case Some(d) =>
      match Housed(g, w, id, d)
      case None => None
      case Some(h) => Grounded(g, w, h)
  }

  // ---------- what collides ----------

  // What the loop compares between instances, once one is acceptable on its own.
  datatype Facts = Facts(instance: Instance, port: int, program: Path, state: Path, config: (Path, string),
                         proxyPort: Option<int>, host: Option<string>, needsTls: bool)

  function OriginPort(o: Origin): int {
    if o.NoOrigin? || o.BadOrigin? then 80
    else if o.port.Some? then o.port.value else if o.scheme == "https" then 443 else 80
  }

  /** The public origin of an instance that has a proxy, with the default of a loopback listener. */
  function PublicOrigin(g: Global, x: Instance, at: Addr): Origin {
    if x.public.NoOrigin? && !g.shared.Addr? && at.Addr?
      && at.loopback then Origin("http", at.host, Some(at.port), true) else x.public
  }

  predicate ProxyFits(g: Global, x: Instance, at: Addr, public: Origin) {
    && at.Addr? && InRange(at.port) && public.Origin? && public.scheme in {"http", "https"}
    && (g.local ==> public.scheme == "https" && public.local)
    && (!at.loopback ==> x.token != "" && public.scheme == "https")
    && (g.shared.Addr? ==> public.scheme == "https" && (g.terminated || OriginPort(public) == g.shared.port))
  }

  /** One turn of the loop, as far as it concerns one instance alone. */
  function Examine(g: Global, w: World, id: Id, x: Instance): Option<Facts> {
    if !w.idFits(id) || (g.publicDomain && x.useDefaults && !w.isLabel(id)) then None
    else match Normalized(g, w, id, x)
      case None => None
      case Some(n) =>
        var program := w.canonical(n.dir);
        if n.mode == Independent && program == w.canonical(g.sharedDir) then None
        else
          var facts := Facts(n, n.port, program, w.canonical(n.stateDir), (program, n.configFile), None, None, false);
          if !g.shared.Addr? && n.listen.NoAddr? then (if n.public.NoOrigin? then Some(facts) else None)
          else
            var at := if g.shared.Addr? then g.shared else n.listen;
            var public := PublicOrigin(g, n, at);
            if !ProxyFits(g, n, at, public) then None
            else Some(facts.(instance := n.(public := public),
                             proxyPort := if g.shared.Addr? then None else Some(at.port),
                             host := if g.shared.Addr? then Some(public.host) else None,
                             needsTls := public.scheme == "https" && (!g.shared.Addr? || !g.terminated)))
  }

  // ---------- the declarative reading ----------

  function PortOf(f: Facts): Option<int> { Some(f.port) }
  function StateOf(f: Facts): Option<Path> { Some(f.state) }
  function ConfigOf(f: Facts): Option<(Path, string)> { Some(f.config) }
  function ProxyPortOf(f: Facts): Option<int> { f.proxyPort }
  function HostOf(f: Facts): Option<string> { f.host }

  ghost predicate Distinct<K>(all: map<Id, Facts>, key: Facts -> Option<K>) {
    forall a, b | a in all && b in all && a != b && key(all[a]).Some? :: key(all[a]) != key(all[b])
  }

  ghost predicate NoSharedIndependent(all: map<Id, Facts>) {
    forall a, b | a in all && b in all && a != b && all[a].program == all[b].program ::
      all[a].instance.mode != Independent
  }

  ghost predicate Has<K>(all: map<Id, Facts>, key: Facts -> Option<K>, k: K) {
    exists a :: a in all && key(all[a]) == Some(k)
  }

  ghost predicate NeedsTls(all: map<Id, Facts>) {
    exists a :: a in all && all[a].needsTls
  }

  /** No proxy listens on a gateway's port or the manager's; a shared listener's port and the manager's host are
      its own. */
  ghost predicate Apart(g: Global, all: map<Id, Facts>) {
    && (forall port :: Has(all, ProxyPortOf, port) ==> !Has(all, PortOf, port))
    && !Has(all, ProxyPortOf, g.managerPort)
    && (g.shared.Addr? ==> !Has(all, PortOf, g.shared.port) && !Has(all, HostOf, g.managerHost))
    && (NeedsTls(all) ==> g.certificates || g.local)
  }

  /** What it takes to be accepted, without any order. */
  ghost predicate Compatible(g: Global, all: map<Id, Facts>) {
    && Distinct(all, PortOf) && Distinct(all, StateOf) && Distinct(all, ConfigOf)
    && Distinct(all, ProxyPortOf) && Distinct(all, HostOf) && NoSharedIndependent(all) && Apart(g, all)
  }

  ghost predicate Acceptable(g: Global, w: World, gateways: map<Id, Instance>) {
    && (forall id | id in gateways :: Examine(g, w, id, gateways[id]).Some?)
    && Compatible(g, FactsOf(g, w, gateways, gateways.Keys))
  }

  ghost function FactsOf(g: Global, w: World, gateways: map<Id, Instance>, done: set<Id>): map<Id, Facts> {
    map id | id in done && id in gateways && Examine(g, w, id, gateways[id]).Some? ::
      Examine(g, w, id, gateways[id]).value
  }

  // ---------- collision maps ----------

  /** A collision map holds exactly the keys of the instances seen so far, each under one of its owners. */
  ghost predicate Indexes<K>(m: map<K, Id>, all: map<Id, Facts>, key: Facts -> Option<K>) {
    && (forall a | a in all && key(all[a]).Some? :: key(all[a]).value in m)
    && (forall k | k in m :: m[k] in all && key(all[m[k]]) == Some(k))
  }

  function Added<K>(m: map<K, Id>, key: Option<K>, id: Id): map<K, Id> {
    if key.Some? then m[key.value := id] else m
  }

  lemma IndexGrows<K>(m: map<K, Id>, all: map<Id, Facts>, key: Facts -> Option<K>, id: Id, f: Facts)
    requires Indexes(m, all, key) && Distinct(all, key) && id !in all
    ensures key(f).Some? && key(f).value in m ==> !Distinct(all[id := f], key)
    ensures !(key(f).Some? && key(f).value in m) ==>
      Distinct(all[id := f], key) && Indexes(Added(m, key(f), id), all[id := f], key)
  {
    if key(f).Some? && key(f).value in m {
      var more, other := all[id := f], m[key(f).value];
      assert more[other] == all[other] && more[id] == f && other != id;
    }
  }

  lemma DistinctShrinks<K>(some: map<Id, Facts>, all: map<Id, Facts>, key: Facts -> Option<K>)
    requires Distinct(all, key) && some.Keys <= all.Keys && forall id | id in some :: some[id] == all[id]
    ensures Distinct(some, key)
  {}

  /** The five collision maps of the loop, and the programs by their latest user. */
  datatype Seen = Seen(ports: map<int, Id>, states: map<Path, Id>, configs: map<(Path, string), Id>,
                       proxyPorts: map<int, Id>, hosts: map<string, Id>, programs: map<Path, Id>)

  ghost predicate Knows(s: Seen, all: map<Id, Facts>) {
    && Indexes(s.ports, all, PortOf) && Indexes(s.states, all, StateOf) && Indexes(s.configs, all, ConfigOf)
    && Indexes(s.proxyPorts, all, ProxyPortOf) && Indexes(s.hosts, all, HostOf)
    && KnowsPrograms(s.programs, all)
  }

  ghost predicate KnowsPrograms(programs: map<Path, Id>, all: map<Id, Facts>) {
    && (forall a | a in all :: all[a].program in programs)
    && (forall p | p in programs :: programs[p] in all && all[programs[p]].program == p)
  }

  ghost predicate Unequal(all: map<Id, Facts>) {
    && Distinct(all, PortOf) && Distinct(all, StateOf) && Distinct(all, ConfigOf)
    && Distinct(all, ProxyPortOf) && Distinct(all, HostOf) && NoSharedIndependent(all)
  }

  /** The collision checks of one turn. */
  predicate Collides(s: Seen, f: Facts, instances: map<Id, Instance>) {
    || (f.program in s.programs
      && (f.instance.mode == Independent
      || (s.programs[f.program] in instances && instances[s.programs[f.program]].mode == Independent)))
    || f.port in s.ports || f.state in s.states || f.config in s.configs
    || (f.proxyPort.Some? && f.proxyPort.value in s.proxyPorts) || (f.host.Some? && f.host.value in s.hosts)
  }

  function Noted(s: Seen, id: Id, f: Facts): Seen {
    Seen(s.ports[f.port := id], s.states[f.state := id], s.configs[f.config := id],
         Added(s.proxyPorts, f.proxyPort, id), Added(s.hosts, f.host, id), s.programs[f.program := id])
  }

  /** Only the latest user of a program is compared, and that is enough. */
  lemma ProgramsGrow(programs: map<Path, Id>, all: map<Id, Facts>, id: Id, f: Facts)
    requires KnowsPrograms(programs, all) && NoSharedIndependent(all) && id !in all
    ensures KnowsPrograms(programs[f.program := id], all[id := f])
      && (f.program in programs ==> programs[f.program] in all)
    ensures var bad := f.program in programs
      && (f.instance.mode == Independent || all[programs[f.program]].instance.mode == Independent);
      bad <==> !NoSharedIndependent(all[id := f])
  {
    var more := all[id := f];
    if f.program in programs {
      var other := programs[f.program];
      assert more[other] == all[other] && more[id] == f && other != id;
      if f.instance.mode != Independent && all[other].instance.mode != Independent {
        forall a, b | a in more && b in more && a != b
          && more[a].program == more[b].program ensures more[a].instance.mode != Independent {
          if a != id && b != id { assert all[a].program == all[b].program; }
          else if a != id && a != other { assert all[a].program == all[other].program; }
        }
      }
    }
  }

  /** One turn: a collision is found exactly when the instances so far and this one do not fit together. */
  lemma TurnIsExact(s: Seen, all: map<Id, Facts>, instances: map<Id, Instance>, id: Id, f: Facts)
    requires Knows(s, all) && Unequal(all) && id !in all
    requires instances.Keys == all.Keys && forall a | a in all :: instances[a] == all[a].instance
    ensures Collides(s, f, instances) ==> !Unequal(all[id := f])
    ensures !Collides(s, f, instances) ==> Unequal(all[id := f]) && Knows(Noted(s, id, f), all[id := f])
  {
    hide Distinct, Indexes, NoSharedIndependent, KnowsPrograms;
    IndexGrows(s.ports, all, PortOf, id, f);
    IndexGrows(s.states, all, StateOf, id, f);
    IndexGrows(s.configs, all, ConfigOf, id, f);
    IndexGrows(s.proxyPorts, all, ProxyPortOf, id, f);
    IndexGrows(s.hosts, all, HostOf, id, f);
    ProgramsGrow(s.programs, all, id, f);
  }

  lemma UnequalShrinks(some: map<Id, Facts>, all: map<Id, Facts>)
    requires Unequal(all) && some.Keys <= all.Keys && forall id | id in some :: some[id] == all[id]
    ensures Unequal(some)
  {
    DistinctShrinks(some, all, PortOf);
    DistinctShrinks(some, all, StateOf);
    DistinctShrinks(some, all, ConfigOf);
    DistinctShrinks(some, all, ProxyPortOf);
    DistinctShrinks(some, all, HostOf);
  }

  /** The checks after the loop, on the collision maps alone. */
  predicate Clashes(g: Global, s: Seen, needsTls: bool) {
    || (exists port | port in s.proxyPorts :: port in s.ports)
    || (g.shared.Addr? && g.shared.port in s.ports)
    || g.managerPort in s.proxyPorts
    || (needsTls && !g.certificates && !g.local)
  }

  lemma IndexHas<K>(m: map<K, Id>, all: map<Id, Facts>, key: Facts -> Option<K>, k: K)
    requires Indexes(m, all, key)
    ensures k in m <==> Has(all, key, k)
  {
    if k in m { assert m[k] in all && key(all[m[k]]) == Some(k); }
  }

  lemma ClashIsExact(g: Global, s: Seen, all: map<Id, Facts>, needsTls: bool)
    requires Knows(s, all) && (needsTls <==> NeedsTls(all)) && (g.shared.Addr? ==> !Has(all, HostOf, g.managerHost))
    ensures Clashes(g, s, needsTls) <==> !Apart(g, all)
  {
    hide Indexes, Has, KnowsPrograms, NeedsTls;
    forall port ensures port in s.ports <==> Has(all, PortOf, port) { IndexHas(s.ports, all, PortOf, port); }
    forall port ensures port in s.proxyPorts <==>
      Has(all, ProxyPortOf, port) { IndexHas(s.proxyPorts, all, ProxyPortOf, port); }
  }

  // ---------- the loop ----------

  /** Validate's loop takes the instances in any order; it accepts if and only if the declarative predicate
      holds, so one order accepts exactly when every order does, and all accept the same configuration. */
  method Validate(g: Global, w: World, gateways: map<Id, Instance>) returns (accepted: Option<map<Id, Instance>>)
    ensures accepted.Some? <==> Acceptable(g, w, gateways)
    ensures accepted.Some? ==> accepted.value.Keys == gateways.Keys
    ensures accepted.Some? ==>
      forall id | id in gateways :: accepted.value[id] == Examine(g, w, id, gateways[id]).value.instance
  {
    hide Knows, Unequal, Clashes, Examine, Collides, NeedsTls, Has, Acceptable, Apart, Noted;
    var seen := Seen(map[], map[], map[], map[], map[], map[]);
    var instances: map<Id, Instance>, needsTls := map[], false;
    ghost var all: map<Id, Facts> := map[];
    NothingYet(g.managerHost);
    var ids := gateways.Keys;
    while ids != {}
      invariant ids <= gateways.Keys && all.Keys == instances.Keys == gateways.Keys - ids
      invariant forall id | id in all ::
        Examine(g, w, id, gateways[id]) == Some(all[id]) && instances[id] == all[id].instance
      invariant Knows(seen, all) && Unequal(all)
      invariant (needsTls <==> NeedsTls(all)) && (g.shared.Addr? ==> !Has(all, HostOf, g.managerHost))
    {
      var id :| id in ids;
      var examined := Examine(g, w, id, gateways[id]);
      if examined.None? {
        NoneAlone(g, w, gateways, id);
        return None;
      }
      var f := examined.value;
      TurnIsExact(seen, all, instances, id, f);
      OneMore(all, id, f, g.managerHost);
      if Collides(seen, f, instances) || (g.shared.Addr? && f.host == Some(g.managerHost)) {
        Rejects(g, w, gateways, all, id, f);
        return None;
      }
      seen, needsTls := Noted(seen, id, f), needsTls || f.needsTls;
      instances, all := instances[id := f.instance], all[id := f];
      ids := ids - {id};
    }
    Concludes(g, w, gateways, all);
    ClashIsExact(g, seen, all, needsTls);
    if Clashes(g, seen, needsTls) { return None; }
    accepted := Some(instances);
  }

  lemma Concludes(g: Global, w: World, gateways: map<Id, Instance>, all: map<Id, Facts>)
    requires all.Keys == gateways.Keys && forall a | a in all :: Examine(g, w, a, gateways[a]) == Some(all[a])
    ensures Acceptable(g, w, gateways) <==> Unequal(all) && Apart(g, all)
  {
    assert all == FactsOf(g, w, gateways, gateways.Keys);
  }

  lemma NoneAlone(g: Global, w: World, gateways: map<Id, Instance>, id: Id)
    requires id in gateways && Examine(g, w, id, gateways[id]).None?
    ensures !Acceptable(g, w, gateways)
  {}

  lemma NothingYet(host: string)
    ensures !NeedsTls(map[]) && !Has(map[], HostOf, host)
    ensures Knows(Seen(map[], map[], map[], map[], map[], map[]), map[]) && Unequal(map[])
  {}

  lemma OneMore(all: map<Id, Facts>, id: Id, f: Facts, host: string)
    requires id !in all
    ensures NeedsTls(all[id := f]) <==> NeedsTls(all) || f.needsTls
    ensures Has(all[id := f], HostOf, host) <==> Has(all, HostOf, host) || f.host == Some(host)
  {
    var more := all[id := f];
    assert id in more && more[id] == f;
    assert forall a | a in all :: a in more && more[a] == all[a];
  }

  /** A collision among some of the instances is one among all of them. */
  lemma Rejects(g: Global, w: World, gateways: map<Id, Instance>, all: map<Id, Facts>, id: Id, f: Facts)
    requires forall a | a in all :: a in gateways && Examine(g, w, a, gateways[a]) == Some(all[a])
    requires id in gateways && Examine(g, w, id, gateways[id]) == Some(f)
    requires !Unequal(all[id := f]) || (g.shared.Addr? && f.host == Some(g.managerHost))
    ensures !Acceptable(g, w, gateways)
  {
    var whole := FactsOf(g, w, gateways, gateways.Keys);
    assert whole[id] == f;
    if Unequal(whole) { UnequalShrinks(all[id := f], whole); }
  }

  // ---------- the manager's own port ----------

  function OnPort(g: Global, port: int): Global {
    g.(managerPort := port)
  }

  lemma DefaultedOnAnyPort(g: Global, w: World, id: Id, x: Instance, port: int)
    ensures Localized(OnPort(g, port), w, id, x) == Localized(g, w, id, x)
      && Unlistened(OnPort(g, port), x) == Unlistened(g, x)
    ensures Defaulted(OnPort(g, port), w, id, x) == Defaulted(g, w, id, x)
  {
    var x' := x.(port := if x.port == 0 then DEFAULT_PORT else x.port);
    assert Placed(OnPort(g, port), w, id, x') == Placed(g, w, id, x');
    hide Placed;
  }

  lemma HousedOnAnyPort(g: Global, w: World, id: Id, x: Instance, port: int)
    ensures Housed(OnPort(g, port), w, id, x) == Housed(g, w, id, x)
      && Grounded(OnPort(g, port), w, x) == Grounded(g, w, x)
  {}

  lemma NormalizedOnAnyPort(g: Global, w: World, id: Id, x: Instance, port: int)
    ensures Normalized(OnPort(g, port), w, id, x) == Normalized(g, w, id, x)
  {
    hide Localized, Unlistened, Defaulted, Housed, Grounded, OnPort;
    var y := Localized(g, w, id, x);
    DefaultedOnAnyPort(g, w, id, x, port);
    DefaultedOnAnyPort(g, w, id, y, port);
    DefaultedOnAnyPort(g, w, id, Unlistened(g, y), port);
    var d := Defaulted(g, w, id, Unlistened(g, y));
    if d.Some? {
      HousedOnAnyPort(g, w, id, d.value, port);
      var h := Housed(g, w, id, d.value);
      if h.Some? { HousedOnAnyPort(g, w, id, h.value, port); }
    }
  }

  lemma ExaminedOnAnyPort(g: Global, w: World, id: Id, x: Instance, port: int)
    ensures Examine(OnPort(g, port), w, id, x) == Examine(g, w, id, x)
  {
    NormalizedOnAnyPort(g, w, id, x, port);
    hide Normalized, OriginPort;
  }

  lemma FactsOnAnyPort(g: Global, w: World, gateways: map<Id, Instance>, port: int)
    ensures FactsOf(OnPort(g, port), w, gateways, gateways.Keys) == FactsOf(g, w, gateways, gateways.Keys)
  {
    hide Examine;
    forall id | id in gateways ensures Examine(OnPort(g, port), w, id, gateways[id]) == Examine(g, w, id,
      gateways[id]) {
      ExaminedOnAnyPort(g, w, id, gateways[id], port);
    }
  }

  /** An accepted configuration is accepted with the manager on another port exactly if no proxy listens there. */
  lemma ManagerPortIsExact(g: Global, w: World, gateways: map<Id, Instance>, port: int)
    requires Acceptable(g, w, gateways)
    ensures Acceptable(OnPort(g, port), w, gateways) <==>
      !Has(FactsOf(g, w, gateways, gateways.Keys), ProxyPortOf, port)
  {
    FactsOnAnyPort(g, w, gateways, port);
    forall id | id in gateways ensures Examine(OnPort(g, port), w, id, gateways[id]).Some? {
      ExaminedOnAnyPort(g, w, id, gateways[id], port);
    }
    hide Examine, FactsOf, Distinct, NoSharedIndependent, NeedsTls;
  }

  /** So the manager may be put on the port of any of its gateways, and nothing objects. */
  lemma GatewayPortIsNotCompared(g: Global, w: World, gateways: map<Id, Instance>, id: Id)
    requires Acceptable(g, w, gateways) && id in gateways
    ensures Examine(g, w, id, gateways[id]).Some?
      && Acceptable(OnPort(g, Examine(g, w, id, gateways[id]).value.port), w, gateways)
  {
    var f := Examine(g, w, id, gateways[id]).value;
    ManagerPortIsExact(g, w, gateways, f.port);
    var all := FactsOf(g, w, gateways, gateways.Keys);
    hide Examine, Distinct;
    assert id in all && all[id] == f;
    assert Has(all, PortOf, f.port);
  }

  /** One instance and a manager, both on port 5680: accepted. */
  lemma BothOnOnePort() returns (g: Global, w: World, gateways: map<Id, Instance>)
    ensures Acceptable(g, w, gateways) && "primary" in gateways
      && g.managerPort == gateways["primary"].port == DEFAULT_PORT
  {
    w := World(p => p, p => false, (id, port) => NoOrigin, id => true, id => true, name => true, id => "secret");
    g := Global(DEFAULT_PORT, "127.0.0.1", NoAddr, false, false, false, false, "base", "shared", "root", "",
      "127.0.0.1", true);
    var x := Instance(false, Independent, "program", DEFAULT_CONF, "state", DEFAULT_PORT, "", NoOrigin, 0, NoAddr,
      NoOrigin,
      "");
    gateways := map["primary" := x];
    assert Grounded(g, w, x).Some?;
    assert Examine(g, w, "primary", x).Some?;
    var all := FactsOf(g, w, gateways, gateways.Keys);
    assert all.Keys == {"primary"} && all["primary"].proxyPort.None? && !all["primary"].needsTls;
    OnlyOne(g, all, "primary");
  }

  lemma OnlyOne(g: Global, all: map<Id, Facts>, id: Id)
    requires all.Keys == {id} && all[id].proxyPort.None? && !all[id].needsTls && g.shared.NoAddr?
    ensures Compatible(g, all)
  {
    forall port ensures !Has(all, ProxyPortOf, port) {}
  }

  // ---------- what is saved is accepted again ----------

  /** Directories were resolved, and generated tokens are not empty. */
  ghost predicate Resolved(g: Global, w: World) {
    g.sharedDir != "" && forall id :: w.secret(id) != ""
  }

  lemma FileNamesDiffer(id: Id)
    ensures InstanceFile(id) != DEFAULT_CONF && InstanceFile(id) != ""
  {
    assert InstanceFile(id)[9] == '-' && DEFAULT_CONF[9] == '.';
  }

  lemma GroundedTwice(g: Global, w: World, h: Instance)
    requires Grounded(g, w, h).Some?
    ensures var n := Grounded(g, w, h).value; Grounded(g, w, n) == Some(n)
  {}

  lemma HousedStays(g: Global, w: World, id: Id, d: Instance, h: Instance, n: Instance)
    requires Resolved(g, w) && Housed(g, w, id, d) == Some(h) && Grounded(g, w, h) == Some(n)
    ensures Housed(g, w, id, n) == Some(n)
  {
    FileNamesDiffer(id);
  }

  /** What the global defaults chose is not touched by the later steps. */
  lemma DefaultsSurvive(g: Global, w: World, id: Id, d: Instance, h: Instance, n: Instance)
    requires Resolved(g, w) && Housed(g, w, id, d) == Some(h) && Grounded(g, w, h) == Some(n)
    ensures n.useDefaults == d.useDefaults && n.mode == d.mode && n.proxyPort == d.proxyPort
    ensures n.listen == d.listen && n.public == d.public && n.token == d.token
    ensures d.port != 0 ==> n.port == d.port
    ensures d.url.Origin? ==> n.url == d.url
    ensures d.bundled == g.bundled || d.mode != SharedProgram ==> n.bundled == d.bundled
    ensures d.mode == Inherit && d.dir != "" && d.configFile != "" && d.stateDir != "" ==>
      n.dir == d.dir && n.configFile == d.configFile && n.stateDir == d.stateDir
  {}

  lemma PlacedMeans(g: Global, w: World, id: Id, x: Instance)
    requires Resolved(g, w)
    ensures var p := Placed(g, w, id, x);
      && p.useDefaults == x.useDefaults && p.mode == x.mode && p.port == x.port
      && (x.mode == SharedProgram || x.mode == Inherit ==> p.bundled == g.bundled)
      && (x.mode == Inherit ==> p.dir != "" && p.configFile != "" && p.stateDir != "")
  {
    FileNamesDiffer(id);
  }

  /** A placement depends on nothing but the directories and the file it chose. */
  lemma PlacedStays(g: Global, w: World, id: Id, x: Instance, n: Instance)
    requires Resolved(g, w)
    requires var p := Placed(g, w, id, x);
      && n.mode == x.mode && (x.mode != OtherMode && x.mode != Independent ==> n.bundled == g.bundled)
      && (x.mode == Inherit ==> n.dir == p.dir && n.configFile == p.configFile && n.stateDir == p.stateDir)
    ensures Placed(g, w, id, n) == n
  {
    FileNamesDiffer(id);
  }

  lemma DefaultedStays(g: Global, w: World, id: Id, l: Instance, d: Instance, h: Instance, n: Instance)
    requires Resolved(g, w) && Defaulted(g, w, id, l) == Some(d) && Housed(g, w, id, d) == Some(h)
      && Grounded(g, w, h) == Some(n)
    ensures Defaulted(g, w, id, n) == Some(n)
  {
    DefaultsSurvive(g, w, id, d, h, n);
    if l.useDefaults {
      var x := l.(port := if l.port == 0 then DEFAULT_PORT else l.port);
      PlacedMeans(g, w, id, x);
      PlacedStays(g, w, id, x, n);
      hide Placed, Housed, Grounded;
      var p := Placed(g, w, id, x);
      assert d.port == p.port != 0 && d.proxyPort == p.proxyPort;
      assert p.proxyPort == l.proxyPort;
    }
  }

  lemma LocalizedStays(g: Global, w: World, id: Id, x: Instance, n: Instance)
    requires Resolved(g, w) && n.useDefaults == x.useDefaults
    requires var l := Localized(g, w, id, x); n.token == l.token && (!x.useDefaults ==> n.public == l.public)
    ensures Localized(g, w, id, n) == n
  {}

  /** Each step of the normalisation leaves alone what it and the steps after it have already settled. */
  lemma NormalizedTwice(g: Global, w: World, id: Id, x: Instance)
    requires Resolved(g, w) && Normalized(g, w, id, x).Some?
    ensures var n := Normalized(g, w, id, x).value; Normalized(g, w, id, n) == Some(n)
  {
    var l := Unlistened(g, Localized(g, w, id, x));
    var d := Defaulted(g, w, id, l).value;
    var h := Housed(g, w, id, d).value;
    var n := Grounded(g, w, h).value;
    DefaultsSurvive(g, w, id, d, h, n);
    DefaultedStays(g, w, id, l, d, h, n);
    HousedStays(g, w, id, d, h, n);
    GroundedTwice(g, w, h);
    TokensSurvive(g, w, id, l, d);
    LocalizedStays(g, w, id, x, n);
  }

  lemma TokensSurvive(g: Global, w: World, id: Id, l: Instance, d: Instance)
    requires Defaulted(g, w, id, l) == Some(d)
    ensures d.useDefaults == l.useDefaults && d.token == l.token && (!l.useDefaults ==> d.public == l.public)
    ensures g.shared.Addr? && l.proxyPort == 0 && l.listen.NoAddr? ==> d.proxyPort == 0 && d.listen.NoAddr?
  {}

  /** The public origin filled in for a loopback listener is kept, or computed anew from the same settings. */
  lemma FilledIn(g: Global, w: World, id: Id, n: Instance, public: Origin)
    requires Resolved(g, w) && Normalized(g, w, id, n) == Some(n) && n.public.NoOrigin?
    requires public.Origin? && public.scheme == "http" && public.local
    ensures Normalized(g, w, id, n.(public := public)) == Some(if n.useDefaults
      || g.local then n else n.(public := public))
  {
    var l, l' := Unlistened(g, Localized(g, w, id, n)), Unlistened(g, Localized(g, w, id, n.(public := public)));
    if n.useDefaults || g.local {
      assert Defaulted(g, w, id, l') == Defaulted(g, w, id, l) by { hide Placed; PlacedIgnoresOrigin(g, w, id, l, l'); }
    } else {
      var d, d' := Defaulted(g, w, id, l).value, Defaulted(g, w, id, l').value;
      assert d' == d.(public := public);
      HousedIgnoresOrigin(g, w, id, d, public);
    }
  }

  lemma PlacedIgnoresOrigin(g: Global, w: World, id: Id, x: Instance, y: Instance)
    requires y == x.(public := y.public)
    ensures forall port, a, b ::
      Placed(g, w, id, y.(port := port)).(url := a, public := b) == Placed(g, w, id, x.(port := port)).(url := a,
      public := b)
  {}

  lemma HousedIgnoresOrigin(g: Global, w: World, id: Id, d: Instance, public: Origin)
    ensures match Housed(g, w, id, d)
      case None => Housed(g, w, id, d.(public := public)).None?
      case Some(h) =>
        && Housed(g, w, id, d.(public := public)) == Some(h.(public := public))
        && match Grounded(g, w, h)
           case None => Grounded(g, w, h.(public := public)).None?
           case Some(n) => Grounded(g, w, h.(public := public)) == Some(n.(public := public))
  {}

  /** An accepted configuration, saved and loaded again, is accepted and moves nothing. */
  lemma ExaminedTwice(g: Global, w: World, id: Id, x: Instance)
    requires Resolved(g, w) && Examine(g, w, id, x).Some?
    ensures var f := Examine(g, w, id, x).value; Examine(g, w, id, f.instance) == Some(f)
  {
    var f, n := Examine(g, w, id, x).value, Normalized(g, w, id, x).value;
    NormalizedTwice(g, w, id, x);
    if f.instance != n { FilledIn(g, w, id, n, f.instance.public); }
    hide Normalized, ProxyFits;
  }
}
