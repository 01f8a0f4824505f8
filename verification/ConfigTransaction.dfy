/** The configuration transaction: prepare what can fail, change gateways one by one with an undo entry each,
    commit by renaming the configuration file, and only then publish (internal/service/configuration.go). */
module ConfigTransaction {
  import opened Basics
  import SessionProtocol
  import Listening = ProxyListeners
  import Browsers = BrowserGrants

  type Intent = SessionProtocol.Intent
  type Id = string
  type Handle = nat
  type GatewayConfig = SessionProtocol.Config

  datatype Mode = Running | Detached | Down

  // A gateway manager as this server sees it through its interface. `online` is what its status calls running:
  // whether its process answered the last probe.
  datatype Gateway = Gateway(config: GatewayConfig, intent: Intent, mode: Mode, online: bool)

  /** The same but for the latest probe, which no call decides. */
  predicate Alike(a: Gateway, b: Gateway) {
    a.config == b.config && a.intent == b.intent && a.mode == b.mode
  }

  datatype Settings = Settings(gateway: GatewayConfig, autoStart: bool, token: string, hasOrigin: bool,
    endpoint: Listening.Endpoint)

  datatype ServerConfig = ServerConfig(listenAddr: string, localTLS: bool, shared: Option<Listening.SharedSpec>,
    hosts: set<string>,
                                       gateways: map<Id, Settings>)
  {
    function Wanted(): Listening.Wanted {
      Listening.Wanted(map id | id in gateways :: gateways[id].endpoint, shared, hosts)
    }
    function Tokens(): map<Id, string> {
      map id | id in gateways :: gateways[id].token
    }
    function Proxied(): set<Id> {
      set id | id in gateways && gateways[id].hasOrigin
    }
  }

  // ---------- what a successful call does ----------

  function Started(g: Gateway): Gateway {
    g.(intent := SessionProtocol.Connected, mode := Running)
  }

  function StoppedGateway(g: Gateway): Gateway {
    g.(intent := SessionProtocol.Intent.Stopped, mode := Down)
  }

  function Reconfigured(g: Gateway, config: GatewayConfig): Gateway {
    g.(config := config, mode := if g.intent == SessionProtocol.Connected then Running else Down)
  }

  /** RestoreConfiguration: the old configuration and intent, detached if it was detached, else running exactly if
      the status taken before said so. */
  function Restored(config: GatewayConfig, previous: Gateway): Gateway {
    previous.(config := config,
      mode := if previous.mode.Detached? then Detached else if previous.online then Running else Down)
  }

  /** The status says what the gateway's lifecycle is. */
  predicate StatusTells(g: Gateway) {
    g.mode.Detached? || (g.online <==> g.mode.Running?)
  }

  /** A restored gateway is what it was exactly if it gets its own configuration back and its status told its
      lifecycle; a supervised one that did not answer its last probe is left down. */
  lemma RestoredExactly(config: GatewayConfig, g: Gateway)
    ensures Alike(Restored(config, g), g) <==> config == g.config && StatusTells(g)
    ensures g.mode.Running? && !g.online ==> Restored(config, g).mode.Down?
  {}

  // ---------- undo log ----------

  datatype Undo = StopNew(who: Handle) | RestoreOld(who: Handle, config: GatewayConfig, previous: Gateway)

  datatype Act = Pushed(undo: Undo) | Mutated(who: Handle) | Undone(undo: Undo, ok: bool)

  function Whos(undo: seq<Undo>): set<Handle> {
    if undo == [] then {} else Whos(undo[..|undo| - 1]) + {undo[|undo| - 1].who}
  }

  /** Forward: one entry pushed, then its one call. */
  function Forward(undo: seq<Undo>): seq<Act> {
    if undo == [] then [] else Forward(undo[..|undo| - 1]) + [Pushed(undo[|undo| - 1]), Mutated(undo[|undo| - 1].who)]
  }

  /** Backward: every entry once, the latest first, whatever the earlier ones returned. */
  function Backward(undo: seq<Undo>, results: seq<bool>): seq<Act>
    requires |results| <= |undo|
    decreases |results|
  {
    if results == [] then []
    else Backward(undo, results[..|results| - 1]) + [Undone(undo[|undo| - |results|], results[|results| - 1])]
  }

  /** No gateway has two entries. */
  predicate Single(undo: seq<Undo>)
    decreases |undo|
  {
    undo == [] || (Single(undo[..|undo| - 1]) && undo[|undo| - 1].who !in Whos(undo[..|undo| - 1]))
  }

  /** The gateway of an entry is back where it was, or stopped if it is new. */
  predicate Recovered(u: Undo, now: map<Handle, Gateway>) {
    u.who in now && if u.StopNew? then now[u.who].mode == Down else Alike(now[u.who], Restored(u.config, u.previous))
  }

  function Get(gateways: map<Id, Settings>, id: Id): Option<Settings> {
    if id in gateways then Some(gateways[id]) else None
  }

  /** Where a committed change leaves the gateway of one instance. */
  function Target(was: Gateway, before: Option<Settings>, after: Option<Settings>): Gateway {
    match (before, after)
    case (None, None) => was
    case (None, Some(next)) => if next.autoStart then Started(was) else was
    case (Some(_), None) => StoppedGateway(was)
    case (Some(last), Some(next)) =>
      if last.gateway != next.gateway then Reconfigured(was, next.gateway)
      else if !last.autoStart && next.autoStart then Started(was) else was
  }

  // The changes made so far: `start` is the world before the first of them.
  ghost predicate Logged(start: map<Handle, Gateway>, now: map<Handle, Gateway>, undo: seq<Undo>) {
    && now.Keys == start.Keys && Whos(undo) <= start.Keys && Single(undo)
    && (forall h | h in start && h !in Whos(undo) :: now[h] == start[h])
    && (forall u | u in undo && u.RestoreOld? :: u.who in start && u.previous == start[u.who])
  }

  lemma WhosAppend(undo: seq<Undo>, u: Undo)
    ensures Whos(undo + [u]) == Whos(undo) + {u.who}
    ensures Forward(undo + [u]) == Forward(undo) + [Pushed(u), Mutated(u.who)]
    ensures Single(undo + [u]) <==> Single(undo) && u.who !in Whos(undo)
  {
    assert (undo + [u])[..|undo|] == undo;
  }

  lemma {:induction false} InWhos(undo: seq<Undo>, u: Undo)
    requires u in undo
    ensures u.who in Whos(undo)
  {
    if u != undo[|undo| - 1] {
      assert u in undo[..|undo| - 1];
      InWhos(undo[..|undo| - 1], u);
    }
  }

  lemma LoggedNext(start: map<Handle, Gateway>, now: map<Handle, Gateway>, undo: seq<Undo>, u: Undo,
    after: map<Handle, Gateway>)
    requires Logged(start, now, undo) && u.who in start && u.who !in Whos(undo)
    requires u.RestoreOld? ==> u.previous == now[u.who]
    requires after.Keys == now.Keys && forall h | h in now && h != u.who :: after[h] == now[h]
    ensures Logged(start, after, undo + [u])
  {
    WhosAppend(undo, u);
  }

  lemma {:induction false} SingleDistinct(undo: seq<Undo>, i: nat, j: nat)
    requires Single(undo) && i < j < |undo|
    ensures undo[i].who != undo[j].who
    decreases |undo|
  {
    var rest := undo[..|undo| - 1];
    if j == |undo| - 1 { InWhos(rest, rest[i]); } else { SingleDistinct(rest, i, j); }
  }

  /** Old instances keep their manager, new ones have one of their own, and no two share. */
  ghost predicate Table(managers: map<Id, Handle>, next: map<Id, Handle>, was: map<Handle, Gateway>,
    now: map<Handle, Gateway>) {
    && (forall id | id in next ::
      next[id] in now && if id in managers then next[id] == managers[id] else next[id] !in was)
    && (forall a, b | a in next && b in next && a != b :: next[a] != next[b])
  }

  /** The managers made so far: nothing that existed changed, and what is new is down and configured as told. */
  ghost predicate Staffing(managers: map<Id, Handle>, next: map<Id, Handle>, was: map<Handle, Gateway>,
    now: map<Handle, Gateway>,
                           made: nat, updated: ServerConfig) {
    && Table(managers, next, was, now) && Grown(was, now) && (forall h | h in now :: h < made)
    && (forall id | id in next && id !in managers ::
      id in updated.gateways && now[next[id]].config == updated.gateways[id].gateway)
  }

  lemma StaffingStarts(managers: map<Id, Handle>, now: map<Handle, Gateway>, made: nat, updated: ServerConfig)
    requires forall h | h in now :: h < made
    ensures Staffing(managers, map[], now, now, made, updated)
  {}

  lemma StaffingKeeps(managers: map<Id, Handle>, next: map<Id, Handle>, was: map<Handle, Gateway>,
    now: map<Handle, Gateway>,
                      made: nat, updated: ServerConfig, id: Id)
    requires Staffing(managers, next, was, now, made, updated) && id in managers && id !in next && managers[id] in was
    requires forall a, b | a in managers && b in managers && a != b :: managers[a] != managers[b]
    ensures Staffing(managers, next[id := managers[id]], was, now, made, updated)
  {}

  lemma StaffingAdds(managers: map<Id, Handle>, next: map<Id, Handle>, was: map<Handle, Gateway>,
    now: map<Handle, Gateway>,
                     made: nat, updated: ServerConfig, id: Id, g: Gateway)
    requires Staffing(managers, next, was, now, made, updated) && id !in managers && id !in next
      && id in updated.gateways
    requires g.mode == Down && g.config == updated.gateways[id].gateway
    ensures Staffing(managers, next[id := made], was, now[made := g], made + 1, updated)
  {
    assert made !in now;
  }

  lemma StaffingMeans(managers: map<Id, Handle>, next: map<Id, Handle>, was: map<Handle, Gateway>,
    now: map<Handle, Gateway>,
                      made: nat, updated: ServerConfig)
    requires Staffing(managers, next, was, now, made, updated)
    ensures Table(managers, next, was, now) && Grown(was, now) && was.Keys <= now.Keys && forall h | h in now ::
      h < made
    ensures forall id | id in next && id !in managers ::
      id in updated.gateways && now[next[id]].config == updated.gateways[id].gateway
  {}

  /** At most one entry was added; it restores what the registry said of an old instance, or stops a new one. */
  ghost predicate Extends(undo: seq<Undo>, more: seq<Undo>, last: Option<Settings>, h: Handle,
    start: map<Handle, Gateway>) {
    || more == undo
    || (h in start && more == undo + [if last.Some? then RestoreOld(h, last.value.gateway, start[h]) else StopNew(h)])
  }

  type Registrations = map<Handle, GatewayConfig>

  /** What the registry says of every registered gateway. */
  ghost function Told(managers: map<Id, Handle>, config: ServerConfig): (told: Registrations)
    requires managers.Keys == config.gateways.Keys
    requires forall a, b | a in managers && b in managers && a != b :: managers[a] != managers[b]
    ensures forall id | id in managers :: managers[id] in told && told[managers[id]] == config.gateways[id].gateway
    ensures forall h | h in told :: exists id :: id in managers && managers[id] == h
  {
    map id | id in managers :: managers[id] := config.gateways[id].gateway
  }

  /** Entries restore old gateways to what the registry says of them, and stop gateways that did not exist. */
  ghost predicate Sourced(undo: seq<Undo>, was: set<Handle>, told: Registrations) {
    forall u | u in undo :: (u.StopNew? <==> u.who !in was)
      && (u.RestoreOld? ==> u.who in told && u.config == told[u.who])
  }

  lemma StaysSourced(undo: seq<Undo>, more: seq<Undo>, was: set<Handle>, told: Registrations, last: Option<Settings>,
    h: Handle, start: map<Handle, Gateway>)
    requires Sourced(undo, was, told) && Extends(undo, more, last, h, start)
    requires (last.Some? <==> h in was) && (last.Some? ==> h in told && told[h] == last.value.gateway)
    ensures Sourced(more, was, told)
  {}

  lemma {:induction false} WhosHas(undo: seq<Undo>, h: Handle)
    requires h in Whos(undo)
    ensures exists u :: u in undo && u.who == h
  {
    var last := undo[|undo| - 1];
    if last.who == h { assert last in undo; } else {
      WhosHas(undo[..|undo| - 1], h);
      var u :| u in undo[..|undo| - 1] && u.who == h;
      assert u in undo;
    }
  }

  /** The gateway was registered, and it is back where it was with the configuration the registry gives it. */
  ghost predicate RestoredAs(told: Registrations, h: Handle, was: Gateway, now: Gateway) {
    h in told && Alike(now, Restored(told[h], was))
  }

  /** If every entry succeeds, every old gateway is restored, those never called are untouched, and every new one
      is down. */
  lemma UndoRestores(start: map<Handle, Gateway>, undo: seq<Undo>, was: set<Handle>, told: Registrations,
    after: map<Handle, Gateway>)
    requires Sourced(undo, was, told) && (forall u | u in undo :: Recovered(u, after)) && after.Keys == start.Keys
    requires forall u | u in undo && u.RestoreOld? :: u.who in start && u.previous == start[u.who]
    requires forall h | h in start && h !in Whos(undo) :: after[h] == start[h]
    requires forall h | h in start && h !in was :: start[h].mode == Down
    ensures forall h | h in start && h in was ::
      if h in Whos(undo) then RestoredAs(told, h, start[h], after[h]) else after[h] == start[h]
    ensures forall h | h in start && h !in was :: after[h].mode == Down
  {
    forall h | h in start && h in Whos(undo)
      ensures if h in was then RestoredAs(told, h, start[h], after[h]) else after[h].mode == Down
    {
      WhosHas(undo, h);
    }
  }

  lemma NothingDone()
    ensures Whos([]) == {} && Forward([]) == [] && Backward([], []) == [] && Single([])
  {}

  /** A new instance's manager: started if it should be, with its own configuration. */
  predicate Made(g: Gateway, settings: Settings) {
    g.config == settings.gateway
      && (if settings.autoStart then g.mode == Running && g.intent == SessionProtocol.Connected else g.mode == Down)
  }

  /** Every old gateway that was called is restored to what the registry says of it, every other one is what it was,
      and every new one is down. */
  ghost predicate BackAgain(was: map<Handle, Gateway>, now: map<Handle, Gateway>, called: set<Handle>,
    told: Registrations)
  {
    && (forall h | h in was ::
      h in now && if h in called then RestoredAs(told, h, was[h], now[h]) else now[h] == was[h])
    && (forall h | h in now && h !in was :: now[h].mode == Down)
  }

  /** A gateway ran what the registry says of it, and its status told its lifecycle. */
  ghost predicate Tellable(told: Registrations, h: Handle, was: Gateway) {
    h in told && told[h] == was.config && StatusTells(was)
  }

  /** An old gateway is back where it was exactly if it was never called, or it ran what the registry says and its
      status had told where it was. */
  lemma BackExactly(was: map<Handle, Gateway>, now: map<Handle, Gateway>, called: set<Handle>, told: Registrations)
    requires BackAgain(was, now, called, told)
    ensures forall h | h in was :: h in now && (Alike(now[h], was[h]) <==> h !in called || Tellable(told, h, was[h]))
  {
    forall h | h in was
      ensures h in now && (Alike(now[h], was[h]) <==> h !in called || Tellable(told, h, was[h]))
    {
      if h in called { RestoredExactly(told[h], was[h]); }
    }
  }

  /** The world after running every entry of a log. */
  ghost predicate RolledBack(start: map<Handle, Gateway>, now: map<Handle, Gateway>, undo: seq<Undo>,
    results: seq<bool>) {
    && now.Keys == start.Keys && (forall h | h in start && h !in Whos(undo) :: now[h] == start[h])
    && ((forall r | r in results :: r) ==> forall u | u in undo :: Recovered(u, now))
  }

  lemma AllBack(was: map<Handle, Gateway>, start: map<Handle, Gateway>, mid: map<Handle, Gateway>,
    now: map<Handle, Gateway>, undo: seq<Undo>, results: seq<bool>, told: Registrations)
    requires Grown(was, start) && Logged(start, mid, undo) && Sourced(undo, was.Keys, told)
      && RolledBack(start, now, undo, results)
    ensures (forall r | r in results :: r) ==> BackAgain(was, now, Whos(undo), told)
  {
    if forall r | r in results :: r { UndoRestores(start, undo, was.Keys, told, now); }
  }

  ghost predicate Registered(managers: map<Id, Handle>, config: ServerConfig, world: map<Handle, Gateway>, made: nat) {
    && managers.Keys == config.gateways.Keys && (forall id | id in managers :: managers[id] in world)
    && (forall a, b | a in managers && b in managers && a != b :: managers[a] != managers[b])
    && (forall h | h in world :: h < made)
  }

  lemma StillRegistered(managers: map<Id, Handle>, config: ServerConfig, was: map<Handle, Gateway>, earlier: nat,
    now: map<Handle, Gateway>, made: nat)
    requires Registered(managers, config, was, earlier) && was.Keys <= now.Keys && forall h | h in now :: h < made
    ensures Registered(managers, config, now, made)
  {}

  lemma StaffRegistered(was: map<Id, Handle>, next: map<Id, Handle>, updated: ServerConfig, world: map<Handle, Gateway>,
    made: nat)
    requires Staffed(was, next, world, updated) && forall h | h in world :: h < made
    ensures Registered(next, updated, world, made)
  {}

  lemma NothingMoved(world: map<Handle, Gateway>, told: Registrations)
    ensures BackAgain(world, world, {}, told)
  {}

  ghost predicate Grown(was: map<Handle, Gateway>, now: map<Handle, Gateway>) {
    && was.Keys <= now.Keys && (forall h | h in was :: now[h] == was[h])
    && (forall h | h in now && h !in was :: now[h].mode == Down)
  }

  /** The managers of all instances, old and new: the old ones are those that existed before. */
  ghost predicate Whole(table: map<Id, Handle>, managers: map<Id, Handle>, was: map<Handle, Gateway>,
    now: map<Handle, Gateway>) {
    && (forall id | id in table :: table[id] in now && (id in managers <==> table[id] in was))
    && (forall a, b | a in table && b in table && a != b :: table[a] != table[b])
    && (forall id | id in managers :: id in table && table[id] == managers[id])
  }

  lemma WholeTable(managers: map<Id, Handle>, next: map<Id, Handle>, was: map<Handle, Gateway>,
    now: map<Handle, Gateway>)
    requires Table(managers, next, was, now) && was.Keys <= now.Keys && forall id | id in managers ::
      managers[id] in was
    requires forall a, b | a in managers && b in managers && a != b :: managers[a] != managers[b]
    ensures Whole(managers + next, managers, was, now)
  {}

  /** Every old gateway is where the new configuration wants it. */
  ghost predicate Moved(managers: map<Id, Handle>, was: map<Handle, Gateway>, now: map<Handle, Gateway>,
    last: ServerConfig, updated: ServerConfig) {
    forall id | id in managers && id in last.gateways ::
      && managers[id] in was && managers[id] in now
      && Alike(now[managers[id]], Target(was[managers[id]], Some(last.gateways[id]), Get(updated.gateways, id)))
  }

  lemma Arrived(managers: map<Id, Handle>, next: map<Id, Handle>, was: map<Handle, Gateway>,
    start: map<Handle, Gateway>, now: map<Handle, Gateway>,
                last: ServerConfig, updated: ServerConfig)
    requires Whole(managers + next, managers, was, start) && Grown(was, start) && now.Keys == start.Keys
      && Table(managers, next, was, start)
    requires managers.Keys == last.gateways.Keys && next.Keys == updated.gateways.Keys
    requires var table := managers + next;
      forall id | id in table ::
        Alike(now[table[id]], Target(start[table[id]], Get(last.gateways, id), Get(updated.gateways, id)))
    requires forall id | id in next && id !in managers :: start[next[id]].config == updated.gateways[id].gateway
    ensures Moved(managers, was, now, last, updated) && Table(managers, next, was, now)
    ensures forall id | id in next && id !in managers :: Made(now[next[id]], updated.gateways[id])
  {
    var table := managers + next;
    forall id | id in next && id !in managers ensures Made(now[next[id]], updated.gateways[id]) {
      assert id in table && table[id] == next[id] && next[id] in start;
    }
    forall id | id in managers ensures managers[id] in was && table[id] == managers[id] {}
  }

  /** One manager for every instance: the old one if there was one, else a new one as configured. */
  ghost predicate Staffed(was: map<Id, Handle>, managers: map<Id, Handle>, world: map<Handle, Gateway>,
    updated: ServerConfig) {
    && managers.Keys == updated.gateways.Keys && (forall id | id in managers :: managers[id] in world)
    && (forall a, b | a in managers && b in managers && a != b :: managers[a] != managers[b])
    && (forall id | id in managers ::
      if id in was then managers[id] == was[id] else Made(world[managers[id]], updated.gateways[id]))
  }

  lemma Staff(was: map<Id, Handle>, next: map<Id, Handle>, old': map<Handle, Gateway>, world: map<Handle, Gateway>,
    updated: ServerConfig)
    requires next.Keys == updated.gateways.Keys && Table(was, next, old', world)
    requires forall id | id in next && id !in was ::
      id in updated.gateways && Made(world[next[id]], updated.gateways[id])
    ensures Staffed(was, next, world, updated)
  {}

  lemma LoggedRegistry(start: map<Handle, Gateway>, mid: map<Handle, Gateway>, undo: seq<Undo>)
    requires Logged(start, mid, undo)
    ensures mid.Keys == start.Keys && Single(undo)
  {}

  lemma NothingLogged(was: set<Handle>, told: Registrations)
    ensures Sourced([], was, told) && forall world: map<Handle, Gateway> {:trigger Logged(world, world, [])} ::
      Logged(world, world, [])
  {}

  lemma GetsOld(gateways: map<Id, Settings>, id: Id)
    ensures Get(gateways, id).Some? <==> id in gateways
    ensures id in gateways ==> Get(gateways, id).value == gateways[id]
  {}

  /** The entries from the i-th on were run; what they returned is in `results`, the latest first. */
  ghost predicate Unrolled(start: map<Handle, Gateway>, now: map<Handle, Gateway>, undo: seq<Undo>, i: nat,
    results: seq<bool>) {
    && i <= |undo| && Single(undo) && Whos(undo) <= start.Keys && now.Keys == start.Keys
    && (forall h | h in start && h !in Whos(undo) :: now[h] == start[h])
    && ((forall k | 0 <= k < |results| :: results[k]) ==> forall j | i <= j < |undo| :: Recovered(undo[j], now))
  }

  lemma UnrollStarts(start: map<Handle, Gateway>, now: map<Handle, Gateway>, undo: seq<Undo>)
    requires Logged(start, now, undo)
    ensures Unrolled(start, now, undo, |undo|, [])
  {}

  lemma UnrollKnows(start: map<Handle, Gateway>, now: map<Handle, Gateway>, undo: seq<Undo>, i: nat, results: seq<bool>,
    h: Handle)
    requires Unrolled(start, now, undo, i, results) && h in Whos(undo)
    ensures h in now
  {}

  lemma UnrollNext(start: map<Handle, Gateway>, before: map<Handle, Gateway>, now: map<Handle, Gateway>,
    undo: seq<Undo>, i: nat, results: seq<bool>, ok: bool)
    requires i < |undo| && Unrolled(start, before, undo, i + 1, results) && now.Keys == before.Keys
      && undo[i].who in before
    requires forall k | k in now && k != undo[i].who :: now[k] == before[k]
    requires ok ==>
      Alike(now[undo[i].who], if undo[i].StopNew? then StoppedGateway(before[undo[i].who])
      else Restored(undo[i].config, undo[i].previous))
    ensures Unrolled(start, now, undo, i, results + [ok])
  {
    InWhos(undo, undo[i]);
    var more := results + [ok];
    if forall k | 0 <= k < |more| :: more[k] {
      assert more[|results|] == ok && forall k | 0 <= k < |results| :: results[k] == more[k];
      forall j | i < j < |undo| ensures Recovered(undo[j], now) { SingleDistinct(undo, i, j); }
    }
  }

  lemma UnrollEnds(start: map<Handle, Gateway>, now: map<Handle, Gateway>, undo: seq<Undo>, results: seq<bool>)
    requires Unrolled(start, now, undo, 0, results)
    ensures RolledBack(start, now, undo, results)
  {
    if forall r | r in results :: r {
      assert forall k | 0 <= k < |results| :: results[k] in results;
    }
  }

  // ---------- the server ----------

  // How a gateway answers a call: a failed one leaves the gateway in any state, and any may change the latest probe.
  datatype Answer = Answer(ok: bool, left: Gateway)

  class Service {
    var config: ServerConfig
    var managers: map<Id, Handle>
    var proxies: set<Id>
    // The configuration file, and the temporary one waiting to replace it.
    var file: ServerConfig
    var temporary: Option<ServerConfig>
    // Every manager ever made, as its gateway is now.
    var world: map<Handle, Gateway>
    var made: nat
    // The intents that new managers find saved.
    var saved: map<GatewayConfig, Intent>
    var answers: seq<Answer>
    var faults: seq<bool>
    const listeners: Listening.Listeners
    const grants: Browsers.Grants
    ghost var trace: seq<Act>

    constructor (config: ServerConfig, managers: map<Id, Handle>, world: map<Handle, Gateway>, made: nat,
      saved: map<GatewayConfig, Intent>,
                 listeners: Listening.Listeners, grants: Browsers.Grants)
      requires managers.Keys == config.gateways.Keys && (forall id | id in managers :: managers[id] in world)
      requires forall a, b | a in managers && b in managers && a != b :: managers[a] != managers[b]
      requires forall h | h in world :: h < made
      requires listeners.Settled() && grants.gateways == config.Tokens() && grants.issuing.None?
      ensures Valid() && this.config == config && this.managers == managers && this.world == world && trace == []
    {
      this.config, this.managers, this.world, this.made, this.saved := config, managers, world, made, saved;
      this.listeners, this.grants, proxies, file, temporary := listeners, grants, config.Proxied(), config, None;
      answers, faults, trace := [], [], [];
    }

    ghost predicate Valid()
      reads this, listeners, grants
    {
      && Registry() && proxies == config.Proxied() && file == config && temporary.None?
      && listeners.Settled() && grants.gateways == config.Tokens() && grants.issuing.None?
    }

    method Fault() returns (fails: bool)
      modifies `faults
      ensures fails == (old(faults) != [] && old(faults)[0]) && (old(faults) == [] ==> faults == [])
    {
      fails := faults != [] && faults[0];
      faults := if faults == [] then [] else faults[1..];
    }

    /** One call of the Gateway interface on one manager; `done` is what success means. */
    method Invoke(h: Handle, done: Gateway) returns (ok: bool)
      requires h in world
      modifies `world, `answers
      ensures world.Keys == old(world).Keys && forall k | k in world && k != h :: world[k] == old(world)[k]
      ensures ok ==> Alike(world[h], done)
      ensures old(answers) == [] ==> ok && answers == []
    {
      ok := true;
      var left := done;
      if answers != [] {
        ok := answers[0].ok;
        left := if ok then done.(online := answers[0].left.online) else answers[0].left;
        answers := answers[1..];
      }
      world := world[h := left];
    }

    /** Push the undo entry first, then call. */
    method Attempt(undo: seq<Undo>, u: Undo, done: Gateway, ghost start: map<Handle, Gateway>, ghost before: seq<Act>)
      returns (more: seq<Undo>, ok: bool)
      requires Logged(start, world, undo) && u.who in start && u.who !in Whos(undo)
      requires u.RestoreOld? ==> u.previous == world[u.who]
      requires trace == before + Forward(undo)
      modifies `world, `answers, `trace
      ensures more == undo + [u] && Logged(start, world, more) && trace == before + Forward(more)
      ensures forall k | k in world && k != u.who :: k in old(world) && world[k] == old(world)[k]
      ensures ok ==> Alike(world[u.who], done)
      ensures old(answers) == [] ==> ok && answers == []
    {
      more := undo + [u];
      trace := trace + [Pushed(u)];
      ok := Invoke(u.who, done);
      trace := trace + [Mutated(u.who)];
      LoggedNext(start, old(world), undo, u, world);
      WhosAppend(undo, u);
    }

    // ---------- prepare ----------

    /** A manager for every instance of the new configuration; the new ones are made, not started. */
    method MakeManagers(updated: ServerConfig) returns (next: map<Id, Handle>, ok: bool)
      requires (forall id | id in managers :: managers[id] in world) && (forall h | h in world :: h < made)
      requires forall a, b | a in managers && b in managers && a != b :: managers[a] != managers[b]
      modifies `world, `made, `faults
      ensures Grown(old(world), world) && old(world).Keys <= world.Keys
      ensures forall h | h in world :: h < made
      ensures ok ==> next.Keys == updated.gateways.Keys && Table(managers, next, old(world), world)
      ensures ok ==> forall id | id in next && id !in managers :: world[next[id]].config == updated.gateways[id].gateway
      ensures old(faults) == [] ==> ok && faults == []
    {
      hide Staffing, Table, Grown;
      next, ok := map[], true;
      var ids := updated.gateways.Keys;
      StaffingStarts(managers, world, made, updated);
      while ids != {} && ok
        invariant ids <= updated.gateways.Keys && (ok ==> next.Keys == updated.gateways.Keys - ids)
        invariant Staffing(managers, next, old(world), world, made, updated)
          && (old(faults) == [] ==> ok && faults == [])
      {
        var id :| id in ids;
        next, ok := MakeOne(id, updated, next, old(world));
        ids := ids - {id};
      }
      StaffingMeans(managers, next, old(world), world, made, updated);
    }

    method MakeOne(id: Id, updated: ServerConfig, next0: map<Id, Handle>, ghost was: map<Handle, Gateway>)
      returns (next: map<Id, Handle>, ok: bool)
      requires Staffing(managers, next0, was, world, made, updated) && id in updated.gateways && id !in next0
      requires (forall a | a in managers :: managers[a] in was) && forall a, b | a in managers && b in managers
        && a != b :: managers[a] != managers[b]
      modifies `world, `made, `faults
      ensures Staffing(managers, next, was, world, made, updated) && (ok ==> next.Keys == next0.Keys + {id})
      ensures old(faults) == [] ==> ok && faults == []
    {
      hide Staffing;
      next, ok := next0, true;
      if id in managers {
        StaffingKeeps(managers, next, was, world, made, updated, id);
        next := next[id := managers[id]];
      } else {
        var refused := Fault();
        if refused { return next, false; }
        var settings := updated.gateways[id].gateway;
        var g := Gateway(settings, if settings in saved then saved[settings] else SessionProtocol.Connected, Down,
          false);
        StaffingAdds(managers, next, was, world, made, updated, id, g);
        next, world, made := next[id := made], world[made := g], made + 1;
      }
      if updated.gateways[id].hasOrigin {
        var failed := Fault();
        ok := !failed;
      }
    }

    // ---------- change ----------

    /** One instance: start it if it is new, reconfigure or start it if it changed, stop it if it is removed. */
    method ChangeOne(id: Id, h: Handle, updated: ServerConfig, undo: seq<Undo>, ghost start: map<Handle, Gateway>,
      ghost before: seq<Act>)
      returns (more: seq<Undo>, ok: bool)
      requires Logged(start, world, undo) && h in start && h !in Whos(undo) && trace == before + Forward(undo)
      modifies `world, `answers, `trace
      ensures Logged(start, world, more) && trace == before + Forward(more) && Whos(more) <= Whos(undo) + {h}
      ensures Extends(undo, more, Get(config.gateways, id), h, start)
      ensures forall k | k in world && k != h :: k in old(world) && world[k] == old(world)[k]
      ensures ok ==> Alike(world[h], Target(start[h], Get(config.gateways, id), Get(updated.gateways, id)))
      ensures old(answers) == [] ==> ok && answers == []
    {
      more, ok := undo, true;
      if id !in updated.gateways {
        if id in config.gateways {
          more, ok := Attempt(undo, RestoreOld(h, config.gateways[id].gateway, world[h]), StoppedGateway(world[h]),
            start, before);
        }
        return;
      }
      var next := updated.gateways[id];
      if id !in config.gateways {
        if next.autoStart { more, ok := Attempt(undo, StopNew(h), Started(world[h]), start, before); }
        return;
      }
      var last := config.gateways[id];
      var changed := last.gateway != next.gateway;
      if !changed && (last.autoStart || !next.autoStart) { return; }
      var u := RestoreOld(h, last.gateway, world[h]);
      more, ok := Attempt(undo, u, if changed then Reconfigured(world[h], next.gateway) else Started(world[h]), start,
        before);
    }

    /** One instance after the other, until a call fails. */
    method ChangeAll(ids: set<Id>, table: map<Id, Handle>, updated: ServerConfig, undo0: seq<Undo>,
      ghost was: set<Handle>, ghost told: Registrations,
                     ghost start: map<Handle, Gateway>, ghost before: seq<Act>) returns (undo: seq<Undo>, ok: bool)
      requires Logged(start, world, undo0) && Sourced(undo0, was, told) && trace == before + Forward(undo0)
      requires ids <= table.Keys && forall id | id in ids :: table[id] in start && table[id] !in Whos(undo0)
      requires forall a, b | a in table && b in table && a != b :: table[a] != table[b]
      requires forall id | id in ids :: id in config.gateways <==> table[id] in was
      requires forall id | id in ids && id in config.gateways ::
        table[id] in told && told[table[id]] == config.gateways[id].gateway
      modifies `world, `answers, `trace
      ensures Logged(start, world, undo) && Sourced(undo, was, told) && trace == before + Forward(undo)
      ensures forall id | id in table && id !in ids && table[id] in old(world) ::
        table[id] in world && world[table[id]] == old(world)[table[id]]
          && (table[id] in Whos(undo) ==> table[id] in Whos(undo0))
      ensures ok ==>
        forall id | id in ids ::
        Alike(world[table[id]], Target(start[table[id]], Get(config.gateways, id), Get(updated.gateways, id)))
      ensures old(answers) == [] ==> ok && answers == []
    {
      hide Logged, Sourced, Extends, Target, Forward, Get, Alike, Whos, Single;
      undo, ok := undo0, true;
      LoggedRegistry(start, world, undo0);
      var rest := ids;
      while rest != {} && ok
        invariant rest <= ids && world.Keys == start.Keys && Logged(start, world, undo) && Sourced(undo, was, told)
          && trace == before + Forward(undo)
        invariant forall id | id in rest :: table[id] !in Whos(undo)
        invariant old(answers) == [] ==> ok && answers == []
        invariant forall id | id in table && id !in ids && table[id] in old(world) ::
          table[id] in world && world[table[id]] == old(world)[table[id]]
            && (table[id] in Whos(undo) ==> table[id] in Whos(undo0))
        invariant ok ==> forall id | id in ids && id !in rest ::
          Alike(world[table[id]], Target(start[table[id]], Get(config.gateways, id), Get(updated.gateways, id)))
      {
        var id :| id in rest;
        ghost var earlier := undo;
        undo, ok := ChangeOne(id, table[id], updated, undo, start, before);
        LoggedRegistry(start, world, undo);
        GetsOld(config.gateways, id);
        StaysSourced(earlier, undo, was, told, Get(config.gateways, id), table[id], start);
        rest := rest - {id};
      }
    }

    // ---------- undo ----------

    /** Run every entry once, the latest first; a failed one does not stop the others. */
    method RollBack(undo: seq<Undo>, ghost start: map<Handle, Gateway>) returns (results: seq<bool>)
      requires Logged(start, world, undo)
      modifies `world, `answers, `trace
      ensures |results| == |undo| && trace == old(trace) + Backward(undo, results)
      ensures world.Keys == start.Keys && RolledBack(start, world, undo, results)
    {
      hide Recovered, Unrolled, Single, Whos, Logged;
      results := [];
      var i := |undo|;
      UnrollStarts(start, world, undo);
      while i > 0
        invariant 0 <= i <= |undo| && |results| == |undo| - i && trace == old(trace) + Backward(undo, results)
        invariant Unrolled(start, world, undo, i, results)
      {
        i := i - 1;
        var u := undo[i];
        InWhos(undo, u);
        UnrollKnows(start, world, undo, i + 1, results, u.who);
        ghost var before := world;
        var ok := Invoke(u.who, if u.StopNew? then StoppedGateway(world[u.who]) else Restored(u.config, u.previous));
        UnrollNext(start, before, world, undo, i, results, ok);
        results := results + [ok];
        assert results[..|results| - 1] + [ok] == results;
        trace := trace + [Undone(u, ok)];
      }
      UnrollEnds(start, world, undo, results);
    }

    // ---------- the transaction ----------

    /** A permitted change, and nothing that could fail does. */
    ghost predicate Unhindered(updated: ServerConfig)
      reads this, listeners
    {
      && updated.localTLS == config.localTLS && updated.listenAddr == config.listenAddr
      && updated.shared.Some? == config.shared.Some?
      && faults == [] && answers == [] && listeners.faults == []
      && (listeners.started ==>
            && Listening.Reassignable(listeners.dedicated, updated.Wanted())
            && Listening.SharedReplaceable(listeners.shared, updated.Wanted())
            && Listening.Available(listeners.dedicated, listeners.shared, listeners.open, updated.Wanted()))
    }

    /** What a failed change leaves as it was, whatever its gateways did. */
    twostate predicate Untouched()
      reads this, listeners, grants
    {
      && config == old(config) && managers == old(managers) && proxies == old(proxies) && file == old(file)
      && grants.Current() == old(grants.Current())
      && listeners.open == old(listeners.open) && listeners.dedicated == old(listeners.dedicated)
      && listeners.shared == old(listeners.shared) && listeners.started == old(listeners.started)
    }

    /** The registry on its own: one existing manager for every configured instance. */
    ghost predicate Registry()
      reads this
    {
      Registered(managers, config, world, made)
    }

    /** What the registry says of every registered gateway. */
    ghost function Registrations(): Registrations
      requires Registry()
      reads this
    {
      Told(managers, config)
    }

    /** Make, change, and rename the file into place: the commit point. */
    method Change(updated: ServerConfig)
      returns (undo: seq<Undo>, next: map<Id, Handle>, ok: bool, ghost start: map<Handle, Gateway>)
      requires Registry()
      modifies `world, `made, `faults, `answers, `trace, `file
      ensures Logged(start, world, undo) && Sourced(undo, old(world).Keys, old(Registrations()))
        && trace == old(trace) + Forward(undo)
      ensures Grown(old(world), start) && old(world).Keys <= start.Keys && forall h | h in start :: h < made
      ensures file == if ok then updated else old(file)
      ensures ok ==> next.Keys == updated.gateways.Keys && Table(managers, next, old(world), world)
      ensures ok ==> Moved(managers, old(world), world, config, updated)
      ensures ok ==> forall id | id in next && id !in managers :: Made(world[next[id]], updated.gateways[id])
      ensures old(faults) == [] && old(answers) == [] ==> ok
    {
      hide Moved, Table, Whole, Sourced, Made, Grown, Logged, Target, Forward, Alike;
      ghost var told, before := Registrations(), trace;
      NothingDone();
      NothingLogged(old(world).Keys, told);
      next, ok := MakeManagers(updated);
      undo, start := [], world;
      assert Logged(start, start, []);
      if !ok { return; }
      WholeTable(managers, next, old(world), start);
      hide Registered;
      undo, ok := ChangeBoth(updated, next, managers + next, old(world), told, start, before);
      if !ok { return; }
      Arrived(managers, next, old(world), start, world, config, updated);
      var failed := Fault();
      ok := !failed;
      if ok { file := updated; }
    }

    method ChangeBoth(updated: ServerConfig, next: map<Id, Handle>, table: map<Id, Handle>,
      ghost was: map<Handle, Gateway>, ghost told: Registrations,
                      ghost start: map<Handle, Gateway>, ghost before: seq<Act>) returns (undo: seq<Undo>, ok: bool)
      requires world == start && trace == before && table == managers + next && Whole(table, managers, was, start)
      requires managers.Keys == config.gateways.Keys && next.Keys == updated.gateways.Keys
      requires forall id | id in managers :: table[id] in told && told[table[id]] == config.gateways[id].gateway
      modifies `world, `answers, `trace
      ensures Logged(start, world, undo) && Sourced(undo, was.Keys, told) && trace == before + Forward(undo)
      ensures ok ==>
        forall id | id in table ::
        Alike(world[table[id]], Target(start[table[id]], Get(config.gateways, id), Get(updated.gateways, id)))
      ensures old(answers) == [] ==> ok && answers == []
      ensures world.Keys == start.Keys
    {
      undo, ok := ChangeAll(next.Keys, table, updated, [], was.Keys, told, start, before);
      if ok { undo, ok := ChangeAll(managers.Keys - next.Keys, table, updated, undo, was.Keys, told, start, before); }
    }

    /** The new configuration is in force: registry, credentials and listeners follow the file. */
    method Publish(updated: ServerConfig, next: map<Id, Handle>, reconcile: Listening.Reconcile,
      ghost sockets: map<nat, Listening.Addr>)
      requires listeners.Committable(reconcile, sockets) && grants.issuing.None?
      modifies `managers, `proxies, `config, `temporary, listeners, grants
      ensures managers == next && proxies == updated.Proxied() && config == updated && temporary.None?
      ensures grants.Current() == Browsers.Apply(old(grants.Current()),
        Browsers.Reconfigured(old(grants.gateways), updated.Tokens()))
      ensures grants.gateways == updated.Tokens() && grants.issuing.None?
      ensures listeners.Settled() && listeners.started == old(listeners.started)
      ensures listeners.started ==> listeners.dedicated == reconcile.next && listeners.shared == reconcile.sharedNext
      ensures listeners.hosts == old(listeners.hosts)
    {
      hide Listening.Prepared, Listening.Splits, Listening.Published, Listening.Grown;
      managers, proxies, config, temporary := next, updated.Proxied(), updated, None;
      grants.Publish(updated.Tokens());
      listeners.Commit(reconcile, sockets);
    }

    /** Nothing was published: close what was opened, and compensate every gateway that was called. */
    method Withdraw(reconcile: Listening.Reconcile, undo: seq<Undo>, ghost sockets: map<nat, Listening.Addr>,
      ghost start: map<Handle, Gateway>)
      returns (results: seq<bool>)
      requires Logged(start, world, undo) && listeners.Committable(reconcile, sockets)
      requires listeners.open - Listening.StartedHandles(reconcile) == sockets
      modifies `world, `answers, `trace, `temporary, listeners`open
      ensures world.Keys == start.Keys
      ensures listeners.open == sockets && listeners.Settled() && temporary.None?
      ensures |results| == |undo| && trace == old(trace) + Backward(undo, results)
      ensures RolledBack(start, world, undo, results)
    {
      listeners.Rollback(reconcile, sockets);
      results := RollBack(undo, start);
      temporary := None;
    }

    /** The change gets as far as the preparation of the listeners. */
    ghost predicate Reaches(updated: ServerConfig)
      reads this
    {
      && updated.localTLS == config.localTLS && updated.listenAddr == config.listenAddr
      && updated.shared.Some? == config.shared.Some?
      && !(faults != [] && faults[0])
    }

    /** applyConfig. `undo` are the entries it pushed, `results` what running them returned after a failure. Names that
        reached the local certificate stay there, whatever fails later. */
    method ApplyConfig(updated: ServerConfig) returns (ok: bool, ghost undo: seq<Undo>, ghost results: seq<bool>)
      requires Valid()
      modifies this, listeners, grants
      ensures Valid() && Single(undo) && |results| == (if ok then 0 else |undo|)
      ensures trace == old(trace) + Forward(undo) + Backward(undo, results)
      ensures !ok ==> Untouched()
      ensures !ok && (forall r | r in results :: r) ==>
        BackAgain(old(world), world, Whos(undo), old(Registrations()))
      ensures !ok && (forall r | r in results :: r) ==>
        forall h | h in old(world) ::
          h in world && (Alike(world[h], old(world)[h]) <==>
            h !in Whos(undo) || Tellable(old(Registrations()), h, old(world)[h]))
      ensures ok ==> config == updated && Moved(old(managers), old(world), world, old(config), updated)
      ensures ok ==>
        grants.Current() == Browsers.Apply(old(grants.Current()),
        Browsers.Reconfigured(old(config).Tokens(), updated.Tokens()))
      ensures ok && old(listeners.started) ==> Listening.Serves(listeners.dedicated, listeners.shared, updated.Wanted())
      ensures ok ==> Staffed(old(managers), managers, world, updated)
      ensures old(Unhindered(updated)) ==> ok
      ensures listeners.hosts == old(listeners.hosts)
        || listeners.hosts == old(listeners.hosts) + Listening.Named(updated.Wanted())
      ensures old(Reaches(updated)) && old(listeners.started) ==>
        undo != [] || ok || Listening.Stays(old(listeners.shared), updated.Wanted()) ==>
        listeners.hosts == old(listeners.hosts) + Listening.Named(updated.Wanted())
      ensures !old(Reaches(updated)) || !old(listeners.started) ==> listeners.hosts == old(listeners.hosts)
    {
      hide Moved, Listening.Listeners.Settled, BackAgain, Listening.Reassignable, Listening.Available, Browsers.Apply,
           Registered,
           Staffed, Whos, Forward, Backward, Single, Alike, Tellable, Told, Listening.Serves, Listening.Named,
             Listening.Stays;
      ok, undo, results := false, [], [];
      NothingDone();
      NothingMoved(world, Registrations());
      BackExactly(world, world, {}, Registrations());
      if updated.localTLS != config.localTLS || updated.listenAddr != config.listenAddr { return; }
      if updated.shared.Some? != config.shared.Some? { return; }
      var unwritable := Fault();
      if unwritable { return; }
      ok, undo, results := Replace(updated);
      if BackAgain(old(world), world, Whos(undo), old(Registrations())) {
        BackExactly(old(world), world, Whos(undo), old(Registrations()));
      }
    }

    /** A permitted change whose file is prepared: prepare the listeners, then the gateways. */
    method Replace(updated: ServerConfig) returns (ok: bool, ghost undo: seq<Undo>, ghost results: seq<bool>)
      requires Valid()
      modifies this, listeners, grants
      ensures Valid() && Single(undo) && |results| == (if ok then 0 else |undo|)
      ensures trace == old(trace) + Forward(undo) + Backward(undo, results)
      ensures !ok ==> Untouched()
      ensures !ok && (forall r | r in results :: r) ==>
        BackAgain(old(world), world, Whos(undo), old(Registrations()))
      ensures ok ==> config == updated && Moved(old(managers), old(world), world, old(config), updated)
      ensures ok ==>
        grants.Current() == Browsers.Apply(old(grants.Current()),
        Browsers.Reconfigured(old(config).Tokens(), updated.Tokens()))
      ensures ok && old(listeners.started) ==> Listening.Serves(listeners.dedicated, listeners.shared, updated.Wanted())
      ensures ok ==> Staffed(old(managers), managers, world, updated)
      ensures old(Unhindered(updated)) ==> ok
      ensures listeners.hosts == old(listeners.hosts)
        || listeners.hosts == old(listeners.hosts) + Listening.Named(updated.Wanted())
      ensures old(listeners.started) ==>
        undo != [] || ok || Listening.Stays(old(listeners.shared), updated.Wanted()) ==>
        listeners.hosts == old(listeners.hosts) + Listening.Named(updated.Wanted())
      ensures !old(listeners.started) ==> listeners.hosts == old(listeners.hosts)
    {
      hide Listening.Prepared, Listening.Splits, Listening.Serves, Moved, Sourced, Table,
           Listening.Listeners.Committable,
           Listening.Listeners.Settled, Listening.Listeners.Valid, BackAgain, Listening.StartedHandles,
             Listening.Reassignable,
           Listening.Available, Browsers.Apply, Registered, Staffed, Whos, Forward, Backward, Single;
      ok, undo, results := false, [], [];
      NothingMoved(world, Registrations());
      NothingDone();
      temporary := Some(updated);
      ghost var sockets := listeners.open;
      var reconcile := listeners.Prepare(updated.Wanted());
      if reconcile.None? {
        temporary := None;
        return;
      }
      ok, undo, results := Transact(updated, reconcile.value, sockets);
    }

    /** Everything after the preparation of the listeners. */
    method Transact(updated: ServerConfig, reconcile: Listening.Reconcile, ghost sockets: map<nat, Listening.Addr>)
      returns (ok: bool, ghost undo: seq<Undo>, ghost results: seq<bool>)
      requires Registry() && grants.issuing.None?
      requires listeners.Committable(reconcile, sockets)
        && listeners.open - Listening.StartedHandles(reconcile) == sockets
      modifies this, listeners, grants
      ensures Registry() && temporary.None? && listeners.Settled() && listeners.started == old(listeners.started)
      ensures Single(undo) && |results| == (if ok then 0 else |undo|)
      ensures trace == old(trace) + Forward(undo) + Backward(undo, results)
      ensures !ok ==> config == old(config) && managers == old(managers) && proxies == old(proxies) && file == old(file)
      ensures !ok ==>
        listeners.open == sockets && listeners.dedicated == old(listeners.dedicated)
        && listeners.shared == old(listeners.shared)
      ensures !ok ==> grants.Current() == old(grants.Current())
      ensures !ok && (forall r | r in results :: r) ==>
        BackAgain(old(world), world, Whos(undo), old(Registrations()))
      ensures ok ==>
        config == file == updated && proxies == updated.Proxied()
        && Moved(old(managers), old(world), world, old(config), updated)
      ensures ok ==>
        grants.Current() == Browsers.Apply(old(grants.Current()),
        Browsers.Reconfigured(old(grants.gateways), updated.Tokens()))
      ensures ok ==> grants.gateways == updated.Tokens() && grants.issuing.None?
      ensures ok && listeners.started ==>
        listeners.dedicated == reconcile.next && listeners.shared == reconcile.sharedNext
      ensures ok ==> Staffed(old(managers), managers, world, updated)
      ensures old(faults) == [] && old(answers) == [] ==> ok
      ensures listeners.hosts == old(listeners.hosts)
    {
      hide Moved, Sourced, Table, Listening.Listeners.Committable, Listening.Listeners.Settled, BackAgain,
           Listening.StartedHandles, Browsers.Apply, Logged, RolledBack, Made, Registered, Staffed, Grown;
      var entries, next, done, start := Change(updated);
      LoggedRegistry(start, world, entries);
      undo, ok, results := entries, done, [];
      if done {
        Staff(managers, next, old(world), world, updated);
        StaffRegistered(managers, next, updated, world, made);
        Publish(updated, next, reconcile, sockets);
      } else {
        ghost var mid := world;
        ghost var returned := Withdraw(reconcile, entries, sockets, start);
        results := returned;
        AllBack(old(world), start, mid, world, undo, results, old(Registrations()));
        StillRegistered(managers, config, old(world), old(made), world, made);
      }
    }
  }
}
