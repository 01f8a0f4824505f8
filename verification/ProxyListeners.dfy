/** The browser-facing listeners: begun all or nothing, and replaced by prepare, then rollback or commit
    (internal/service/listeners.go). */
module ProxyListeners {
  import opened Basics

  type Id = string
  type Addr = string

  // One instance's compatibility endpoint; an empty address means that it has none.
  datatype Endpoint = Endpoint(addr: Addr, scheme: string)

  datatype SharedSpec = SharedSpec(addr: Addr, certFile: string, keyFile: string, tlsTerminated: bool, localTLS: bool)

  // What a configuration asks for. With a shared listener no instance has its own.
  datatype Wanted = Wanted(endpoints: map<Id, Endpoint>, shared: Option<SharedSpec>, hosts: set<string>)
  {
    /** The instances that get a listener of their own. */
    function Dedicated(): set<Id> {
      if shared.Some? then {} else set id | id in endpoints && endpoints[id].addr != "" :: id
    }
  }

  datatype Listener = Listener(handle: nat, at: Endpoint)
  datatype Shared = Shared(handle: nat, spec: SharedSpec)

  datatype Reconcile = Reconcile(next: map<Id, Listener>, started: seq<Listener>, retired: seq<Listener>,
                                 sharedNext: Option<Shared>, sharedStarted: Option<Shared>,
                                   sharedRetired: Option<Shared>)

  const NOTHING := Reconcile(map[], [], [], None, None, None)

  function Handles(m: map<Id, Listener>): set<nat> {
    set id | id in m :: m[id].handle
  }

  function Listed(s: seq<Listener>): set<nat> {
    if s == [] then {} else Listed(s[..|s| - 1]) + {s[|s| - 1].handle}
  }

  function Only(s: Option<Shared>): set<nat> {
    if s.Some? then {s.value.handle} else {}
  }

  /** Every listener a table serves with. */
  function Serving(m: map<Id, Listener>, s: Option<Shared>): set<nat> {
    Handles(m) + Only(s)
  }

  /** Different instances, different sockets. */
  ghost predicate Separate(m: map<Id, Listener>, s: Option<Shared>) {
    && (forall a, b | a in m && b in m && a != b :: m[a].handle != m[b].handle)
    && (forall a | a in m :: m[a].handle !in Only(s))
  }

  /** The table serves exactly what the configuration asks for. */
  ghost predicate Serves(m: map<Id, Listener>, s: Option<Shared>, w: Wanted) {
    && m.Keys == w.Dedicated() && (forall id | id in m :: m[id].at == w.endpoints[id])
    && (s.Some? <==> w.shared.Some?) && (s.Some? ==> s.value.spec == w.shared.value)
  }

  ghost predicate Fits(current: map<Id, Listener>, id: Id, w: Wanted) {
    id in w.Dedicated() && forall other | other in current && current[other].at.addr == w.endpoints[id].addr ::
      other == id && current[id].at.scheme == w.endpoints[id].scheme
  }

  /** No retained instance changes between HTTP and HTTPS in place, and no address changes hands. */
  ghost predicate Reassignable(current: map<Id, Listener>, w: Wanted) {
    AllFit(current, w, w.Dedicated())
  }

  ghost predicate AllFit(current: map<Id, Listener>, w: Wanted, ids: set<Id>) {
    forall id | id in ids :: Fits(current, id, w)
  }

  lemma OneMoreFits(current: map<Id, Listener>, w: Wanted, ids: set<Id>, id: Id)
    ensures AllFit(current, w, ids) && Fits(current, id, w) ==> AllFit(current, w, ids + {id})
    ensures id in w.Dedicated() && Reassignable(current, w) ==> Fits(current, id, w)
    ensures AllFit(current, w, {})
  {}

  ghost predicate Distinct(current: map<Id, Listener>) {
    forall a, b | a in current && b in current && a != b :: current[a].at.addr != current[b].at.addr
  }

  /** The address is the instance's already, or nobody listens there. */
  ghost predicate Free(current: map<Id, Listener>, open: map<nat, Addr>, w: Wanted, id: Id) {
    id in w.Dedicated() && ((id in current && current[id].at.addr == w.endpoints[id].addr)
      || w.endpoints[id].addr !in open.Values)
  }

  /** Every address asked for can be listened on, once. */
  ghost predicate Available(current: map<Id, Listener>, shared: Option<Shared>, open: map<nat, Addr>, w: Wanted) {
    && (forall id | id in w.Dedicated() :: Free(current, open, w, id))
    && (forall a, b | a in w.Dedicated() && b in w.Dedicated() && a != b :: w.endpoints[a].addr != w.endpoints[b].addr)
    && SharedFree(shared, open, w)
  }

  ghost predicate SharedFree(shared: Option<Shared>, open: map<nat, Addr>, w: Wanted) {
    w.shared.Some? ==> (shared.Some? && shared.value.spec == w.shared.value) || w.shared.value.addr !in open.Values
  }

  ghost predicate AllFree(current: map<Id, Listener>, open: map<nat, Addr>, w: Wanted, ids: set<Id>) {
    forall id | id in ids :: Free(current, open, w, id)
  }

  lemma StartsFree(current: map<Id, Listener>, shared: Option<Shared>, open: map<nat, Addr>, w: Wanted)
    requires Available(current, shared, open, w)
    ensures AllFree(current, open, w, w.Dedicated())
  {}

  /** Listening for one instance takes no address another one asks for. */
  lemma StillFree(current: map<Id, Listener>, shared: Option<Shared>, was: map<nat, Addr>, before: map<nat, Addr>,
    open: map<nat, Addr>, w: Wanted, ids: set<Id>, id: Id)
    requires Available(current, shared, was, w) && AllFree(current, before, w, ids) && id in ids && ids <= w.Dedicated()
    requires open.Values <= before.Values + {w.endpoints[id].addr}
    ensures AllFree(current, open, w, ids - {id}) && Free(current, before, w, id)
  {}

  /** The names that serving this configuration puts into the local certificate. */
  function Named(w: Wanted): set<string> {
    if w.shared.Some? && w.shared.value.localTLS && !w.shared.value.tlsTerminated then w.hosts else {}
  }

  /** The shared listener stays, and its certificate is asked for the new names. */
  predicate Stays(current: Option<Shared>, w: Wanted) {
    current.Some? && w.shared == Some(current.value.spec)
  }

  ghost predicate SharedReplaceable(current: Option<Shared>, w: Wanted) {
    current.Some? && w.shared.Some? && current.value.spec.addr == w.shared.value.addr ==>
      current.value.spec == w.shared.value
  }

  /** A reconcile splits the two tables: started is next without current, retired is current without next. */
  ghost predicate Splits(r: Reconcile, current: map<Id, Listener>, shared: Option<Shared>) {
    && Listed(r.started) == Handles(r.next) - Handles(current)
    && Listed(r.retired) == Handles(current) - Handles(r.next)
    && Only(r.sharedStarted) == Only(r.sharedNext) - Only(shared)
    && Only(r.sharedRetired) == Only(shared) - Only(r.sharedNext)
  }

  function StartedHandles(r: Reconcile): set<nat> {
    Listed(r.started) + Only(r.sharedStarted)
  }

  /** Exactly the given sockets were opened since. */
  ghost predicate Grown(was: map<nat, Addr>, now: map<nat, Addr>, handles: set<nat>) {
    now.Keys == was.Keys + handles && handles !! was.Keys && forall h | h in was :: now[h] == was[h]
  }

  /** The table for the instances settled so far: `owner` names those whose socket was opened, the others were kept. */
  ghost predicate Split(current: map<Id, Listener>, was: map<nat, Addr>, now: map<nat, Addr>,
                        next: map<Id, Listener>, begun: seq<Listener>, owner: map<nat, Id>, w: Wanted) {
    Listed(begun) == owner.Keys && Grown(was, now, owner.Keys) && Owned(current, now, next, owner, w)
  }

  ghost predicate Owned(current: map<Id, Listener>, now: map<nat, Addr>, next: map<Id, Listener>, owner: map<nat, Id>,
    w: Wanted) {
    && (forall id | id in next :: id in w.endpoints && next[id].at == w.endpoints[id])
    && (forall h | h in owner ::
      h in now && owner[h] in next && next[owner[h]].handle == h && now[h] == next[owner[h]].at.addr)
    && (forall id | id in next ::
      if next[id].handle in owner then owner[next[id].handle] == id else id in current && next[id] == current[id])
  }

  lemma OwnedAdds(current: map<Id, Listener>, now: map<nat, Addr>, next: map<Id, Listener>, owner: map<nat, Id>,
    w: Wanted, id: Id, l: Listener)
    requires Owned(current, now, next, owner, w)
    requires id !in next && id in w.endpoints && l.at == w.endpoints[id] && l.handle !in now
    requires forall other | other in current :: current[other].handle != l.handle
    ensures Owned(current, now[l.handle := l.at.addr], next[id := l], owner[l.handle := id], w)
  {}

  lemma SplitStarts(current: map<Id, Listener>, was: map<nat, Addr>, w: Wanted)
    ensures Split(current, was, was, map[], [], map[], w)
  {}

  lemma SplitGrown(current: map<Id, Listener>, was: map<nat, Addr>, now: map<nat, Addr>,
                   next: map<Id, Listener>, begun: seq<Listener>, owner: map<nat, Id>, w: Wanted)
    requires Split(current, was, now, next, begun, owner, w)
    ensures Grown(was, now, Listed(begun))
  {}

  lemma SplitKeeps(current: map<Id, Listener>, was: map<nat, Addr>, now: map<nat, Addr>,
                   next: map<Id, Listener>, begun: seq<Listener>, owner: map<nat, Id>, w: Wanted, id: Id)
    requires Split(current, was, now, next, begun, owner, w)
    requires id !in next && id in current && id in w.endpoints && current[id].at == w.endpoints[id]
      && current[id].handle in was
    ensures Split(current, was, now, next[id := current[id]], begun, owner, w)
  {}

  lemma SplitOpens(was: map<nat, Addr>, now: map<nat, Addr>, begun: seq<Listener>, owner: map<nat, Id>, id: Id,
    l: Listener)
    requires Listed(begun) == owner.Keys && Grown(was, now, owner.Keys) && l.handle !in now
    ensures Listed(begun + [l]) == owner[l.handle := id].Keys
      && Grown(was, now[l.handle := l.at.addr], owner[l.handle := id].Keys)
  {
    assert (begun + [l])[..|begun|] == begun;
  }

  lemma SplitAdds(current: map<Id, Listener>, was: map<nat, Addr>, now: map<nat, Addr>,
                  next: map<Id, Listener>, begun: seq<Listener>, owner: map<nat, Id>, w: Wanted, id: Id, l: Listener)
    requires Split(current, was, now, next, begun, owner, w)
    requires id !in next && id in w.endpoints && l.at == w.endpoints[id] && l.handle !in now
    requires Handles(current) <= was.Keys
    ensures Split(current, was, now[l.handle := l.at.addr], next[id := l], begun + [l], owner[l.handle := id], w)
  {
    SplitOpens(was, now, begun, owner, id, l);
    forall other | other in current ensures current[other].handle != l.handle {
      assert current[other].handle in Handles(current);
    }
    hide Grown, Listed, Owned;
    OwnedAdds(current, now, next, owner, w, id, l);
  }

  /** Pointwise, then as sets: what was opened is next without current, what is given up current without next. */
  lemma SplitDivides(current: map<Id, Listener>, was: map<nat, Addr>, now: map<nat, Addr>,
                     next: map<Id, Listener>, begun: seq<Listener>, owner: map<nat, Id>, w: Wanted)
    requires Split(current, was, now, next, begun, owner, w)
    requires Separate(current, None) && Handles(current) <= was.Keys
    requires forall id | id in current :: was[current[id].handle] == current[id].at.addr
    ensures Listed(begun) == Handles(next) - Handles(current) && Grown(was, now, Listed(begun))
    ensures Separate(next, None) && Handles(next) <= now.Keys
    ensures forall id | id in next :: next[id].handle in now && now[next[id].handle] == next[id].at.addr
    ensures forall id | id in next :: id in w.endpoints && next[id].at == w.endpoints[id]
    ensures forall id, other | id in next && other in current && next[id].handle == current[other].handle ::
      other == id && next[id] == current[id]
  {
    assert forall id | id in current :: current[id].handle in Handles(current);
    forall h ensures h in Listed(begun) <==> h in Handles(next) - Handles(current) {
      if h in owner { assert owner[h] in next; }
    }
  }

  /** Two tables and the sockets they serve with. */
  ghost predicate Published(m: map<Id, Listener>, s: Option<Shared>, open: map<nat, Addr>) {
    && Separate(m, s) && Serving(m, s) <= open.Keys
    && (forall id | id in m :: m[id].handle in open && open[m[id].handle] == m[id].at.addr)
    && (s.Some? ==> s.value.handle in open && open[s.value.handle] == s.value.spec.addr)
  }

  /** Every open socket was issued, and no address is taken twice. */
  ghost predicate Exclusive(open: map<nat, Addr>, issued: nat) {
    && (forall h | h in open :: h < issued)
    && (forall a, b | a in open && b in open && a != b :: open[a] != open[b])
  }

  lemma StaysExclusive(open: map<nat, Addr>, issued: nat, handles: set<nat>)
    requires Exclusive(open, issued)
    ensures Exclusive(open - handles, issued)
  {}

  lemma NothingServes()
    ensures Serving(map[], None) == {}
  {}

  lemma NothingPublished(open: map<nat, Addr>)
    ensures Published(map[], None, open)
  {}

  lemma PublishedDistinct(m: map<Id, Listener>, s: Option<Shared>, open: map<nat, Addr>)
    requires Published(m, s, open)
    requires forall a, b | a in open && b in open && a != b :: open[a] != open[b]
    ensures Distinct(m) && Separate(m, None) && Handles(m) <= open.Keys
    ensures forall id | id in m :: m[id].handle in open && open[m[id].handle] == m[id].at.addr
  {}

  /** Prepared and neither committed nor rolled back: next can serve, and rolling back closes none of the
      current ones. */
  ghost predicate Prepared(r: Reconcile, current: map<Id, Listener>, shared: Option<Shared>, was: map<nat, Addr>,
    now: map<nat, Addr>) {
    && Published(r.next, r.sharedNext, now) && Published(current, shared, now)
    && Grown(was, now, StartedHandles(r)) && StartedHandles(r) <= Serving(r.next, r.sharedNext)
    && StartedHandles(r) !! Serving(current, shared)
  }

  function Retiring(shared: Option<Shared>, next: Option<Shared>): Option<Shared> {
    if shared.Some? && next != shared then shared else None
  }

  /** What a reconcile is made of: the tables of the instances' own listeners, split, and a shared one. */
  ghost predicate Made(current: map<Id, Listener>, shared: Option<Shared>, was: map<nat, Addr>, mid: map<nat, Addr>,
    now: map<nat, Addr>, r: Reconcile) {
    && Grown(was, mid, Listed(r.started)) && Grown(mid, now, Only(r.sharedStarted))
    && Listed(r.started) == Handles(r.next) - Handles(current) && Separate(r.next, None)
    && (forall id | id in r.next :: r.next[id].handle in mid && mid[r.next[id].handle] == r.next[id].at.addr)
    && (r.sharedStarted.None? ==> r.sharedNext == shared || r.sharedNext.None?)
    && (r.sharedStarted.Some? ==> r.sharedNext == r.sharedStarted && Only(r.sharedNext) !! mid.Keys)
    && (r.sharedNext.Some? ==>
      r.sharedNext.value.handle in now && now[r.sharedNext.value.handle] == r.sharedNext.value.spec.addr)
    && Listed(r.retired) == Handles(current) - Handles(r.next) && r.sharedRetired == Retiring(shared, r.sharedNext)
  }

  lemma SharedApart(current: map<Id, Listener>, shared: Option<Shared>, was: map<nat, Addr>, mid: map<nat, Addr>,
    now: map<nat, Addr>, r: Reconcile)
    requires Published(current, shared, was) && Made(current, shared, was, mid, now, r)
    ensures Separate(r.next, r.sharedNext)
  {
    assert forall id | id in r.next :: r.next[id].handle in Handles(r.next);
    forall id | id in r.next ensures r.next[id].handle !in Only(r.sharedNext) {
      if r.next[id].handle in Handles(current) {
        var other :| other in current && current[other].handle == r.next[id].handle;
      }
    }
  }

  lemma NextPublished(current: map<Id, Listener>, shared: Option<Shared>, was: map<nat, Addr>, mid: map<nat, Addr>,
    now: map<nat, Addr>, r: Reconcile)
    requires Made(current, shared, was, mid, now, r) && Separate(r.next, r.sharedNext)
    ensures Published(r.next, r.sharedNext, now)
  {}

  lemma MadeGrown(current: map<Id, Listener>, shared: Option<Shared>, was: map<nat, Addr>, mid: map<nat, Addr>,
    now: map<nat, Addr>, r: Reconcile)
    requires Published(current, shared, was) && Made(current, shared, was, mid, now, r)
    ensures Grown(was, now, StartedHandles(r)) && StartedHandles(r) <= Serving(r.next, r.sharedNext)
    ensures StartedHandles(r) !! Serving(current, shared) && Published(current, shared, now)
  {}

  lemma MadeSplits(current: map<Id, Listener>, shared: Option<Shared>, was: map<nat, Addr>, mid: map<nat, Addr>,
    now: map<nat, Addr>, r: Reconcile)
    requires Published(current, shared, was) && Made(current, shared, was, mid, now, r)
    ensures Splits(r, current, shared)
  {
    hide Separate;
  }

  /** The shared listener joins the settled instances' table: retired is current without next and started is next
      without current, for both kinds. */
  lemma Joined(current: map<Id, Listener>, shared: Option<Shared>, was: map<nat, Addr>, mid: map<nat, Addr>,
    now: map<nat, Addr>, r: Reconcile)
    requires Published(current, shared, was) && Made(current, shared, was, mid, now, r)
    ensures Prepared(r, current, shared, was, now) && Splits(r, current, shared)
  {
    hide Made, Separate, Published, Grown;
    SharedApart(current, shared, was, mid, now, r);
    NextPublished(current, shared, was, mid, now, r);
    MadeGrown(current, shared, was, mid, now, r);
    MadeSplits(current, shared, was, mid, now, r);
  }

  lemma ClosingUndoes(r: Reconcile, current: map<Id, Listener>, shared: Option<Shared>, was: map<nat, Addr>,
    now: map<nat, Addr>)
    requires Prepared(r, current, shared, was, now) && was.Keys == Serving(current, shared)
    ensures now - StartedHandles(r) == was && Published(current, shared, was)
    ensures (now - Serving(current, shared)).Keys == StartedHandles(r)
    ensures now - Serving(current, shared) - StartedHandles(r) == map[]
  {}

  /** Closing what is retired leaves exactly the next tables open. */
  lemma RetiredOnly(r: Reconcile, current: map<Id, Listener>, shared: Option<Shared>, was: map<nat, Addr>,
    now: map<nat, Addr>)
    requires Prepared(r, current, shared, was, now) && Splits(r, current, shared)
      && was.Keys == Serving(current, shared)
    ensures now.Keys - Listed(r.retired) - Only(r.sharedRetired) == Serving(r.next, r.sharedNext)
  {
    assert forall id | id in r.next :: r.next[id].handle in Handles(r.next);
  }

  /** What is left then is published and exclusive. */
  lemma ClosingRetired(r: Reconcile, current: map<Id, Listener>, shared: Option<Shared>, was: map<nat, Addr>,
    now: map<nat, Addr>, issued: nat)
    requires Prepared(r, current, shared, was, now) && Exclusive(now, issued)
    requires now.Keys - Listed(r.retired) - Only(r.sharedRetired) == Serving(r.next, r.sharedNext)
    ensures var left := now - Listed(r.retired) - Only(r.sharedRetired);
      left.Keys == Serving(r.next, r.sharedNext) && Published(r.next, r.sharedNext, left) && Exclusive(left, issued)
  {
    var left := now - Listed(r.retired) - Only(r.sharedRetired);
    assert left.Keys == Serving(r.next, r.sharedNext);
    hide Grown, Listed;
    forall id | id in r.next ensures r.next[id].handle in left && left[r.next[id].handle] == r.next[id].at.addr {
      assert r.next[id].handle in Handles(r.next);
    }
  }

  class Listeners {
    var dedicated: map<Id, Listener>
    var shared: Option<Shared>
    var started: bool
    // The host's sockets: who listens where. An address can be taken only once.
    var open: map<nat, Addr>
    var issued: nat
    // The names in the local certificate, or due in it; they are never withdrawn.
    var hosts: set<string>
    var faults: seq<bool>

    ghost predicate Sockets()
      reads this
    {
      Exclusive(open, issued)
    }

    ghost predicate Valid()
      reads this
    {
      && Sockets() && Published(dedicated, shared, open)
      && (!started ==> dedicated == map[] && shared.None?)
    }

    /** Nothing but the published tables is open. */
    ghost predicate Settled()
      reads this
    {
      Valid() && open.Keys == Serving(dedicated, shared)
    }

    constructor (faults: seq<bool>)
      ensures Settled() && !started && open == map[] && hosts == {} && this.faults == faults
    {
      dedicated, shared, started, open, issued, hosts, this.faults := map[], None, false, map[], 0, {}, faults;
    }

    method Fault() returns (fails: bool)
      modifies `faults
      ensures old(faults) == [] ==> !fails && faults == []
    {
      fails := faults != [] && faults[0];
      faults := if faults == [] then [] else faults[1..];
    }

    /** net.Listen and, for HTTPS, the certificate; a failure after listening closes the socket again. */
    method Listen(addr: Addr) returns (handle: Option<nat>)
      requires Sockets()
      modifies `open, `issued, `faults
      ensures Sockets() && old(issued) <= issued && (old(faults) == [] ==> faults == [])
      ensures handle.None? ==> open == old(open)
      ensures handle.Some? ==> handle.value !in old(open) && open == old(open)[handle.value := addr]
      ensures old(faults) == [] ==> (handle.Some? <==> addr !in old(open).Values)
    {
      var failed := Fault();
      if failed || addr in open.Values { return None; }
      var h := issued;
      open, issued := open[h := addr], issued + 1;
      var refused := Fault();
      if refused {
        open := open - {h};
        return None;
      }
      handle := Some(h);
    }

    method Close(handle: nat)
      modifies `open
      ensures open == old(open) - {handle}
    {
      open := open - {handle};
    }

    method CloseAll(listeners: seq<Listener>)
      modifies `open
      ensures open == old(open) - Listed(listeners)
    {
      for i := 0 to |listeners|
        invariant open == old(open) - Listed(listeners[..i])
      {
        assert listeners[..i + 1] == listeners[..i] + [listeners[i]];
        Close(listeners[i].handle);
      }
      assert listeners[..|listeners|] == listeners;
    }

    method CloseShared(s: Option<Shared>)
      modifies `open
      ensures open == old(open) - Only(s)
    {
      if s.Some? { Close(s.value.handle); }
    }

    // ---------- prepare ----------

    /** prepareProxyListenerReconcile: open what is new, decide what is retired, publish nothing. */
    method Prepare(w: Wanted) returns (r: Option<Reconcile>)
      requires Settled()
      modifies `open, `issued, `hosts, `faults
      ensures Valid()
      ensures r.None? ==> open == old(open) && Settled()
      ensures r.Some? && started ==> Splits(r.value, dedicated, shared) && Serves(r.value.next, r.value.sharedNext, w)
      ensures !started ==> r == Some(NOTHING) && hosts == old(hosts)
      ensures hosts == old(hosts) || hosts == old(hosts) + Named(w)
      ensures started && (r.Some? || Stays(shared, w)) ==> hosts == old(hosts) + Named(w)
      ensures r.Some? ==> Prepared(r.value, dedicated, shared, old(open), open)
      ensures r.Some? ==> Committable(r.value, old(open)) && open - StartedHandles(r.value) == old(open)
      ensures r.Some? && started ==> Reassignable(dedicated, w) && SharedReplaceable(shared, w)
      ensures old(faults) == [] && Reassignable(dedicated, w) && SharedReplaceable(shared, w) ==>
        Available(dedicated, shared, old(open), w) ==> r.Some?
    {
      if !started { return Some(NOTHING); }
      PublishedDistinct(dedicated, shared, open);
      r := PrepareBoth(w);
      if r.Some? { ClosingUndoes(r.value, dedicated, shared, old(open), open); }
    }

    method PrepareBoth(w: Wanted) returns (r: Option<Reconcile>)
      requires Sockets() && Published(dedicated, shared, open) && Distinct(dedicated) && Handles(dedicated) <= open.Keys
        && Separate(dedicated, None)
      requires forall id | id in dedicated :: open[dedicated[id].handle] == dedicated[id].at.addr
      requires shared.Some? ==> shared.value.handle in open && open[shared.value.handle] == shared.value.spec.addr
      modifies `open, `issued, `hosts, `faults
      ensures Sockets() && (r.None? ==> open == old(open)) && (old(faults) == [] ==> faults == [])
      ensures hosts == old(hosts) || hosts == old(hosts) + Named(w)
      ensures r.Some? || Stays(shared, w) ==> hosts == old(hosts) + Named(w)
      ensures r.Some? ==> Prepared(r.value, dedicated, shared, old(open), open)
      ensures r.Some? ==> Splits(r.value, dedicated, shared) && Serves(r.value.next, r.value.sharedNext, w)
      ensures r.Some? ==> Reassignable(dedicated, w) && SharedReplaceable(shared, w)
      ensures old(faults) == [] && Reassignable(dedicated, w) && SharedReplaceable(shared, w) ==>
        Available(dedicated, shared, old(open), w) ==> r.Some?
    {
      hide Published, Separate, Reassignable, SharedReplaceable, Split, Sockets, Handles, Listed, Distinct, Splits,
           Prepared, Serving, StartedHandles;
      var next, begun, ok, owner := PrepareDedicated(w);
      if !ok { return None; }
      SplitDivides(dedicated, old(open), open, next, begun, owner, w);
      ghost var mid := open;
      var sharedNext, sharedStarted, done := PrepareShared(w);
      if !done {
        CloseBegun(old(open), begun);
        return None;
      }
      var retired := Retired(dedicated, next);
      var prepared := Reconcile(next, begun, retired, sharedNext, sharedStarted, Retiring(shared, sharedNext));
      Joined(dedicated, shared, old(open), mid, open, prepared);
      r := Some(prepared);
    }

    /** The instances' own listeners: keep the ones that fit, open the others, or open none. */
    method PrepareDedicated(w: Wanted)
      returns (next: map<Id, Listener>, begun: seq<Listener>, ok: bool, ghost owner: map<nat, Id>)
      requires Sockets() && Handles(dedicated) <= open.Keys && Distinct(dedicated)
      modifies `open, `issued, `faults
      ensures Sockets() && old(issued) <= issued
      ensures !ok ==> open == old(open)
      ensures ok ==> next.Keys == w.Dedicated() && Reassignable(dedicated, w)
      ensures ok ==> Split(dedicated, old(open), open, next, begun, owner, w)
      ensures old(faults) == [] && Reassignable(dedicated, w) && Available(dedicated, shared, old(open), w) ==>
        ok && faults == []
      ensures w.Dedicated() == {} ==> open == old(open) && ok
      ensures old(faults) == [] ==> faults == []
    {
      hide Sockets, Handles, Split, Available, AllFree, Free, Fits, AllFit;
      next, begun, ok, owner := map[], [], true, map[];
      var ids := w.Dedicated();
      ghost var done: set<Id> := {};
      SplitStarts(dedicated, open, w);
      OneMoreFits(dedicated, w, {}, "");
      if Available(dedicated, shared, open, w) { StartsFree(dedicated, shared, open, w); }
      while ids != {} && ok
        invariant ids + done == w.Dedicated() && ids !! done && (ok ==> next.Keys == done)
        invariant Sockets() && old(issued) <= issued
        invariant Split(dedicated, old(open), open, next, begun, owner, w)
        invariant ok ==> AllFit(dedicated, w, done)
        invariant old(faults) == [] && Reassignable(dedicated, w) && Available(dedicated, shared, old(open), w) ==>
          ok && faults == [] && AllFree(dedicated, open, w, ids)
        invariant done == {} ==> open == old(open) && ok
        invariant old(faults) == [] ==> faults == []
      {
        var id :| id in ids;
        ghost var before := open;
        OneMoreFits(dedicated, w, done, id);
        ok, next, begun, owner := PrepareOne(id, w, old(open), next, begun, owner);
        if Available(dedicated, shared, old(open), w) && AllFree(dedicated, before, w, ids) {
          StillFree(dedicated, shared, old(open), before, open, w, ids, id);
        }
        ids, done := ids - {id}, done + {id};
      }
      if !ok {
        SplitGrown(dedicated, old(open), open, next, begun, owner, w);
        CloseBegun(old(open), begun);
      }
    }

    method PrepareOne(id: Id, w: Wanted, ghost was: map<nat, Addr>, next0: map<Id, Listener>, begun0: seq<Listener>,
      ghost owner0: map<nat, Id>)
      returns (ok: bool, next: map<Id, Listener>, begun: seq<Listener>, ghost owner: map<nat, Id>)
      requires id in w.Dedicated() && id !in next0 && Handles(dedicated) <= was.Keys && Distinct(dedicated)
      requires Sockets() && Split(dedicated, was, open, next0, begun0, owner0, w)
      modifies `open, `issued, `faults
      ensures Sockets() && old(issued) <= issued && Split(dedicated, was, open, next, begun, owner, w)
      ensures ok ==> next.Keys == next0.Keys + {id} && Fits(dedicated, id, w)
      ensures open.Values <= old(open).Values + {w.endpoints[id].addr}
      ensures old(faults) == [] ==> faults == [] && (ok <== Fits(dedicated, id, w) && Free(dedicated, old(open), w, id))
    {
      hide Sockets, Split, Separate;
      ok, next, begun, owner := false, next0, begun0, owner0;
      var at := w.endpoints[id];
      if id in dedicated && dedicated[id].at.addr == at.addr {
        if dedicated[id].at.scheme != at.scheme { return; }
        assert dedicated[id].handle in Handles(dedicated);
        SplitKeeps(dedicated, was, open, next, begun, owner, w, id);
        next := next[id := dedicated[id]];
      } else {
        if exists other | other in dedicated :: other != id && dedicated[other].at.addr == at.addr { return; }
        var handle := Listen(at.addr);
        if handle.None? { return; }
        var l := Listener(handle.value, at);
        SplitAdds(dedicated, was, old(open), next, begun, owner, w, id, l);
        next, begun, owner := next[id := l], begun + [l], owner[l.handle := id];
      }
      ok := true;
    }

    method CloseBegun(ghost was: map<nat, Addr>, begun: seq<Listener>)
      requires Sockets() && Grown(was, open, Listed(begun))
      modifies `open
      ensures Sockets() && open == was
    {
      CloseAll(begun);
    }

    method PrepareShared(w: Wanted) returns (next: Option<Shared>, begun: Option<Shared>, ok: bool)
      requires Sockets() && (shared.Some? ==>
        shared.value.handle in open && open[shared.value.handle] == shared.value.spec.addr)
      modifies `open, `issued, `hosts, `faults
      ensures Sockets() && (hosts == old(hosts) || hosts == old(hosts) + Named(w))
      ensures ok || Stays(shared, w) ==> hosts == old(hosts) + Named(w)
      ensures old(faults) == [] ==> faults == []
      ensures !ok ==> open == old(open)
      ensures ok ==> (next.Some? <==> w.shared.Some?) && (next.Some? ==> next.value.spec == w.shared.value)
      ensures ok ==>
        Grown(old(open), open, Only(begun))
        && (next.Some? ==> next.value.handle in open && open[next.value.handle] == next.value.spec.addr)
      ensures ok ==> if begun.None? then next == shared || next.None? else next == begun && Only(next) !! old(open).Keys
      ensures ok ==> SharedReplaceable(shared, w)
      ensures old(faults) == [] && SharedReplaceable(shared, w) && SharedFree(shared, old(open), w) ==> ok
    {
      next, begun, ok := None, None, true;
      if w.shared.None? { return; }
      var spec := w.shared.value;
      if shared.Some? && shared.value.spec == spec {
        ok := EnsureHosts(spec, w.hosts);
        next := shared;
        return;
      }
      if shared.Some? && shared.value.spec.addr == spec.addr { return None, None, false; }
      var handle := Listen(spec.addr);
      var written := Fault();
      // A certificate that could not be exported may be written all the same.
      if handle.Some? || written { hosts := hosts + Named(w); }
      if handle.None? { return None, None, false; }
      next := Some(Shared(handle.value, spec));
      begun := next;
    }

    /** The kept listener's certificate is to carry the new names from now on, also when renewing it fails; no
        rollback takes them back. */
    method EnsureHosts(spec: SharedSpec, names: set<string>) returns (ok: bool)
      modifies `hosts, `faults
      ensures old(faults) == [] ==> ok && faults == []
      ensures hosts == old(hosts) + if spec.localTLS && !spec.tlsTerminated then names else {}
    {
      if !spec.localTLS || spec.tlsTerminated { return true; }
      hosts := hosts + names;
      var failed := Fault();
      ok := !failed;
    }

    method Retired(current: map<Id, Listener>, next: map<Id, Listener>) returns (retired: seq<Listener>)
      requires Separate(current, None)
      requires forall id, other | id in next && other in current && next[id].handle == current[other].handle ::
        other == id && next[id] == current[id]
      ensures Listed(retired) == Handles(current) - Handles(next)
    {
      retired := [];
      var ids := current.Keys;
      ghost var done: set<Id> := {};
      while ids != {}
        invariant ids + done == current.Keys && ids !! done
        invariant Listed(retired) == (set id | id in done && !(id in next && next[id] == current[id]) ::
          current[id].handle)
      {
        var id :| id in ids;
        if id !in next || next[id] != current[id] { retired := retired + [current[id]]; }
        ids, done := ids - {id}, done + {id};
      }
    }

    // ---------- rollback, commit, start, shutdown ----------

    /** What a prepared change may find: the tables it was prepared for, or everything shut down meanwhile. */
    ghost predicate Committable(r: Reconcile, was: map<nat, Addr>)
      reads this
    {
      Sockets() &&
      if started then Prepared(r, dedicated, shared, was, open) && Splits(r, dedicated, shared)
        && was.Keys == Serving(dedicated, shared)
      else dedicated == map[] && shared.None? && open.Keys == StartedHandles(r)
    }

    /** rollback: close what was opened, and nothing else. */
    method Rollback(r: Reconcile, ghost was: map<nat, Addr>)
      requires Committable(r, was)
      modifies `open
      ensures open == old(open) - StartedHandles(r) && Settled()
      ensures started ==> open == was
    {
      hide Exclusive, Splits, Published, Prepared, Serving;
      StaysExclusive(open, issued, StartedHandles(r));
      NothingPublished(map[]);
      NothingServes();
      if started { ClosingUndoes(r, dedicated, shared, was, open); }
      ghost var rest := open - StartedHandles(r);
      assert !started ==> rest == map[];
      CloseAll(r.started);
      CloseShared(r.sharedStarted);
      assert open == rest;
    }

    /** commit: publish the next tables and close what is retired, unless the listeners were shut down. */
    method Commit(r: Reconcile, ghost was: map<nat, Addr>)
      requires Committable(r, was)
      modifies `dedicated, `shared, `open
      ensures Settled()
      ensures started ==> dedicated == r.next && shared == r.sharedNext
      ensures !started ==> open == map[]
    {
      if started { Replace(r, was); } else { Discard(r, was); }
    }

    method Discard(r: Reconcile, ghost was: map<nat, Addr>)
      requires Committable(r, was) && !started
      modifies `open
      ensures Settled() && open == map[]
    {
      hide Exclusive, Splits, Prepared;
      Rollback(r, was);
      assert open.Keys == {};
    }

    /** What closing the retired listeners leaves open. */
    lemma CommitLeaves(r: Reconcile, was: map<nat, Addr>) returns (left: map<nat, Addr>)
      requires Committable(r, was) && started
      ensures left == open - Listed(r.retired) - Only(r.sharedRetired) && left.Keys == Serving(r.next, r.sharedNext)
      ensures Published(r.next, r.sharedNext, left) && Exclusive(left, issued)
    {
      hide Published, Serving, Listed, Only, Splits, Prepared, Exclusive;
      left := open - Listed(r.retired) - Only(r.sharedRetired);
      RetiredOnly(r, dedicated, shared, was, open);
      ClosingRetired(r, dedicated, shared, was, open, issued);
    }

    method Replace(r: Reconcile, ghost was: map<nat, Addr>)
      requires Committable(r, was) && started
      modifies `dedicated, `shared, `open
      ensures Settled() && dedicated == r.next && shared == r.sharedNext
    {
      hide Committable, Published, Exclusive, Serving, Listed, Only;
      ghost var left := CommitLeaves(r, was);
      dedicated, shared := r.next, r.sharedNext;
      CloseAll(r.retired);
      CloseShared(r.sharedRetired);
      assert open == left;
    }

    /** ShutdownProxyListeners: every published listener closes, whatever was prepared meanwhile. */
    method Shutdown()
      modifies `dedicated, `shared, `started, `open
      ensures !started && dedicated == map[] && shared.None?
      ensures open == old(open) - old(Serving(dedicated, shared))
    {
      var listeners, last := dedicated, shared;
      dedicated, shared, started := map[], None, false;
      var ids := listeners.Keys;
      ghost var closed: set<nat> := {};
      while ids != {}
        invariant ids <= listeners.Keys && open == old(open) - closed
        invariant closed <= Handles(listeners)
        invariant forall id | id in listeners && id !in ids :: listeners[id].handle in closed
        modifies `open
      {
        var id :| id in ids;
        Close(listeners[id].handle);
        ids, closed := ids - {id}, closed + {listeners[id].handle};
      }
      assert closed == Handles(listeners);
      CloseShared(last);
    }

    /** StartProxyListeners: all of them or none. */
    method Start(w: Wanted) returns (ok: bool)
      requires Settled()
      modifies this
      ensures Settled() && (ok ==> started)
      ensures old(started) ==>
        ok && open == old(open) && dedicated == old(dedicated) && shared == old(shared) && hosts == old(hosts)
      ensures ok && !old(started) ==> hosts == old(hosts) + Named(w)
      ensures old(faults) == [] ==> faults == []
      ensures ok && !old(started) ==> Serves(dedicated, shared, w)
      ensures !ok ==> !started && open == old(open)
      ensures old(faults) == [] && Available(old(dedicated), old(shared), old(open), w) ==> ok
    {
      if started { return true; }
      ghost var was := open;
      PublishedDistinct(dedicated, shared, open);
      var r := PrepareBoth(w);
      if r.None? { return false; }
      started, ok := true, true;
      Commit(r.value, was);
    }

    /** One reconfiguration of the listeners, shut down in between or not: nothing leaks and nothing is lost. */
    method Relisten(w: Wanted, interrupted: bool, abort: bool) returns (prepared: bool)
      requires Settled()
      modifies this
      ensures Settled() && started == (old(started) && !(prepared && interrupted))
      ensures (!prepared || abort) && started ==>
        open == old(open) && dedicated == old(dedicated) && shared == old(shared)
      ensures prepared && !abort && started ==> Serves(dedicated, shared, w)
      ensures !started ==> open == map[]
      ensures old(started) ==> hosts == old(hosts) || hosts == old(hosts) + Named(w)
      ensures old(started) && (prepared || Stays(old(shared), w)) ==> hosts == old(hosts) + Named(w)
      ensures !old(started) ==> hosts == old(hosts)
      ensures old(faults) == [] && Reassignable(old(dedicated), w) && SharedReplaceable(old(shared), w) ==>
        Available(old(dedicated), old(shared), old(open), w) ==> prepared
    {
      hide Published, Separate, Splits, Serves, Grown, Prepared;
      ghost var was := open;
      var r := Prepare(w);
      prepared := r.Some?;
      if !prepared { return; }
      ClosingUndoes(r.value, dedicated, shared, was, open);
      if interrupted { Shutdown(); }
      if abort { Rollback(r.value, was); } else { Commit(r.value, was); }
      NothingPublished(open);
    }
  }

  /** A change of names that is prepared and then rolled back: the sockets and tables are those from before, but the
      certificate keeps the new name. */
  method NamesStay() returns (l: Listeners, ghost before: set<string>)
    ensures fresh(l) && l.Settled() && l.started && l.shared.Some? && l.open.Keys == {l.shared.value.handle}
    ensures before == {"manager.localhost"} && l.hosts == before + {"second.localhost"}
  {
    l := new Listeners([]);
    var first := Wanted(map[], Some(SharedSpec("127.0.0.1:8443", "", "", false, true)), {"manager.localhost"});
    var begun := l.Start(first);
    before := l.hosts;
    var second := first.(hosts := {"manager.localhost", "second.localhost"});
    ghost var tables, sockets := (l.dedicated, l.shared), l.open;
    assert second.Dedicated() == {} && Stays(l.shared, second);
    var prepared := l.Relisten(second, false, true);
    assert prepared && (l.dedicated, l.shared) == tables && l.open == sockets;
  }
}
