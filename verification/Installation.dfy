/** The program directories of one Gateway installation: live, rollback and staging trees and the rename
    sequences that exchange them (gateway/gateway_install.go, shared_install.go, runtime_files.go). */
module Installation {
  import opened Basics

  type Name = string

  // The text of a YAML file: as shipped or written by the operator, or rewritten by an instance's patch.
  // A patch that failed half way is torn.
  datatype Content = Text(id: nat) | Patch(base: Content, owner: Name, torn: bool)

  datatype Tree = Tree(version: string, startup: bool, yamls: map<Name, Content>)

  // A downloaded or bundled tree: nobody has patched it yet.
  type Release = t: Tree | forall n | n in t.yamls :: t.yamls[n].Text? witness Tree("", false, map[])

  datatype Path = Live | Backup | Payload | Aside(id: nat)

  type Disk = map<Path, Tree>

  /** gatewayInstalled: the configuration and a startup file are there. */
  predicate Installed(disk: Disk, path: Path) {
    path in disk && Complete(disk[path])
  }

  /** What a download must contain to be installed. */
  predicate Complete(tree: Tree) {
    tree.startup && DEFAULT_CONF in tree.yamls
  }

  predicate Holds(disk: Disk, path: Path, tree: Tree) {
    path in disk && disk[path] == tree
  }

  /** The tree is still in one of the lasting places: live, rollback, or a swap's temporary. */
  ghost predicate Somewhere(disk: Disk, tree: Tree) {
    exists p: Path :: p != Payload && Holds(disk, p, tree)
  }

  lemma LastingPlace(disk: Disk, path: Path)
    requires path != Payload && path in disk
    ensures Somewhere(disk, disk[path])
  {
    assert Holds(disk, path, disk[path]);
  }

  /** Nothing moved outside the given paths. */
  ghost predicate SameElsewhere(a: Disk, b: Disk, changed: set<Path>) {
    forall p: Path | p !in changed :: (p in a <==> p in b) && (p in a ==> a[p] == b[p])
  }

  // ---------- YAML preservation ----------

  /** `now` is the file `n` as it was `before`, after any number of patches by the instance it belongs to. */
  predicate PatchedFrom(n: Name, now: Content, before: Content) {
    now == before || (now.Patch? && now.owner == n && PatchedFrom(n, now.base, before))
  }

  /** Every name stays, and its content moved only through patches by its own instance. */
  ghost predicate YamlKept(before: map<Name, Content>, now: map<Name, Content>) {
    forall n | n in before :: n in now && PatchedFrom(n, now[n], before[n])
  }

  lemma PatchedTransitive(n: Name, a: Content, b: Content, c: Content)
    requires PatchedFrom(n, a, b) && PatchedFrom(n, b, c)
    ensures PatchedFrom(n, a, c)
  {
    if a != b { PatchedTransitive(n, a.base, b, c); }
  }

  lemma YamlKeptTransitive(a: map<Name, Content>, b: map<Name, Content>, c: map<Name, Content>)
    requires YamlKept(a, b) && YamlKept(b, c)
    ensures YamlKept(a, c)
  {
    forall n | n in a ensures n in c && PatchedFrom(n, c[n], a[n]) {
      assert n in b;
      PatchedTransitive(n, c[n], b[n], a[n]);
    }
  }

  lemma OnePatched(first: map<Name, Content>, before: map<Name, Content>, n: Name, torn: bool)
    requires n in before && first - {n} == before - {n} && (n in first ==> first[n] == before[n])
    ensures YamlKept(first, before[n := Patch(before[n], n, torn)])
  {
    forall m | m in first && m != n ensures m in before && before[m] == first[m] {
      assert m in first - {n} && (first - {n})[m] == (before - {n})[m];
    }
    assert PatchedFrom(n, Patch(before[n], n, torn), before[n]);
  }

  /** No patch of the file was cut short. */
  predicate Unbroken(c: Content) {
    c.Patch? ==> !c.torn && Unbroken(c.base)
  }

  /** No file in any of the places was. */
  ghost predicate Whole(disk: Disk) {
    forall p, n | p in disk && n in disk[p].yamls :: Unbroken(disk[p].yamls[n])
  }

  /** Of the coming system calls the k-th fails. */
  predicate Fails(faults: seq<bool>, k: int) {
    0 <= k < |faults| && faults[k]
  }

  /** The next n of them work. */
  predicate Works(faults: seq<bool>, n: nat) {
    forall k | 0 <= k < n :: !Fails(faults, k)
  }

  function Later(faults: seq<bool>, n: nat): seq<bool> {
    if n <= |faults| then faults[n..] else []
  }

  lemma LaterFails(faults: seq<bool>, n: nat, k: nat)
    ensures Fails(Later(faults, n), k) == Fails(faults, n + k) && Later(Later(faults, n), k) == Later(faults, n + k)
    ensures Later(faults, 0) == faults
    ensures Works(faults, n + k) <==> Works(faults, n) && Works(Later(faults, n), k)
  {
    if n <= |faults| && k <= |faults| - n { assert faults[n..][k..] == faults[n + k..]; }
    forall i | 0 <= i < k ensures Fails(Later(faults, n), i) == Fails(faults, n + i) {}
    if Works(faults, n + k) {
      forall i | 0 <= i < k ensures !Fails(Later(faults, n), i) { assert !Fails(faults, n + i); }
    } else if Works(faults, n) {
      var i :| 0 <= i < n + k && Fails(faults, i);
      assert Fails(Later(faults, n), i - n);
    }
  }

  lemma NothingFails(n: nat)
    ensures Works([], n) && Later([], n) == []
  {}

  /** `rest` is what some calls left of the script. */
  predicate LeftOver(faults: seq<bool>, rest: seq<bool>) {
    |rest| <= |faults| && rest == faults[|faults| - |rest|..]
  }

  lemma LeavesLater(faults: seq<bool>, n: nat)
    ensures LeftOver(faults, Later(faults, n)) && LeftOver(faults, faults)
  {}

  lemma TwoCalls(faults: seq<bool>)
    ensures LeftOver(faults, Later(faults, 1)) && LeftOver(faults, Later(Later(faults, 1), 1))
  {
    LaterFails(faults, 1, 1);
    LeavesLater(faults, 1);
    LeavesLater(faults, 2);
  }

  lemma LeavesTogether(a: seq<bool>, b: seq<bool>, c: seq<bool>)
    requires LeftOver(a, b) && LeftOver(b, c)
    ensures LeftOver(a, c)
  {
    assert a[|a| - |b|..][|b| - |c|..] == a[|a| - |c|..];
  }

  /** The last or the last but one of the calls made in between failed. */
  predicate FailedLast(faults: seq<bool>, rest: seq<bool>) {
    LeftOver(faults, rest) && (Fails(faults, |faults| - |rest| - 1) || Fails(faults, |faults| - |rest| - 2))
  }

  lemma FailsLast(faults: seq<bool>, k: nat)
    requires Fails(faults, k)
    ensures FailedLast(faults, Later(faults, k + 1)) && FailedLast(faults, Later(faults, k + 2))
  {}

  lemma FailsLastLater(a: seq<bool>, b: seq<bool>, c: seq<bool>)
    requires LeftOver(a, b) && FailedLast(b, c)
    ensures FailedLast(a, c)
  {
    LeavesTogether(a, b, c);
  }

  /** The first n calls worked and are over. */
  predicate Past(first: seq<bool>, now: seq<bool>, n: nat) {
    Works(first, n) && now == Later(first, n)
  }

  lemma PastNothing(first: seq<bool>)
    ensures Past(first, first, 0)
  {
    LaterFails(first, 0, 0);
  }

  lemma PastNext(first: seq<bool>, now: seq<bool>, n: nat)
    requires Past(first, now, n)
    ensures Fails(now, 0) == Fails(first, n) && Later(now, 1) == Later(first, n + 1)
    ensures !Fails(now, 0) ==> Past(first, Later(now, 1), n + 1)
    ensures Fails(now, 0) ==> (forall m: nat | n < m :: !Works(first, m)) && FailedLast(first, Later(now, 1))
    ensures LeftOver(first, now) && LeftOver(first, Later(now, 1))
  {
    LaterFails(first, n, 0);
    LaterFails(first, n, 1);
    LeavesLater(first, n);
    LeavesLater(first, n + 1);
    if Fails(now, 0) { FailsLast(first, n); }
  }

  /** The YAML files there, if anything is. */
  function YamlsAt(disk: Disk, path: Path): map<Name, Content> {
    if path in disk then disk[path].yamls else map[]
  }

  /** The calls that carry over the live YAML files: the listing, and one for each. */
  function Copies(disk: Disk): nat {
    1 + |YamlsAt(disk, Live)|
  }

  /** The calls that prepare a staged tree: the files, perhaps a patch, the version and the permissions. */
  function Preparing(disk: Disk, own: Name): nat {
    Copies(disk) + (if own == DEFAULT_CONF then 1 else 0) + 2
  }

  /** The calls of an activation over a complete live tree fail so that it stays the rollback: both of its moves work,
      the payload or its permissions fail, and so does the way back. */
  predicate Unrestored(faults: seq<bool>) {
    Works(faults, 2) && Fails(faults, 3) && (Fails(faults, 2) || Fails(faults, 4) || Fails(faults, 5))
  }

  /** The program of that tree is there, whatever became of its YAML files. */
  predicate Keeps(disk: Disk, path: Path, tree: Tree) {
    path in disk && disk[path].version == tree.version && disk[path].startup == tree.startup
  }

  /** The shipped files under the live ones, with the default file patched if it is the instance's own. */
  function StagedYamls(shipped: map<Name, Content>, live: map<Name, Content>, own: Name): map<Name, Content> {
    var all := shipped + live;
    if own == DEFAULT_CONF && own in all then all[own := Patch(all[own], own, false)] else all
  }

  /** Every file is the live one or, where there is none, the shipped one; only the instance's own may be patched. */
  ghost predicate FromBoth(shipped: map<Name, Content>, live: map<Name, Content>, now: map<Name, Content>, own: Name) {
    forall n | n in now ::
      n == own == DEFAULT_CONF || (n in live && now[n] == live[n])
        || (n !in live && n in shipped && now[n] == shipped[n])
  }

  lemma StagedKept(shipped: map<Name, Content>, live: map<Name, Content>, own: Name)
    ensures YamlKept(live, StagedYamls(shipped, live, own))
    ensures FromBoth(shipped, live, StagedYamls(shipped, live, own), own)
  {}

  lemma TextIsWhole(id: nat)
    ensures Unbroken(Text(id))
  {}

  function WithFile(disk: Disk, path: Path, n: Name, c: Content): Disk
    requires path in disk
  {
    disk[path := disk[path].(yamls := disk[path].yamls[n := c])]
  }

  function WithPatch(disk: Disk, path: Path, n: Name, torn: bool): Disk
    requires path in disk && n in disk[path].yamls
  {
    WithFile(disk, path, n, Patch(disk[path].yamls[n], n, torn))
  }

  /** Nothing changed but the file n of the live tree, and that only from being missing or by its own patches. */
  ghost predicate OwnFileOnly(was: Disk, now: Disk, n: Name) {
    && Live in was && Keeps(now, Live, was[Live]) && SameElsewhere(was, now, {Live})
    && now[Live].yamls - {n} == was[Live].yamls - {n} && YamlKept(was[Live].yamls, now[Live].yamls)
  }

  lemma Untouched(was: Disk, n: Name)
    requires Live in was
    ensures OwnFileOnly(was, was, n)
  {}

  lemma Given(was: Disk, n: Name, now: Disk)
    requires Live in was && n !in was[Live].yamls
    requires Live in now && n in now[Live].yamls && now == WithFile(was, Live, n, now[Live].yamls[n])
    ensures OwnFileOnly(was, now, n)
  {
    assert now[Live].yamls - {n} == was[Live].yamls - {n};
  }

  lemma ConfPatched(was: Disk, between: Disk, n: Name, torn: bool)
    requires OwnFileOnly(was, between, n) && n in between[Live].yamls
    requires n in was[Live].yamls ==> between[Live].yamls[n] == was[Live].yamls[n]
    ensures Live in between && Live in WithPatch(between, Live, n, torn)
    ensures var now := WithPatch(between, Live, n, torn);
      && OwnFileOnly(was, now, n) && n in now[Live].yamls
      && now[Live].yamls[n] == Patch(between[Live].yamls[n], n, torn)
  {
    OnePatched(was[Live].yamls, between[Live].yamls, n, torn);
    assert WithPatch(between, Live, n, torn)[Live].yamls - {n} == between[Live].yamls - {n};
  }

  /** The files of the given names were copied over, the others are their owner's. */
  ghost predicate Copied(own: map<Name, Content>, now: map<Name, Content>, yamls: map<Name, Content>, done: set<Name>) {
    && done <= yamls.Keys && now.Keys == own.Keys + done
    && forall n | n in now :: now[n] == if n in done then yamls[n] else own[n]
  }

  /** The destination is being filled; the files count only while no copy failed. */
  ghost predicate Copying(first: Disk, now: Disk, destination: Path, yamls: map<Name, Content>, done: set<Name>,
    ok: bool)
  {
    && destination in first && destination in now && SameElsewhere(first, now, {destination})
    && Keeps(now, destination, first[destination])
    && (ok ==> Copied(first[destination].yamls, now[destination].yamls, yamls, done))
  }

  lemma CopiesNothing(disk: Disk, destination: Path, yamls: map<Name, Content>)
    requires destination in disk
    ensures Copying(disk, disk, destination, yamls, {}, true)
  {}

  lemma Started(first: Disk, now: Disk, destination: Path, yamls: map<Name, Content>, done: set<Name>)
    requires Copying(first, now, destination, yamls, done, true)
    ensures destination in now
  {}

  lemma CopiesOne(first: Disk, now: Disk, destination: Path, yamls: map<Name, Content>, done: set<Name>, n: Name,
    c: Content)
    requires Copying(first, now, destination, yamls, done, true) && n in yamls
    ensures var next := now[destination := now[destination].(yamls := now[destination].yamls[n := c])];
      Copying(first, next, destination, yamls, done + {n}, c == yamls[n])
      && Copying(first, next, destination, yamls, done + {n}, false)
  {}

  lemma GivesUp(first: Disk, now: Disk, destination: Path, yamls: map<Name, Content>, done: set<Name>, all: set<Name>)
    requires Copying(first, now, destination, yamls, done, false)
    ensures Copying(first, now, destination, yamls, all, false)
  {}

  lemma CopiesAll(own: map<Name, Content>, now: map<Name, Content>, yamls: map<Name, Content>)
    requires Copied(own, now, yamls, yamls.Keys)
    ensures now == own + yamls
  {}

  /** The calls of a swap: n copies, two renames that exchange, and two more. */
  lemma SwapCalls(faults: seq<bool>, n: nat)
    ensures Works(faults, n + 1) <==> Works(faults, n) && !Fails(faults, n)
    ensures Works(faults, n + 2) <==> Works(faults, n + 1) && !Fails(faults, n + 1)
    ensures forall k: nat | k < 4 :: Fails(Later(faults, n), k) == Fails(faults, n + k)
  {
    forall k: nat | k < 4 ensures Fails(Later(faults, n), k) == Fails(faults, n + k) { LaterFails(faults, n, k); }
  }

  /** One call after another. */
  lemma FourCalls(faults: seq<bool>)
    ensures var one := Later(faults, 1); var two := Later(one, 1); var three := Later(two, 1);
      && Fails(one, 0) == Fails(faults, 1) && Fails(two, 0) == Fails(faults, 2) && Fails(three, 0) == Fails(faults, 3)
      && two == Later(faults, 2) && three == Later(faults, 3) && Later(three, 1) == Later(faults, 4)
      && (faults == [] ==> one == [] && two == [] && three == [] && Later(three, 1) == [])
      && (faults == [] ==> forall k: nat | k < 4 :: !Fails(faults, k))
  {
    LaterFails(faults, 1, 0);
    LaterFails(faults, 1, 1);
    LaterFails(faults, 2, 0);
    LaterFails(faults, 2, 1);
    LaterFails(faults, 3, 0);
    LaterFails(faults, 3, 1);
  }

  /** What a swap whose files take n calls leaves of the script. */
  predicate SwapLeaves(first: seq<bool>, last: seq<bool>, n: nat, able: bool, ok: bool, exchanged: bool) {
    && LeftOver(first, last)
    && (ok ==> last == Later(first, n + 4))
    && (exchanged ==> LeftOver(Later(first, n + 2), last))
    && (able && !ok ==> FailedLast(first, last))
  }

  lemma CopiesFailed(first: seq<bool>, last: seq<bool>, n: nat, able: bool)
    requires LeftOver(first, last) && FailedLast(first, last)
    ensures SwapLeaves(first, last, n, able, false, false)
  {}

  lemma SwapLeavesLater(first: seq<bool>, last: seq<bool>, n: nat, able: bool, ok: bool, exchanged: bool)
    requires SwapLeaves(Later(first, n), last, 0, able, ok, exchanged)
    ensures SwapLeaves(first, last, n, able, ok, exchanged)
  {
    LeavesLater(first, n);
    LeavesTogether(first, Later(first, n), last);
    LaterFails(first, n, 4);
    LaterFails(first, n, 2);
    if able && !ok { FailsLastLater(first, Later(first, n), last); }
  }

  /** The ways an exchange can end, by its last call. */
  lemma ExchangeLeaves(faults: seq<bool>, had: bool)
    ensures Fails(faults, 0) || !had ==> SwapLeaves(faults, Later(faults, 1), 0, had, false, false)
    ensures Fails(faults, 1) ==> SwapLeaves(faults, Later(faults, 3), 0, had, false, false)
    ensures Fails(faults, 2) ==> SwapLeaves(faults, Later(faults, 3), 0, had, false, true)
    ensures SwapLeaves(faults, Later(faults, 4), 0, had, !Fails(faults, 3), true)
  {
    LeavesLater(faults, 1);
    LeavesLater(faults, 3);
    LeavesLater(faults, 4);
    LaterFails(faults, 2, 1);
    LaterFails(faults, 2, 2);
    LeavesLater(Later(faults, 2), 1);
    LeavesLater(Later(faults, 2), 2);
    if Fails(faults, 0) { FailsLast(faults, 0); }
    if Fails(faults, 1) { FailsLast(faults, 1); }
    if Fails(faults, 2) { FailsLast(faults, 2); }
    if Fails(faults, 3) { FailsLast(faults, 3); }
  }

  lemma PastMeans(first: seq<bool>, now: seq<bool>, n: nat)
    requires Past(first, now, n)
    ensures Works(first, n) && now == Later(first, n) && LeftOver(first, now)
  {
    LeavesLater(first, n);
  }

  lemma FailedMeans(faults: seq<bool>, rest: seq<bool>)
    requires FailedLast(faults, rest)
    ensures LeftOver(faults, rest)
  {}

  /** A listing, then n copies. */
  lemma ListingFirst(faults: seq<bool>, n: nat)
    ensures Works(faults, 1 + n) <==> !Fails(faults, 0) && Works(Later(faults, 1), n)
    ensures Later(Later(faults, 1), n) == Later(faults, 1 + n) && Works(Later(faults, 1), 0)
    ensures LeftOver(faults, Later(faults, 1)) && (Fails(faults, 0) ==> FailedLast(faults, Later(faults, 1)))
    ensures forall rest | LeftOver(Later(faults, 1), rest) :: LeftOver(faults, rest)
    ensures faults == [] ==> Later(faults, 1) == [] && Later(faults, 1 + n) == [] && Works(faults, 1 + n)
  {
    LaterFails(faults, 1, n);
    LeavesLater(faults, 1);
    if Fails(faults, 0) { FailsLast(faults, 0); }
    forall rest | LeftOver(Later(faults, 1), rest) ensures LeftOver(faults, rest) {
      LeavesTogether(faults, Later(faults, 1), rest);
    }
    assert Works(faults, 1) <==> !Fails(faults, 0);
  }

  lemma PreparingSame(a: Disk, b: Disk, own: Name)
    requires SameElsewhere(a, b, {Payload})
    ensures Preparing(a, own) == Preparing(b, own)
  {}

  lemma WorksOnce(faults: seq<bool>)
    ensures Works(faults, 0) && (Works(faults, 1) <==> !Fails(faults, 0))
  {}

  /** The calls of a preparation: n that carry the files over, perhaps one patch, and two more. */
  lemma PreparingCalls(faults: seq<bool>, n: nat, own: Name)
    ensures var k, after := if own == DEFAULT_CONF then 1 else 0, Later(faults, n);
      && (Works(faults, n + k + 2) <==>
            Works(faults, n) && (k == 1 ==> !Fails(after, 0)) && Works(Later(after, k), 2))
      && Later(Later(after, k), 2) == Later(faults, n + k + 2)
      && (k == 0 ==> Later(after, k) == after)
      && LeftOver(faults, faults) && LeftOver(faults, after) && LeftOver(faults, Later(after, 1))
      && (forall rest | LeftOver(Later(after, k), rest) :: LeftOver(faults, rest))
      && (faults == [] ==> Works(faults, n + k + 2) && Later(faults, n + k + 2) == [])
  {
    var k, after := if own == DEFAULT_CONF then 1 else 0, Later(faults, n);
    LaterFails(faults, n, k);
    LaterFails(faults, n + k, 2);
    LaterFails(after, 0, 0);
    LaterFails(faults, n, 1);
    LeavesLater(faults, n);
    LeavesLater(faults, n + 1);
    LeavesLater(faults, n + k);
    WorksOnce(after);
    if faults == [] {
      NothingFails(n + k + 2);
      NothingFails(n);
    }
    hide Works, Later, Fails, LeftOver;
    forall rest | LeftOver(Later(after, k), rest) ensures LeftOver(faults, rest) {
      LeavesTogether(faults, Later(faults, n + k), rest);
    }
  }

  /** What the second half of an activation says and leaves, when the rollback holds the tree from before or not. */
  predicate PutBack(first: seq<bool>, last: seq<bool>, hadLive: bool, occupied: bool, ok: bool, restored: bool) {
    && LeftOver(first, last) && (ok ==> last == Later(first, 2))
    && (ok <==> !occupied && Works(first, 2))
    && (restored <==>
          !(hadLive && Fails(first, 1) && (Fails(first, 0) || Fails(first, 2) || Fails(first, 3))))
  }

  /** What an activation says and leaves: it succeeds exactly if its moves work, and loses the live place exactly if
      the way back fails too. */
  predicate Activated(first: seq<bool>, last: seq<bool>, installed: bool, occupied: bool, ok: bool, restored: bool) {
    && LeftOver(first, last) && (ok ==> last == Later(first, if installed then 4 else 2))
    && (ok <==> if installed then Works(first, 4) else !occupied && Works(first, 2))
    && (restored <==> !(installed && Unrestored(first)))
  }

  /** What installing a download says and leaves: it becomes live exactly if it is complete, the live place holds a
      complete tree or none, and every call of preparing and activating it works. */
  ghost predicate Released(was: Disk, own: Name, staged: Option<Release>, first: seq<bool>, last: seq<bool>, ok: bool,
    restored: bool)
  {
    var n, able, installed := Preparing(was, own), staged.Some? && Complete(staged.value), Installed(was, Live);
    && LeftOver(first, last) && (ok ==> last == Later(first, n + if installed then 4 else 2))
    && (ok <==> able && Works(first, n)
                && if installed then Works(Later(first, n), 4) else Live !in was && Works(Later(first, n), 2))
    && (restored <==> !(able && installed && Works(first, n) && Unrestored(Later(first, n))))
  }

  lemma ReleasedLater(was: Disk, own: Name, release: Release, first: seq<bool>, last: seq<bool>, ok: bool,
    restored: bool)
    requires Complete(release) && Works(first, Preparing(was, own))
    requires Activated(Later(first, Preparing(was, own)), last, Installed(was, Live), Live in was, ok, restored)
    ensures Released(was, own, Some(release), first, last, ok, restored)
  {
    var n := Preparing(was, own);
    LeavesLater(first, n);
    LeavesTogether(first, Later(first, n), last);
    LaterFails(first, n, if Installed(was, Live) then 4 else 2);
  }

  lemma NothingReleased(was: Disk, own: Name, staged: Option<Release>, faults: seq<bool>)
    ensures staged.None? ==> Released(was, own, staged, faults, faults, false, true)
  {}

  /** A download that could not be prepared. */
  lemma NotPrepared(was: Disk, own: Name, release: Release, first: seq<bool>)
    ensures !(Complete(release) && Works(first, Preparing(was, own))) ==>
      forall last | LeftOver(first, last) :: Released(was, own, Some(release), first, last, false, true)
  {}

  lemma MovesFail(faults: seq<bool>, had: bool)
    ensures Fails(faults, 0) ==> Activated(faults, Later(faults, 1), true, had, false, true)
    ensures Fails(faults, 0) ==> Activated(faults, Later(faults, 2), true, had, false, true)
    ensures Fails(faults, 1) ==> Activated(faults, Later(faults, 2), true, had, false, true)
    ensures Later(Later(faults, 1), 1) == Later(faults, 2) && Fails(Later(faults, 1), 0) == Fails(faults, 1)
    ensures Works(faults, 2) <==> !Fails(faults, 0) && !Fails(faults, 1)
    ensures faults == [] ==> Later(faults, 2) == [] && Works(faults, 2)
  {
    LaterFails(faults, 1, 0);
    LaterFails(faults, 1, 1);
    LeavesLater(faults, 1);
    LeavesLater(faults, 2);
  }

  lemma PutAfterMoves(first: seq<bool>, last: seq<bool>, had: bool, ok: bool, restored: bool)
    requires Works(first, 2) && PutBack(Later(first, 2), last, true, false, ok, restored)
    ensures Activated(first, last, true, had, ok, restored)
  {
    LeavesLater(first, 2);
    LeavesTogether(first, Later(first, 2), last);
    LaterFails(first, 2, 0);
    LaterFails(first, 2, 1);
    LaterFails(first, 2, 2);
    LaterFails(first, 2, 3);
  }

  lemma PutAlone(first: seq<bool>, last: seq<bool>, had: bool, ok: bool, restored: bool)
    requires PutBack(first, last, false, had, ok, restored)
    ensures Activated(first, last, false, had, ok, restored)
  {}

  /** The ways the second half can end, by its last call. */
  lemma PutLeaves(faults: seq<bool>, hadLive: bool, occupied: bool)
    requires hadLive ==> !occupied
    ensures (Fails(faults, 0) || occupied) && !hadLive ==>
      PutBack(faults, Later(faults, 1), hadLive, occupied, false, true)
    ensures Fails(faults, 0) && hadLive ==>
      PutBack(faults, Later(faults, 2), hadLive, occupied, false, !Fails(faults, 1))
    ensures !Fails(faults, 0) && !occupied && !Fails(faults, 1) ==>
      PutBack(faults, Later(faults, 2), hadLive, occupied, true, true)
    ensures Fails(faults, 1) && !hadLive ==> PutBack(faults, Later(faults, 2), hadLive, occupied, false, true)
    ensures forall last | LeftOver(faults, last) && !Fails(faults, 0) && Fails(faults, 1) && hadLive ::
      PutBack(faults, last, hadLive, occupied, false, !Fails(faults, 2) && !Fails(faults, 3))
  {
    LeavesLater(faults, 1);
    LeavesLater(faults, 2);
  }

  lemma TwoMore(faults: seq<bool>)
    ensures var rest := Later(faults, 2);
      && Fails(rest, 0) == Fails(faults, 2) && (!Fails(rest, 0) ==> Fails(Later(rest, 1), 0) == Fails(faults, 3))
      && LeftOver(faults, Later(Later(rest, 1), 1)) && LeftOver(faults, Later(Later(rest, 2), 1))
      && (rest == [] ==> !Fails(faults, 2) && !Fails(faults, 3) && Later(rest, 1) == [])
  {
    LaterFails(faults, 2, 0);
    LaterFails(faults, 2, 1);
    LaterFails(faults, 3, 0);
    LaterFails(faults, 3, 1);
    LaterFails(faults, 2, 2);
    LaterFails(faults, 4, 1);
    LeavesLater(faults, 4);
    LeavesLater(faults, 5);
  }

  // ---------- what a completed swap means ----------

  function WithConfigs(tree: Tree, yamls: map<Name, Content>): Tree {
    tree.(yamls := tree.yamls + yamls)
  }

  /** A completed swap: the rollback tree, carrying the live YAML files, becomes live and the live tree the rollback. */
  function Swapped(live: Tree, backup: Tree): (Tree, Tree) {
    (WithConfigs(backup, live.yamls), live)
  }

  /** Two completed swaps bring both versions back, the live YAML files unchanged; the rollback's own files come
      along. */
  lemma TwoSwapsRestore(live: Tree, backup: Tree)
    ensures var once := Swapped(live, backup); var twice := Swapped(once.0, once.1);
      && twice.0 == live.(yamls := backup.yamls + live.yamls)
      && twice.1 == backup.(yamls := backup.yamls + live.yamls)
  {
    assert live.yamls + (backup.yamls + live.yamls) == backup.yamls + live.yamls;
  }

  // ---------- the directories ----------

  class ProgramTrees {
    var disk: Disk
    // Which system calls will fail, in order; after the end of the list none does.
    var faults: seq<bool>
    var asides: nat
    // The program tree an operation must not lose, and whether it was ever in none of the lasting places.
    ghost var watched: Tree
    ghost var lost: bool
    // How often a live tree was moved away, and whether a patch was ever cut short.
    ghost var displaced: nat
    ghost var torn: bool
    // Nothing fails on this disk, from the beginning on.
    ghost const sound: bool

    ghost predicate Valid()
      reads this
    {
      Payload !in disk && (forall n: nat | n >= asides :: Aside(n) !in disk) && Healthy()
    }

    /** A file is broken only if a write failed. */
    ghost predicate Healthy()
      reads `disk, `faults, `torn
    {
      (!torn ==> Whole(disk)) && (sound ==> faults == [] && !torn)
    }

    /** A complete installation, on a disk where nothing fails. */
    ghost predicate Ready()
      reads this
    {
      faults == [] && Installed(disk, Live)
    }

    constructor (disk: Disk, asides: nat, faults: seq<bool>)
      requires Payload !in disk && (forall n: nat | n >= asides :: Aside(n) !in disk) && Whole(disk)
      ensures Valid() && this.disk == disk && this.faults == faults && !torn && displaced == 0
        && (sound <==> faults == [])
    {
      this.disk, this.faults, this.asides := disk, faults, asides;
      this.watched, this.lost, this.displaced, this.torn := Tree("", false, map[]), false, 0, false;
      this.sound := faults == [];
    }

    /** Whether the next system call fails. */
    method Fault() returns (fails: bool)
      modifies `faults
      ensures fails == Fails(old(faults), 0) && faults == Later(old(faults), 1)
      ensures old(faults) == [] ==> !fails && faults == []
      ensures old(Healthy()) ==> Healthy()
    {
      fails := faults != [] && faults[0];
      faults := if faults == [] then [] else faults[1..];
    }

    method Rename(from: Path, to: Path) returns (ok: bool)
      requires Healthy()
      modifies `faults, `disk, `lost, `displaced
      ensures Healthy()
      ensures displaced == old(displaced) + if ok && from == Live then 1 else 0
      ensures ok ==> from in old(disk) && to !in old(disk) && disk == (old(disk) - {from})[to := old(disk)[from]]
      ensures !ok ==> disk == old(disk)
      ensures ok <==> !Fails(old(faults), 0) && from in old(disk) && to !in old(disk)
      ensures faults == Later(old(faults), 1)
      ensures lost == (old(lost) || !Somewhere(disk, watched))
    {
      var fails := Fault();
      ok := !fails && from in disk && to !in disk;
      if ok {
        disk := (disk - {from})[to := disk[from]];
        if from == Live { displaced := displaced + 1; }
      }
      lost := lost || !Somewhere(disk, watched);
    }

    /** os.RemoveAll; when it fails the tree may be partly gone. */
    method RemoveAll(path: Path) returns (ok: bool)
      requires Healthy()
      modifies `faults, `disk, `lost
      ensures Healthy()
      ensures ok ==> disk == old(disk) - {path}
      ensures SameElsewhere(old(disk), disk, {path}) && (!ok ==> (path in disk <==> path in old(disk)))
      ensures old(faults) == [] ==> faults == [] && ok
      ensures ok == !Fails(old(faults), 0) && LeftOver(old(faults), faults)
      ensures faults == Later(old(faults), 1) || (!ok && faults == Later(old(faults), 2))
      ensures lost == (old(lost) || !Somewhere(disk, watched))
    {
      LaterFails(faults, 1, 1);
      LeavesLater(faults, 1);
      LeavesLater(faults, 2);
      var fails := Fault();
      ok := !fails;
      if ok {
        disk := disk - {path};
      } else if path in disk {
        var partly := Fault();
        if partly { disk := disk[path := Tree(disk[path].version, false, map[])]; }
      }
      lost := lost || !Somewhere(disk, watched);
    }

    lemma FileWhole(path: Path, n: Name)
      requires Healthy() && path in disk && n in disk[path].yamls
      ensures !torn ==> Unbroken(disk[path].yamls[n])
    {}

    method WriteFile(path: Path, n: Name, c: Content)
      requires Healthy() && path in disk && (!torn ==> Unbroken(c))
      modifies `disk
      ensures Healthy() && disk == WithFile(old(disk), path, n, c)
    {
      disk := WithFile(disk, path, n, c);
    }

    /** patchGatewayConf rewrites the file in place, so a failed write leaves it broken. */
    method PatchFile(path: Path, n: Name) returns (ok: bool)
      requires Healthy() && path in disk && n in disk[path].yamls
      modifies `disk, `faults, `torn
      ensures Healthy() && torn == (old(torn) || !ok) && (old(faults) == [] ==> faults == [] && ok)
      ensures faults == Later(old(faults), 1)
      ensures disk == WithPatch(old(disk), path, n, !ok)
      ensures !ok ==> !Unbroken(disk[path].yamls[n])
    {
      var short := Fault();
      ok, torn := !short, torn || short;
      FileWhole(path, n);
      disk := WithPatch(disk, path, n, short);
    }

    /** preserveGatewayConfigs: copy every YAML file over, one by one; a failed copy leaves a truncated file. */
    method PreserveConfigs(source: Path, destination: Path) returns (ok: bool)
      requires Healthy() && destination in disk && source != destination
      requires source in disk ==> source != Payload && Holds(disk, source, watched)
      modifies `faults, `disk, `lost
      ensures Healthy() && lost == old(lost)
      ensures destination in disk && SameElsewhere(old(disk), disk, {destination})
      ensures Keeps(disk, destination, old(disk)[destination])
      ensures ok ==>
        disk[destination].yamls == old(disk)[destination].yamls + YamlsAt(old(disk), source)
      ensures var n := 1 + |YamlsAt(old(disk), source)|;
        (ok <==> Works(old(faults), n)) && (ok ==> faults == Later(old(faults), n))
      ensures LeftOver(old(faults), faults) && (!ok ==> FailedLast(old(faults), faults))
      ensures old(faults) == [] ==> faults == [] && ok
    {
      hide Whole, Unbroken, Healthy, Works, Later, Fails, Copied, LeftOver, FailedLast, Past;
      ghost var n := |YamlsAt(disk, source)|;
      ListingFirst(faults, n);
      var unlisted := Fault();
      ok := !unlisted;
      if unlisted || source !in disk { return; }
      ok := CopyFiles(source, destination);
      if ok {
        CopiesAll(old(disk)[destination].yamls, disk[destination].yamls, watched.yamls);
      } else {
        FailsLastLater(old(faults), Later(old(faults), 1), faults);
      }
    }

    method CopyFiles(source: Path, destination: Path) returns (ok: bool)
      requires Healthy() && destination in disk && source != destination
      requires source != Payload && Holds(disk, source, watched)
      modifies `faults, `disk, `lost
      ensures Healthy() && lost == old(lost)
      ensures Copying(old(disk), disk, destination, watched.yamls, watched.yamls.Keys, ok)
      ensures (ok <==> Works(old(faults), |watched.yamls|)) && (ok ==> faults == Later(old(faults), |watched.yamls|))
      ensures LeftOver(old(faults), faults) && (!ok ==> FailedLast(old(faults), faults))
    {
      hide Healthy, Works, Later, Fails, Copied, Copying, LeftOver, FailedLast, Past;
      var names := disk[source].yamls.Keys;
      ghost var done: set<Name>, copied: nat := {}, 0;
      assert |names| == |watched.yamls|;
      CopiesNothing(disk, destination, watched.yamls);
      PastNothing(faults);
      ok := true;
      while names != {} && ok
        invariant names <= watched.yamls.Keys && (ok ==> done == watched.yamls.Keys - names)
        invariant Healthy() && lost == old(lost) && Holds(disk, source, watched)
        invariant Copying(old(disk), disk, destination, watched.yamls, done, ok)
        invariant copied + |names| == |watched.yamls|
        invariant ok ==> Past(old(faults), faults, copied)
        invariant !ok ==> !Works(old(faults), |watched.yamls|) && FailedLast(old(faults), faults)
      {
        var n :| n in names;
        PastNext(old(faults), faults, copied);
        ok := CopyFile(source, destination, n, old(disk), done);
        names, done, copied := names - {n}, done + {n}, copied + 1;
      }
      if ok {
        PastMeans(old(faults), faults, copied);
      } else {
        FailedMeans(old(faults), faults);
        GivesUp(old(disk), disk, destination, watched.yamls, done, watched.yamls.Keys);
      }
    }

    method CopyFile(source: Path, destination: Path, n: Name, ghost first: Disk, ghost done: set<Name>)
      returns (ok: bool)
      requires Healthy() && source != Payload && source != destination && Holds(disk, source, watched)
      requires n in watched.yamls && Copying(first, disk, destination, watched.yamls, done, true)
      modifies `faults, `disk, `lost
      ensures Healthy() && lost == old(lost) && Holds(disk, source, watched)
      ensures ok == !Fails(old(faults), 0) && faults == Later(old(faults), 1)
      ensures Copying(first, disk, destination, watched.yamls, done + {n}, ok)
    {
      hide Whole, Unbroken, Healthy, Fails, Later, Copying;
      Started(first, disk, destination, watched.yamls, done);
      var fails := Fault();
      var content := if fails then Text(0) else disk[source].yamls[n];
      FileWhole(source, n);
      TextIsWhole(0);
      ghost var before := disk;
      WriteFile(destination, n, content);
      assert Holds(disk, source, watched);
      lost := lost || !Somewhere(disk, watched);
      ok := !fails;
      CopiesOne(first, before, destination, watched.yamls, done, n, content);
    }

    /** activateStagedGateway, with the compensating renames. `restored` says whether, after a failure,
        the live tree is the one from before; only a failed compensation leaves it in the rollback place. */
    method Activate() returns (ok: bool, restored: bool)
      requires Healthy() && Payload in disk && (Live in disk ==> watched == disk[Live]) && !lost
      modifies `faults, `disk, `lost, `displaced
      ensures Healthy()
      ensures old(displaced) <= displaced <= old(displaced) + if Installed(old(disk), Live) then 1 else 0
      ensures ok ==> Holds(disk, Live, old(disk)[Payload]) && Payload !in disk
      ensures ok && Installed(old(disk), Live) ==> Holds(disk, Backup, old(disk)[Live])
      ensures Installed(old(disk), Live) && !ok ==> Holds(disk, if restored then Live else Backup, old(disk)[Live])
      ensures SameElsewhere(old(disk), disk,
        if Installed(old(disk), Live) then {Live, Backup, Payload} else {Live, Payload})
      ensures !Installed(old(disk), Live) && Live in old(disk) ==> !ok && restored && Holds(disk, Live, old(disk)[Live])
      ensures Live in old(disk) ==> !lost
      ensures Activated(old(faults), faults, Installed(old(disk), Live), Live in old(disk), ok, restored)
      ensures old(faults) == [] ==>
        faults == [] && restored && (ok <==> Installed(old(disk), Live) || Live !in old(disk))
    {
      ghost var installed, had := Installed(disk, Live), Live in disk;
      MovesFail(faults, had);
      hide Healthy, Fails, Later, LeftOver, Works, Unrestored, PutBack, Activated;
      var hadLive := Installed(disk, Live);
      ok, restored := false, true;
      if hadLive {
        var removed := RemoveAll(Backup);
        assert Holds(disk, Live, watched) && Somewhere(disk, watched);
        if !removed { return; }
        var moved := Rename(Live, Backup);
        assert Holds(disk, if moved then Backup else Live, watched) && Somewhere(disk, watched);
        if !moved { return; }
      }
      ghost var between := faults;
      ok, restored := PutLive(hadLive);
      if installed {
        PutAfterMoves(old(faults), faults, had, ok, restored);
      } else {
        PutAlone(old(faults), faults, had, ok, restored);
      }
    }

    /** The second half of the activation: the payload becomes live, or the backup again. */
    method PutLive(hadLive: bool) returns (ok: bool, restored: bool)
      requires Healthy() && Payload in disk && !lost
      requires if hadLive then Live !in disk && Holds(disk, Backup, watched) else Live in disk ==>
        Holds(disk, Live, watched)
      modifies `faults, `disk, `lost, `displaced
      ensures Healthy() && displaced == old(displaced)
      ensures ok ==> Holds(disk, Live, old(disk)[Payload]) && Payload !in disk
      ensures hadLive ==> Holds(disk, if ok || !restored then Backup else Live, watched)
      ensures SameElsewhere(old(disk), disk, if hadLive then {Live, Backup, Payload} else {Live, Payload})
      ensures !hadLive && Live in old(disk) ==> !ok && restored && Holds(disk, Live, old(disk)[Live])
      ensures hadLive || Live in old(disk) ==> !lost
      ensures PutBack(old(faults), faults, hadLive, Live in old(disk), ok, restored)
      ensures old(faults) == [] ==> faults == [] && restored && (ok <==> Live !in old(disk))
    {
      FourCalls(faults);
      PutLeaves(faults, hadLive, Live in disk);
      hide Healthy, Fails, Later, LeftOver, Works, PutBack;
      ghost var stays := hadLive || Live in disk;
      restored := true;
      ok := Rename(Payload, Live);
      assert stays ==> Holds(disk, if hadLive then Backup else Live, watched) && Somewhere(disk, watched);
      if !ok {
        if hadLive { restored := GoLive(); }
        return;
      }
      var insecure := Fault();
      if insecure {
        ok := false;
        if hadLive { restored := TakeBack(old(faults)); }
      }
    }

    /** Remove what was put live, and bring the backup back. */
    method TakeBack(ghost first: seq<bool>) returns (ok: bool)
      requires Healthy() && Holds(disk, Backup, watched) && Live in disk && !lost && faults == Later(first, 2)
      modifies `faults, `disk, `lost, `displaced
      ensures Healthy() && !lost && displaced == old(displaced) && Holds(disk, if ok then Live else Backup, watched)
      ensures SameElsewhere(old(disk), disk, {Live, Backup})
      ensures (ok <==> !Fails(first, 2) && !Fails(first, 3)) && LeftOver(first, faults)
      ensures old(faults) == [] ==> faults == [] && ok
    {
      TwoMore(first);
      hide Healthy, Fails, Later, LeftOver;
      var _ := RemoveAll(Live);
      assert Holds(disk, Backup, watched) && Somewhere(disk, watched);
      ok := GoLive();
    }

    /** The compensating rename. */
    method GoLive() returns (ok: bool)
      requires Healthy() && Holds(disk, Backup, watched) && !lost
      modifies `faults, `disk, `lost, `displaced
      ensures Healthy() && !lost && displaced == old(displaced) && Holds(disk, if ok then Live else Backup, watched)
      ensures SameElsewhere(old(disk), disk, {Live, Backup}) && (ok <==> !Fails(old(faults), 0) && Live !in old(disk))
      ensures faults == Later(old(faults), 1) && (old(faults) == [] ==> faults == [])
    {
      hide Healthy;
      ok := Rename(Backup, Live);
      assert Holds(disk, if ok then Live else Backup, watched) && Somewhere(disk, watched);
    }

    /** swapWithRollback. Its last two steps may fail with the versions already exchanged; `exchanged` says whether
        they are. */
    method Swap() returns (ok: bool, exchanged: bool)
      requires Valid()
      modifies this
      ensures Valid()
      ensures ok ==> exchanged && Live in old(disk) && Backup in old(disk) && Live in disk && Backup in disk &&
                     (disk[Live], disk[Backup]) == Swapped(old(disk)[Live], old(disk)[Backup])
      ensures exchanged ==> Live in old(disk) && Backup in old(disk) &&
                            Holds(disk, Live, WithConfigs(old(disk)[Backup], old(disk)[Live].yamls))
      ensures !exchanged && Live in disk ==> Holds(old(disk), Live, disk[Live])
      ensures Installed(old(disk), Backup) && exchanged ==> Installed(disk, Live)
      ensures Live in old(disk) ==> watched == old(disk)[Live] && !lost && Somewhere(disk, watched)
      ensures old(faults) == [] ==> faults == [] && (ok <==> Live in old(disk) && Installed(old(disk), Backup))
      ensures old(faults) == [] && !ok ==> !exchanged && (Live in old(disk) ==> Live in disk)
      ensures var n := Copies(old(disk));
        && (exchanged <==> Live in old(disk) && Installed(old(disk), Backup) && Works(old(faults), n + 2))
        && (ok <==> exchanged && !Fails(old(faults), n + 2) && !Fails(old(faults), n + 3))
        && (Live in old(disk) && Live !in disk <==>
              Live in old(disk) && Installed(old(disk), Backup)
              && Works(old(faults), n + 1) && Fails(old(faults), n + 1) && Fails(old(faults), n + 2))
      ensures !exchanged && Backup in old(disk) ==> Keeps(disk, Backup, old(disk)[Backup])
      ensures !exchanged && Live in old(disk) && Live !in disk ==> Holds(disk, Aside(old(asides)), old(disk)[Live])
      ensures exchanged && !ok ==>
        Holds(disk, Backup, old(disk)[Live]) || Holds(disk, Aside(old(asides)), old(disk)[Live])
      ensures SwapLeaves(old(faults), faults, Copies(old(disk)),
        Live in old(disk) && Installed(old(disk), Backup), ok, exchanged)
      ensures displaced <= old(displaced) + if Live in old(disk) then 1 else 0
      ensures exchanged ==> displaced == old(displaced) + 1
    {
      ghost var n := Copies(disk);
      SwapCalls(faults, n);
      LeavesLater(faults, 0);
      assert SwapLeaves(faults, faults, n, false, false, false);
      hide Works, Later, Fails, Healthy, Copies, LeftOver, FailedLast, SwapLeaves;
      ok, exchanged := false, false;
      StartWatching();
      if !Installed(disk, Backup) { return; }
      ok, exchanged := CopyAndExchange(n);
    }

    /** The live tree is the one not to lose. */
    method StartWatching()
      requires Valid()
      modifies `watched, `lost
      ensures Valid() && !lost && (Live in disk ==> watched == disk[Live] && Somewhere(disk, watched))
    {
      lost := false;
      if Live in disk { watched := disk[Live]; }
      assert Live in disk ==> Holds(disk, Live, watched);
    }

    /** The files first, then the renames. */
    method CopyAndExchange(ghost n: nat) returns (ok: bool, exchanged: bool)
      requires Valid() && Installed(disk, Backup) && !lost && (Live in disk ==> watched == disk[Live])
        && n == Copies(disk)
      modifies `disk, `faults, `asides, `lost, `displaced
      ensures Valid() && (Live in old(disk) ==> !lost && Somewhere(disk, watched))
      ensures exchanged <==>
        Live in old(disk) && Works(old(faults), n) && !Fails(Later(old(faults), n), 0)
        && !Fails(Later(old(faults), n), 1)
      ensures ok <==> exchanged && !Fails(Later(old(faults), n), 2) && !Fails(Later(old(faults), n), 3)
      ensures Live in old(disk) && Live !in disk <==>
        Live in old(disk) && Works(old(faults), n) && !Fails(Later(old(faults), n), 0)
        && Fails(Later(old(faults), n), 1) && Fails(Later(old(faults), n), 2)
      ensures exchanged ==> Holds(disk, Live, WithConfigs(old(disk)[Backup], old(disk)[Live].yamls))
      ensures ok ==> Holds(disk, Backup, old(disk)[Live])
      ensures !exchanged && Live in disk ==> Holds(old(disk), Live, disk[Live])
      ensures !exchanged ==> Keeps(disk, Backup, old(disk)[Backup])
      ensures !exchanged && Live in old(disk) && Live !in disk ==> Holds(disk, Aside(old(asides)), old(disk)[Live])
      ensures exchanged && !ok ==>
        Holds(disk, Backup, old(disk)[Live]) || Holds(disk, Aside(old(asides)), old(disk)[Live])
      ensures displaced <= old(displaced) + if Live in old(disk) then 1 else 0
      ensures exchanged ==> displaced == old(displaced) + 1
      ensures old(faults) == [] ==> faults == [] && (ok <==> Live in old(disk))
      ensures SwapLeaves(old(faults), faults, n, Live in old(disk), ok, exchanged)
    {
      NothingFails(n);
      hide Works, Later, Fails, Healthy, Somewhere, LeftOver, FailedLast, SwapLeaves;
      ok, exchanged := false, false;
      var preserved := PreserveConfigs(Live, Backup);
      if Live in disk { LastingPlace(disk, Live); }
      if preserved {
        ok, exchanged := Exchange();
        SwapLeavesLater(old(faults), faults, n, Live in old(disk), ok, exchanged);
      } else {
        CopiesFailed(old(faults), faults, n, Live in old(disk));
      }
    }

    /** The three renames of a swap; the temporary place is new. When the third rename or the step after it fails,
        the versions are exchanged all the same. */
    method Exchange() returns (ok: bool, exchanged: bool)
      requires Valid() && Backup in disk && (Live in disk ==> watched == disk[Live]) && !lost
      modifies `disk, `faults, `asides, `lost, `displaced
      ensures displaced <= old(displaced) + if Live in old(disk) then 1 else 0
      ensures exchanged ==> displaced == old(displaced) + 1
      ensures Valid() && (Live in old(disk) ==> !lost && Somewhere(disk, watched))
      ensures exchanged ==> Live in old(disk) && Holds(disk, Live, old(disk)[Backup])
      ensures ok ==> exchanged && Holds(disk, Backup, old(disk)[Live])
      ensures !exchanged && Live in disk ==> Holds(old(disk), Live, disk[Live])
      ensures old(faults) == [] ==> faults == [] && (ok <==> Live in old(disk))
      ensures exchanged <==> Live in old(disk) && !Fails(old(faults), 0) && !Fails(old(faults), 1)
      ensures Live in old(disk) && Live !in disk <==>
        Live in old(disk) && !Fails(old(faults), 0) && Fails(old(faults), 1) && Fails(old(faults), 2)
      ensures !exchanged ==> Holds(disk, Backup, old(disk)[Backup])
      ensures !exchanged && Live in old(disk) && Live !in disk ==> Holds(disk, Aside(old(asides)), old(disk)[Live])
      ensures exchanged && !ok ==>
        Holds(disk, Backup, old(disk)[Live]) || Holds(disk, Aside(old(asides)), old(disk)[Live])
      ensures ok <==> exchanged && !Fails(old(faults), 2) && !Fails(old(faults), 3)
      ensures old(faults) == [] && !ok ==> !exchanged && Live !in old(disk)
      ensures SwapLeaves(old(faults), faults, 0, Live in old(disk), ok, exchanged)
    {
      ExchangeLeaves(faults, Live in disk);
      hide Healthy, Fails, Later, LeftOver, FailedLast, SwapLeaves;
      ok, exchanged := false, false;
      ghost var had := Live in disk;
      assert had ==> Holds(disk, Live, watched) && Somewhere(disk, watched);
      FourCalls(faults);
      var temporary := Aside(asides);
      asides := asides + 1;
      var moved := Rename(Live, temporary);
      assert had ==> Holds(disk, if moved then temporary else Live, watched) && Somewhere(disk, watched);
      if !moved { return; }
      exchanged := Rename(Backup, Live);
      assert Holds(disk, temporary, watched) && Somewhere(disk, watched);
      if !exchanged {
        var restored := Rename(temporary, Live);
        assert Holds(disk, if restored then Live else temporary, watched) && Somewhere(disk, watched);
        return;
      }
      moved := Rename(temporary, Backup);
      assert Holds(disk, if moved then Backup else temporary, watched) && Somewhere(disk, watched);
      if !moved { return; }
      var insecure := Fault();
      ok := !insecure;
    }

    /** prepareStagedGateway and activateStagedGateway for a download that may have failed.
        `own` is the configuration file of the instance that installs. */
    method InstallRelease(staged: Option<Release>, version: string, own: Name)
      returns (ok: bool, restored: bool)
      requires Valid()
      modifies this
      ensures Valid()
      ensures ok ==> Installed(disk, Live) && disk[Live].version == version
      ensures ok && Installed(old(disk), Live) ==> Holds(disk, Backup, old(disk)[Live])
      ensures ok && Live in old(disk) ==> YamlKept(old(disk)[Live].yamls, disk[Live].yamls)
      ensures !ok && Live in old(disk) ==> Holds(disk, if restored then Live else Backup, old(disk)[Live])
      ensures !Installed(old(disk), Live) ==>
        SameElsewhere(old(disk), disk, {Live}) && (Live in old(disk) ==> !ok && restored)
      ensures Live in old(disk) ==> watched == old(disk)[Live] && !lost
      ensures Released(old(disk), own, staged, old(faults), faults, ok, restored)
      ensures staged.None? ==> !ok && disk == old(disk)
      ensures old(faults) == [] ==> faults == [] && restored
      ensures old(faults) == [] && staged.Some? && Complete(staged.value) ==>
        (Live in old(disk) ==> Installed(old(disk), Live)) ==> ok
      ensures old(displaced) <= displaced <= old(displaced) + if Installed(old(disk), Live) then 1 else 0
    {
      if Live in disk { watched := disk[Live]; }
      lost, ok, restored := false, false, true;
      NothingReleased(disk, own, staged, faults);
      hide Works, Later, Fails, LeftOver, Activated, Released, Healthy, YamlKept;
      if staged.Some? { ok, restored := Stage(staged.value, version, own); }
      assert old(Live in disk) ==> Holds(disk, if ok || !restored then Backup else Live, watched);
    }

    /** Prepare the download in its staging place and activate it; the place is emptied in any case. */
    method Stage(release: Release, version: string, own: Name) returns (ok: bool, restored: bool)
      requires Valid() && !lost && (Live in disk ==> watched == disk[Live])
      modifies `faults, `disk, `lost, `displaced
      ensures Valid()
      ensures ok ==> Installed(disk, Live) && disk[Live].version == version
      ensures ok && Installed(old(disk), Live) ==> Holds(disk, Backup, old(disk)[Live])
      ensures ok && Live in old(disk) ==> YamlKept(old(disk)[Live].yamls, disk[Live].yamls)
      ensures !ok && Live in old(disk) ==> Holds(disk, if restored then Live else Backup, old(disk)[Live])
      ensures !Installed(old(disk), Live) ==>
        SameElsewhere(old(disk), disk, {Live}) && (Live in old(disk) ==> !ok && restored)
      ensures Live in old(disk) ==> !lost
      ensures Released(old(disk), own, Some(release), old(faults), faults, ok, restored)
      ensures old(faults) == [] ==>
        faults == [] && restored && (Complete(release) ==>
          (Live in old(disk) ==> Installed(old(disk), Live)) ==> ok)
      ensures old(displaced) <= displaced <= old(displaced) + if Installed(old(disk), Live) then 1 else 0
    {
      hide Works, Later, Fails, LeftOver, Activated, Released, YamlKept, Preparing, Healthy;
      NotPrepared(disk, own, release, faults);
      ghost var was := disk;
      Download(release);
      PreparingSame(was, disk, own);
      ok, restored := false, true;
      var prepared := Prepare(version, own);
      if prepared { ok, restored := ActivateStaged(was, own, release, old(faults)); }
      Unstage();
    }

    method ActivateStaged(ghost was: Disk, ghost own: Name, ghost release: Release, ghost first: seq<bool>)
      returns (ok: bool, restored: bool)
      requires Healthy() && Installed(disk, Payload) && (Live in disk ==> watched == disk[Live]) && !lost
      requires SameElsewhere(was, disk, {Payload}) && Complete(release)
      requires Works(first, Preparing(was, own)) && faults == Later(first, Preparing(was, own))
      modifies `faults, `disk, `lost, `displaced
      ensures Healthy()
      ensures old(displaced) <= displaced <= old(displaced) + if Installed(was, Live) then 1 else 0
      ensures ok ==> Holds(disk, Live, old(disk)[Payload])
      ensures ok && Installed(was, Live) ==> Holds(disk, Backup, was[Live])
      ensures Installed(was, Live) && !ok ==> Holds(disk, if restored then Live else Backup, was[Live])
      ensures SameElsewhere(was, disk, if Installed(was, Live) then {Live, Backup, Payload} else {Live, Payload})
      ensures !Installed(was, Live) && Live in was ==> !ok && restored && Holds(disk, Live, was[Live])
      ensures Live in was ==> !lost
      ensures Released(was, own, Some(release), first, faults, ok, restored)
      ensures old(faults) == [] ==> faults == [] && restored && (ok <==> Installed(was, Live) || Live !in was)
    {
      hide Works, Later, Fails, LeftOver, Activated, Released, Preparing, Healthy;
      ok, restored := Activate();
      ReleasedLater(was, own, release, first, faults, ok, restored);
    }

    /** A download is there as a whole or not at all. */
    method Download(release: Release)
      requires Healthy()
      modifies `disk
      ensures Healthy() && disk == old(disk)[Payload := release]
    {
      disk := disk[Payload := release];
    }

    method Unstage()
      requires Healthy()
      modifies `disk
      ensures Healthy() && disk == old(disk) - {Payload}
    {
      disk := disk - {Payload};
    }

    method Prepare(version: string, own: Name) returns (ok: bool)
      requires Healthy() && Payload in disk && (Live in disk ==> Holds(disk, Live, watched))
      modifies `faults, `disk, `lost
      ensures Healthy()
      ensures Payload in disk && SameElsewhere(old(disk), disk, {Payload}) && lost == old(lost)
      ensures disk[Payload].startup == old(disk)[Payload].startup
      ensures old(faults) == [] ==> faults == [] && (ok <== Installed(old(disk), Payload))
      ensures ok <==> Installed(old(disk), Payload) && Works(old(faults), Preparing(old(disk), own))
      ensures LeftOver(old(faults), faults) && (ok ==> faults == Later(old(faults), Preparing(old(disk), own)))
      ensures ok ==> Installed(disk, Payload) && disk[Payload].version == version
      ensures ok && Live in disk ==> YamlKept(disk[Live].yamls, disk[Payload].yamls)
      ensures ok ==> FromBoth(old(disk)[Payload].yamls, YamlsAt(disk, Live), disk[Payload].yamls, own)
    {
      PreparingCalls(faults, Copies(disk), own);
      hide Healthy, Works, Later, Fails, LeftOver, YamlKept, FromBoth, StagedYamls, Copies;
      ok := Installed(disk, Payload);
      if !ok { return; }
      StagedKept(disk[Payload].yamls, YamlsAt(disk, Live), own);
      ok := CarryFiles(own);
      if ok { ok := FinishStaged(version); }
    }

    /** The live YAML files over the shipped ones, and the default one patched if the installing instance uses it. */
    method CarryFiles(own: Name) returns (ok: bool)
      requires Healthy() && Installed(disk, Payload) && (Live in disk ==> Holds(disk, Live, watched))
      modifies `faults, `disk, `lost
      ensures Healthy() && SameElsewhere(old(disk), disk, {Payload}) && lost == old(lost)
      ensures Payload in disk && Keeps(disk, Payload, old(disk)[Payload]) && (ok ==> Installed(disk, Payload))
      ensures ok ==> disk[Payload].yamls == StagedYamls(old(disk)[Payload].yamls, YamlsAt(disk, Live), own)
      ensures var n, k := Copies(old(disk)), if own == DEFAULT_CONF then 1 else 0;
        && (ok <==> Works(old(faults), n) && (k == 1 ==> !Fails(Later(old(faults), n), 0)))
        && (ok ==> faults == Later(Later(old(faults), n), k))
      ensures LeftOver(old(faults), faults) && (old(faults) == [] ==> faults == [] && ok)
    {
      PreparingCalls(faults, Copies(disk), own);
      hide Healthy, Works, Later, Fails, LeftOver, FailedLast;
      ok := PreserveConfigs(Live, Payload);
      if ok && own == DEFAULT_CONF { ok := PatchStaged(); }
    }

    /** The installing instance uses the default file: it is patched before anybody sees it. */
    method PatchStaged() returns (ok: bool)
      requires Healthy() && Installed(disk, Payload)
      modifies `faults, `disk
      ensures Healthy() && (old(faults) == [] ==> faults == [] && ok)
      ensures (ok <==> !Fails(old(faults), 0)) && faults == Later(old(faults), 1)
      ensures disk == if ok then WithPatch(old(disk), Payload, DEFAULT_CONF, false) else old(disk)
    {
      var failed := Fault();
      if failed { return false; }
      FileWhole(Payload, DEFAULT_CONF);
      WriteFile(Payload, DEFAULT_CONF, Patch(disk[Payload].yamls[DEFAULT_CONF], DEFAULT_CONF, false));
      ok := true;
    }

    /** Write the version and secure the tree. */
    method FinishStaged(version: string) returns (ok: bool)
      requires Healthy() && Payload in disk
      modifies `faults, `disk
      ensures Healthy() && (old(faults) == [] ==> faults == [] && ok)
      ensures (ok <==> Works(old(faults), 2)) && LeftOver(old(faults), faults)
        && (ok ==> faults == Later(old(faults), 2))
      ensures disk == old(disk) || disk == old(disk)[Payload := old(disk)[Payload].(version := version)]
      ensures ok ==> disk == old(disk)[Payload := old(disk)[Payload].(version := version)]
    {
      LeavesLater(faults, 1);
      LeavesLater(faults, 2);
      MovesFail(faults, false);
      hide Fails, Later, LeftOver, Works, Healthy;
      var unwritten := Fault();
      if unwritten { return false; }
      WriteVersion(version);
      var insecure := Fault();
      ok := !insecure;
    }

    method WriteVersion(version: string)
      requires Healthy() && Payload in disk
      modifies `disk
      ensures Healthy() && disk == old(disk)[Payload := old(disk)[Payload].(version := version)]
    {
      disk := disk[Payload := disk[Payload].(version := version)];
    }

    /** ensureGatewayConf: give the instance its own file, then patch that file and no other. */
    method EnsureConf(own: Name) returns (ok: bool)
      requires Valid() && Live in disk
      modifies `faults, `disk, `torn
      ensures Valid() && Live in disk && SameElsewhere(old(disk), disk, {Live})
      ensures disk[Live].version == old(disk)[Live].version && disk[Live].startup == old(disk)[Live].startup
      ensures YamlKept(old(disk)[Live].yamls, disk[Live].yamls)
      ensures disk[Live].yamls - {own} == old(disk)[Live].yamls - {own}
      ensures ok ==>
        own in disk[Live].yamls && disk[Live].yamls[own].Patch? && !disk[Live].yamls[own].torn && torn == old(torn)
      ensures torn && !old(torn) ==> own in disk[Live].yamls && !Unbroken(disk[Live].yamls[own])
      ensures old(faults) == [] ==> faults == [] && (ok <== DEFAULT_CONF in old(disk)[Live].yamls)
      ensures LeftOver(old(faults), faults)
    {
      hide Healthy, Unbroken, LeftOver, YamlKept;
      ok := GiveAndPatch(own);
    }

    method GiveAndPatch(own: Name) returns (ok: bool)
      requires Healthy() && Live in disk
      modifies `faults, `disk, `torn
      ensures Healthy() && OwnFileOnly(old(disk), disk, own) && LeftOver(old(faults), faults)
      ensures ok ==>
        own in disk[Live].yamls && disk[Live].yamls[own].Patch? && !disk[Live].yamls[own].torn && torn == old(torn)
      ensures torn && !old(torn) ==> own in disk[Live].yamls && !Unbroken(disk[Live].yamls[own])
      ensures old(faults) == [] ==> faults == [] && (ok <== DEFAULT_CONF in old(disk)[Live].yamls)
    {
      LeavesLater(faults, 0);
      hide Healthy, Fails, Later, LeftOver, OwnFileOnly, WithFile, WithPatch;
      Untouched(disk, own);
      if own !in disk[Live].yamls {
        if DEFAULT_CONF !in disk[Live].yamls { return false; }
        ok := GiveConf(own);
        Given(old(disk), own, disk);
        if !ok { return; }
      }
      ghost var between, rest := disk, faults;
      ok := PatchConf(own);
      LeavesTogether(old(faults), rest, faults);
      ConfPatched(old(disk), between, own, !ok);
    }

    /** patchGatewayConf: read the instance's own file, and write it back. */
    method PatchConf(own: Name) returns (ok: bool)
      requires Healthy() && Live in disk && own in disk[Live].yamls
      modifies `faults, `disk, `torn
      ensures Healthy() && LeftOver(old(faults), faults) && (old(faults) == [] ==> faults == [] && ok)
      ensures (!ok && disk == old(disk) && torn == old(torn))
        || (torn == (old(torn) || !ok) && disk == WithPatch(old(disk), Live, own, !ok))
    {
      TwoCalls(faults);
      hide Whole, Unbroken, Healthy, Fails, Later, LeftOver, WithPatch, WithFile;
      var unread := Fault();
      if unread { return false; }
      ok := PatchFile(Live, own);
    }

    /** The instance's own file starts as a copy of the default one. */
    method GiveConf(own: Name) returns (ok: bool)
      requires Healthy() && Live in disk && DEFAULT_CONF in disk[Live].yamls
      modifies `faults, `disk
      ensures Healthy() && LeftOver(old(faults), faults) && (old(faults) == [] ==> faults == [] && ok)
      ensures Live in disk && own in disk[Live].yamls
      ensures disk == WithFile(old(disk), Live, own, disk[Live].yamls[own])
    {
      LeavesLater(faults, 1);
      hide Healthy, Fails, Later, LeftOver;
      var failed := Fault();
      ok := !failed;
      FileWhole(Live, DEFAULT_CONF);
      TextIsWhole(0);
      WriteFile(Live, own, if failed then Text(0) else disk[Live].yamls[DEFAULT_CONF]);
    }

    /** Any sequence of installs, swaps and configuration patches, by any instances, with any failures: every
        YAML file that ever was in the live tree still is, changed only by patches of the instance it belongs to,
        and unbroken unless one of these patches was cut short. The sequence stops when a compensating rename or
        removal failed; then the last live tree, files included, is in a lasting place. */
    method Maintain(commands: seq<Command>) returns (intact: bool)
      requires Valid() && Live in disk
      modifies this
      ensures Valid()
      ensures intact ==> Live in disk && YamlKept(old(disk)[Live].yamls, disk[Live].yamls)
      ensures !intact ==> Somewhere(disk, watched) && YamlKept(old(disk)[Live].yamls, watched.yamls)
      ensures !torn ==> forall n | n in old(disk)[Live].yamls ::
        Unbroken(if intact then disk[Live].yamls[n] else watched.yamls[n])
      ensures sound ==> intact && !torn
    {
      intact := true;
      for i := 0 to |commands|
        invariant Valid() && intact && Live in disk
        invariant YamlKept(old(disk)[Live].yamls, disk[Live].yamls)
      {
        ghost var before := disk[Live].yamls;
        match commands[i] {
          case Install(staged, version, own) =>
            var ok, restored := InstallRelease(staged, version, own);
            intact := ok || restored;
            assert !intact ==> Holds(disk, Backup, watched);
          case Swap =>
            var _, _ := Swap();
            intact := Live in disk;
            assert intact ==> YamlKept(before, disk[Live].yamls);
          case Configure(own) =>
            var _ := EnsureConf(own);
        }
        if !intact { return; }
        YamlKeptTransitive(old(disk)[Live].yamls, before, disk[Live].yamls);
      }
    }
  }

  datatype Command = Install(staged: Option<Release>, version: string, own: Name) | Swap | Configure(own: Name)
}
