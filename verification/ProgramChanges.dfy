/** What starting, upgrading and rolling back do to the program trees, over several steps. */
module ProgramChanges {
  import opened Basics
  import opened Installation
  import Protocol = SessionProtocol

  /** The live program is the same, its YAML files kept, and nothing else was touched. */
  ghost predicate SameProgram(before: Disk, now: Disk) {
    && SameElsewhere(before, now, {Live})
    && (Live in before ==> Keeps(now, Live, before[Live]) && YamlKept(before[Live].yamls, now[Live].yamls))
  }

  lemma SameProgramTransitive(a: Disk, b: Disk, c: Disk)
    requires SameProgram(a, b) && SameProgram(b, c)
    ensures SameProgram(a, c)
  {
    if Live in a {
      YamlKeptTransitive(a[Live].yamls, b[Live].yamls, c[Live].yamls);
    }
  }

  lemma PatchKeeps(before: Disk, now: Disk)
    requires Live in before && Live in now && SameElsewhere(before, now, {Live})
    requires now[Live].version == before[Live].version && now[Live].startup == before[Live].startup
    requires YamlKept(before[Live].yamls, now[Live].yamls)
    ensures SameProgram(before, now) && (Installed(before, Live) ==> Installed(now, Live))
  {}

  lemma SameProgramReflexive(a: Disk)
    ensures SameProgram(a, a)
  {}

  // How an upgrade or a rollback ended. Unfinished: the versions are exchanged, but the step after it failed.
  // Stuck: the way back failed.
  datatype Change = Declined | Aborted | Active | Unfinished | Reverted | Stuck

  /** The moment after a start that failed: the trees, and which of the coming file operations fail. */
  datatype Trial = Trial(disk: Disk, faults: seq<bool>)

  /** The file operations of the way back work: those that carry over the live YAML files and the two renames that
      bring the rollback to the live place. */
  ghost predicate WayBack(t: Trial) {
    Works(t.faults, Copies(t.disk) + 2)
  }

  /** The second rename of a swap and the one that compensates it fail: nothing is live. */
  predicate Stranding(faults: seq<bool>, n: nat) {
    Works(faults, n + 1) && Fails(faults, n + 1) && Fails(faults, n + 2)
  }

  /** How a version was settled, between the first and the last file operation. `trial` lies in between; after it only
      the way back was made, which works exactly if the version is not stuck. */
  ghost predicate Settled(was: Disk, first: seq<bool>, last: seq<bool>, change: Change, trial: Trial) {
    && LeftOver(first, trial.faults) && LeftOver(trial.faults, last)
    && (change == Active ==> trial.faults == last)
    && (Installed(was, Live) && change == Reverted ==>
          WayBack(trial) && LeftOver(Later(trial.faults, Copies(trial.disk) + 2), last))
    && (Installed(was, Live) && change == Stuck ==> !WayBack(trial) && FailedLast(trial.faults, last))
  }

  /** How an upgrade of a complete installation ends, by the file operations it makes: the exchange fails, fails for
      good, or is made; and after that it is stuck only if the last or the last but one operation failed. */
  ghost predicate UpgradeCourse(was: Disk, own: Name, staged: Option<Release>, first: seq<bool>, last: seq<bool>,
    change: Change)
  {
    var n, able := Preparing(was, own), staged.Some? && Complete(staged.value);
    Installed(was, Live) ==>
      if able && Works(first, n) && Works(Later(first, n), 4) then
        change in {Active, Reverted, Stuck} && (change == Stuck ==> FailedLast(Later(first, n + 4), last))
      else
        change == if able && Works(first, n) && Unrestored(Later(first, n)) then Stuck else Aborted
  }

  /** How a rollback ends, in the same way. */
  ghost predicate RollbackCourse(was: Disk, first: seq<bool>, last: seq<bool>, change: Change) {
    var n := Copies(was);
    if !Exchangeable(was) then change == Aborted
    else if Works(first, n + 4) then
      && change in {Active, Reverted, Stuck}
      && (Installed(was, Live) && change == Stuck ==> FailedLast(Later(first, n + 4), last))
    else
      change == if Works(first, n + 2) then Unfinished else if Stranding(first, n) then Stuck else Aborted
  }

  /** Where no file operation fails, no change of a complete installation is stuck. */
  lemma SoundDiskReverts(was: Disk, own: Name, staged: Option<Release>, first: seq<bool>, last: seq<bool>,
    change: Change)
    requires Installed(was, Live) && change == Stuck
    requires UpgradeCourse(was, own, staged, first, last, change) || RollbackCourse(was, first, last, change)
    ensures exists k: nat :: Fails(first, k)
  {
    if forall k: nat :: !Fails(first, k) {
      NoneOfTheRest(first, Preparing(was, own));
      NoneOfTheRest(first, Preparing(was, own) + 4);
      NoneOfTheRest(first, Copies(was) + 4);
    }
  }

  lemma NoneOfTheRest(first: seq<bool>, n: nat)
    requires forall k: nat :: !Fails(first, k)
    ensures Works(first, n) && forall k: int :: !Fails(Later(first, n), k)
  {
    forall k: int ensures !Fails(Later(first, n), k) {
      if k >= 0 { LaterFails(first, n, k); }
    }
  }

  lemma SettledUpgrade(was: Disk, own: Name, staged: Option<Release>, first: seq<bool>, middle: seq<bool>,
    last: seq<bool>, restored: bool, change: Change, trial: Trial)
    requires Released(was, own, staged, first, middle, true, restored) && change in {Active, Reverted, Stuck}
    requires Settled(was, middle, last, change, trial)
    ensures UpgradeCourse(was, own, staged, first, last, change)
  {
    if Installed(was, Live) && change == Stuck { FailsLastLater(middle, trial.faults, last); }
  }

  lemma AbortedUpgrade(was: Disk, own: Name, staged: Option<Release>, first: seq<bool>, middle: seq<bool>,
    last: seq<bool>, restored: bool)
    requires Released(was, own, staged, first, middle, false, restored)
    ensures UpgradeCourse(was, own, staged, first, last, if restored then Aborted else Stuck)
  {
    var n := Preparing(was, own);
    if Unrestored(Later(first, n)) { UnrestoredFails(Later(first, n)); }
  }

  lemma UnrestoredFails(faults: seq<bool>)
    requires Unrestored(faults)
    ensures !Works(faults, 4)
  {}

  /** There is a live tree, complete or not, and a complete rollback. */
  predicate Exchangeable(disk: Disk) {
    Live in disk && Installed(disk, Backup)
  }

  lemma WayBackMeans(disk: Disk, faults: seq<bool>)
    ensures WayBack(Trial(disk, faults)) <==> Works(faults, Copies(disk) + 2)
  {}

  lemma SwapIsOver(was: Disk, first: seq<bool>, last: seq<bool>)
    requires SwapLeaves(first, last, Copies(was), Exchangeable(was), true, true)
    ensures last == Later(first, Copies(was) + 4)
  {}

  lemma FourMore(faults: seq<bool>, n: nat)
    ensures Works(faults, n + 4) <==> Works(faults, n + 2) && !Fails(faults, n + 2) && !Fails(faults, n + 3)
  {}

  lemma ReleaseLeaves(was: Disk, own: Name, staged: Option<Release>, first: seq<bool>, last: seq<bool>, ok: bool,
    restored: bool)
    requires Released(was, own, staged, first, last, ok, restored)
    ensures LeftOver(first, last)
  {}

  /** A swap, and a start if it completed. */
  lemma SwapThenStart(first: seq<bool>, middle: seq<bool>, last: seq<bool>, n: nat, able: bool, ok: bool,
    exchanged: bool)
    requires SwapLeaves(first, middle, n, able, ok, exchanged) && LeftOver(middle, last) && (!ok ==> last == middle)
    ensures LeftOver(first, last) && (exchanged ==> LeftOver(Later(first, n + 2), last))
    ensures able && !ok ==> FailedLast(first, last)
  {
    LeavesTogether(first, middle, last);
    if exchanged { LeavesTogether(Later(first, n + 2), middle, last); }
  }

  /** A swap that did not complete. */
  lemma RefusedRollback(was: Disk, first: seq<bool>, last: seq<bool>, live: bool, exchanged: bool)
    requires var n, able := Copies(was), Exchangeable(was);
      && !(able && Works(first, n + 4)) && (exchanged <==> able && Works(first, n + 2))
      && (Live in was && !live <==> able && Stranding(first, n)) && (live ==> Live in was)
    ensures RollbackCourse(was, first, last,
      if exchanged then Unfinished else if live || Live !in was then Aborted else Stuck)
  {
    if Stranding(first, Copies(was)) { StrandingFails(first, Copies(was)); }
  }

  lemma StrandingFails(faults: seq<bool>, n: nat)
    requires Stranding(faults, n)
    ensures !Works(faults, n + 2)
  {}

  lemma SettledRollback(was: Disk, first: seq<bool>, middle: seq<bool>, last: seq<bool>, change: Change, trial: Trial)
    requires Exchangeable(was) && Works(first, Copies(was) + 4)
    requires middle == Later(first, Copies(was) + 4) && change in {Active, Reverted, Stuck}
    requires Settled(was, middle, last, change, trial)
    ensures RollbackCourse(was, first, last, change)
  {
    if Installed(was, Live) && change == Stuck { FailsLastLater(middle, trial.faults, last); }
  }

  /** A program that is still in one of the lasting places, whatever became of its YAML files. */
  ghost predicate Retained(disk: Disk, tree: Tree) {
    exists p: Path :: p != Payload && Keeps(disk, p, tree)
  }

  /** A tree that a swap had to leave in its temporary place. */
  ghost predicate SetAside(disk: Disk, tree: Tree) {
    exists n: nat :: Holds(disk, Aside(n), tree)
  }

  lemma AsideKept(disk: Disk, tree: Tree)
    requires SetAside(disk, tree)
    ensures Retained(disk, tree)
  {
    var n: nat :| Holds(disk, Aside(n), tree);
    assert Keeps(disk, Aside(n), tree);
  }

  lemma KeptAt(disk: Disk, path: Path, tree: Tree)
    requires path != Payload && Keeps(disk, path, tree)
    ensures Retained(disk, tree)
  {}

  lemma SameRetained(disk: Disk, tree: Tree, other: Tree)
    requires Retained(disk, tree) && tree.version == other.version && tree.startup == other.startup
    ensures Retained(disk, other)
  {
    var p: Path :| p != Payload && Keeps(disk, p, tree);
    assert Keeps(disk, p, other);
  }

  lemma RollbackStays(before: Disk, now: Disk, tree: Tree)
    requires SameProgram(before, now) && Holds(before, Backup, tree)
    ensures Keeps(now, Backup, tree)
  {}

  /** A first installation: an incomplete live tree is left alone. */
  lemma FirstInstalled(before: Disk, now: Disk)
    requires SameElsewhere(before, now, {Live}) && (Live in before ==> Holds(now, Live, before[Live]))
    ensures SameProgram(before, now)
  {}

  /** A start loses no program. */
  lemma StartKeeps(before: Disk, now: Disk, tree: Tree)
    requires Retained(before, tree) && SameProgram(before, now)
    ensures Retained(now, tree)
  {
    var p: Path :| p != Payload && Keeps(before, p, tree);
    assert Keeps(now, p, tree);
  }

  /** The live program is the one from before; its YAML files are all there, patched by their own instances only. */
  ghost predicate Resumed(was: Disk, now: Disk) {
    Live in was ==> Keeps(now, Live, was[Live]) && YamlKept(was[Live].yamls, now[Live].yamls)
  }

  /** The rollback's program is live, with every YAML file the live tree had. */
  ghost predicate WentBack(was: Disk, now: Disk) {
    && Live in was && Backup in was
    && Keeps(now, Live, was[Backup]) && YamlKept(was[Live].yamls, now[Live].yamls)
  }

  /** Another version is live with all the YAML files, and the tree from before is the rollback. */
  ghost predicate Exchanged(was: Disk, now: Disk) {
    && Live in now
    && (Live in was ==>
          && Holds(now, Backup, was[Live])
          && YamlKept(was[Live].yamls, now[Live].yamls))
  }

  lemma StillExchanged(was: Disk, installed: Disk, tried: Disk)
    requires Exchanged(was, installed) && SameProgram(installed, tried)
    ensures Exchanged(was, tried)
    ensures Live in tried && (Installed(was, Live) ==> Installed(tried, Backup))
  {
    if Live in was {
      YamlKeptTransitive(was[Live].yamls, installed[Live].yamls, tried[Live].yamls);
    }
  }

  lemma AbortResumed(was: Disk, installed: Disk, now: Disk)
    requires SameProgram(installed, now)
    requires Live in was ==> Holds(installed, Live, was[Live])
    ensures Resumed(was, now)
  {}

  /** What an upgrade to `release` that ended as `change` did to the trees. When it is stuck the version from before
      is the rollback. */
  ghost predicate Upgraded(was: Disk, now: Disk, release: string, change: Change) {
    && change != Unfinished
    && (change == Declined ==> now == was)
    && (change == Active ==> Installed(now, Live) && now[Live].version == release)
    && (change == Active ==> Exchanged(was, now))
    && (change == Aborted || change == Reverted ==> Resumed(was, now))
    && (change == Stuck && Live in was ==> Keeps(now, Backup, was[Live]))
  }

  /** An upgrade may end in any way and never loses the program that was live. */
  lemma UpgradeLosesNothing(was: Disk, now: Disk, release: string, change: Change)
    requires Upgraded(was, now, release, change) && Live in was
    ensures Retained(now, was[Live])
  {
    KeptAt(now, if change in {Stuck, Active} then Backup else Live, was[Live]);
  }

  /** What a rollback that ended as `change` did to the trees. When it is stuck, either the version from before is the
      rollback, or it was set aside, nothing is live and the rollback is where it was. */
  ghost predicate RolledBack(was: Disk, now: Disk, change: Change) {
    && (change == Declined ==> now == was)
    && (change == Aborted ==> Resumed(was, now) && (Backup in was ==> Keeps(now, Backup, was[Backup])))
    && (change == Reverted ==> Resumed(was, now) && (Backup in was ==> Retained(now, was[Backup])))
    && (change == Active ==> WentBack(was, now) && Exchanged(was, now))
    && (change == Unfinished ==> WentBack(was, now) && (Holds(now, Backup, was[Live]) || SetAside(now, was[Live])))
    && (change == Stuck ==> Live in was && Backup in was && StuckBetween(was, now))
  }

  ghost predicate StuckBetween(was: Disk, now: Disk)
    requires Live in was && Backup in was
  {
    || (Keeps(now, Backup, was[Live]) && Retained(now, was[Backup]))
    || (Live !in now && SetAside(now, was[Live]) && Keeps(now, Backup, was[Backup]))
  }

  /** A rollback may end in any way and never loses either program. */
  lemma RollbackLosesNothing(was: Disk, now: Disk, change: Change)
    requires RolledBack(was, now, change)
    ensures Live in was ==> Retained(now, was[Live])
    ensures Backup in was ==> Retained(now, was[Backup])
  {
    if Live in was {
      if SetAside(now, was[Live]) { AsideKept(now, was[Live]); }
      else { KeptAt(now, if change in {Active, Unfinished, Stuck} then Backup else Live, was[Live]); }
    }
    if Backup in was && !Retained(now, was[Backup]) {
      KeptAt(now, if change in {Active, Unfinished} then Live else Backup, was[Backup]);
    }
  }

  lemma NowUpgraded(was: Disk, installed: Disk, now: Disk, release: string, change: Change)
    requires change == Aborted || change == Reverted ==> Resumed(was, now)
    requires change == Active ==> Exchanged(was, now) && SameProgram(installed, now)
    requires change == Active ==> Installed(installed, Live) && installed[Live].version == release
    requires change == Stuck && Live in was ==> Keeps(now, Backup, was[Live])
    requires change != Declined && change != Unfinished
    ensures Upgraded(was, now, release, change)
  {}

  lemma UpgradeRefused(disk: Disk, release: string)
    ensures Upgraded(disk, disk, release, Declined)
  {}

  lemma RollbackRefused(disk: Disk)
    ensures RolledBack(disk, disk, Declined)
  {}

  /** What a swap that returned `ok` did: the versions are exchanged, or the live tree did not change. */
  ghost predicate Swapping(was: Disk, now: Disk, ok: bool, exchanged: bool) {
    && (ok ==> exchanged && Live in was && Backup in was && Live in now && Backup in now
               && (now[Live], now[Backup]) == Swapped(was[Live], was[Backup]))
    && (exchanged ==> Live in was && Backup in was && Holds(now, Live, WithConfigs(was[Backup], was[Live].yamls)))
    && (exchanged && Installed(was, Backup) ==> Installed(now, Live))
    && (!exchanged && Live in now ==> Holds(was, Live, now[Live]))
    && (!exchanged && Backup in was ==> Keeps(now, Backup, was[Backup]))
    && (!exchanged && Live in was && Live !in now ==> SetAside(now, was[Live]))
    && (exchanged && !ok ==> Holds(now, Backup, was[Live]) || SetAside(now, was[Live]))
  }

  lemma SwapKeepsYaml(was: Disk, now: Disk)
    requires Live in was && Backup in was
    requires Holds(now, Live, WithConfigs(was[Backup], was[Live].yamls))
    ensures YamlKept(was[Live].yamls, now[Live].yamls)
  {}

  lemma SwapWentBack(was: Disk, between: Disk, now: Disk)
    requires Live in was && Backup in was && SameProgram(between, now)
    requires Holds(between, Live, WithConfigs(was[Backup], was[Live].yamls))
    ensures WentBack(was, now)
  {
    SwapKeepsYaml(was, between);
    YamlKeptTransitive(was[Live].yamls, between[Live].yamls, now[Live].yamls);
  }

  /** A swap and the start after it keep the tree that was live; a swap without effect keeps the rollback too. */
  lemma SwapKeeps(was: Disk, between: Disk, now: Disk, ok: bool, exchanged: bool)
    requires Swapping(was, between, ok, exchanged) && SameProgram(between, now) && (!ok ==> now == between)
    ensures Live in was ==> Retained(now, was[Live])
    ensures !exchanged && Backup in was ==> Keeps(now, Backup, was[Backup])
  {
    if Live in was {
      if SetAside(between, was[Live]) { AsideKept(between, was[Live]); }
      else { KeptAt(between, if exchanged then Backup else Live, was[Live]); }
      StartKeeps(between, now, was[Live]);
    }
  }

  /** A program that was tried and left live before the way back failed is not lost either. */
  lemma TriedKept(installed: Disk, tried: Disk, now: Disk)
    requires SameProgram(installed, tried) && Live in installed && Retained(now, tried[Live])
    ensures Retained(now, installed[Live])
  {
    var p: Path :| p != Payload && Keeps(now, p, tried[Live]);
    assert Keeps(now, p, installed[Live]);
  }

  /** Exchange, try, exchange back: the version from before is live again with all its YAML files. */
  lemma RoundTrip(was: Disk, tried: Disk, now: Disk)
    requires Exchanged(was, tried) && WentBack(tried, now)
    ensures Resumed(was, now)
  {
    if Live in was {
      YamlKeptTransitive(was[Live].yamls, tried[Live].yamls, now[Live].yamls);
    }
  }

  /** Two rollbacks that took effect bring the version back: the second is a controlled roll-forward. */
  lemma TwoRollbacks(a: Disk, b: Disk, c: Disk)
    requires RolledBack(a, b, Active) && RolledBack(b, c, Active)
    ensures Resumed(a, c) && Live in a && Live in c && c[Live].version == a[Live].version
  {
    hide YamlKept;
    RoundTrip(a, b, c);
  }

  // ---------- exchanges and the log ----------

  /** Every time the live tree was moved away, an exchange had been logged. */
  predicate Announced(displaced0: nat, log0: seq<Protocol.Event>, displaced: nat, log: seq<Protocol.Event>) {
    displaced + Protocol.Exchanges(log0) <= displaced0 + Protocol.Exchanges(log)
  }

  lemma NothingDisplaced(displaced: nat, log0: seq<Protocol.Event>, log: seq<Protocol.Event>)
    requires log0 <= log
    ensures Announced(displaced, log0, displaced, log)
  {
    Protocol.ExchangesGrow(log0, log);
  }

  lemma AnnouncedTogether(d0: nat, log0: seq<Protocol.Event>, d1: nat, log1: seq<Protocol.Event>, d2: nat,
    log2: seq<Protocol.Event>)
    requires Announced(d0, log0, d1, log1) && Announced(d1, log1, d2, log2)
    ensures Announced(d0, log0, d2, log2)
  {}

  /** What comes before and after displaces nothing. */
  lemma Framed(d: nat, first: seq<Protocol.Event>, log0: seq<Protocol.Event>, d1: nat, log1: seq<Protocol.Event>,
    last: seq<Protocol.Event>)
    requires first <= log0 && log1 <= last && Announced(d, log0, d1, log1)
    ensures Announced(d, first, d1, last)
  {
    Protocol.ExchangesGrow(first, log0);
    Protocol.ExchangesGrow(log1, last);
  }
}
