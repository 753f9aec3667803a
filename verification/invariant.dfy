/**
 The bookkeeping invariant of the registry, and its preservation by both
 entry points.

 Because `make_path` counts every successful request, also a repeated one by
 a client that already holds the path, the count of a path bounds the number
 of clients holding it from above instead of equalling it.
 */
module Invariant {
  import opened Wrappers
  import opened MountPoints

  /** The clients whose set contains `p`. */
  ghost function Holders(clients: map<Client, set<Path>>, p: Path): set<Client> {
    set c | c in clients && p in clients[c]
  }

  /** A path's name carries no query marker, as the framework's URL parser guarantees of `abspath`. */
  predicate PlainPath(p: Path) {
    '?' !in p
  }

  ghost predicate RefsPositive(s: State) {
    forall p :: p in s.pathsRefs ==> s.pathsRefs[p] >= 1
  }

  ghost predicate HeldAreCounted(s: State) {
    forall c, p :: c in s.clientsToPaths && p in s.clientsToPaths[c] ==> p in s.pathsRefs
  }

  ghost predicate RefsCoverHolders(s: State) {
    forall p :: p in s.pathsRefs ==> |Holders(s.clientsToPaths, p)| <= s.pathsRefs[p]
  }

  ghost predicate PlainPaths(s: State) {
    forall p :: p in s.pathsRefs ==> PlainPath(p)
  }

  ghost predicate MountsMatchPaths(s: State) {
    s.mounts.Keys == MountNames(s.pathsRefs.Keys)
  }

  /** Each path has a play and a record factory that share one channel already issued. */
  ghost predicate FactoriesPaired(s: State) {
    forall p :: p in s.pathsRefs ==>
      && p in s.mounts && RecordName(p) in s.mounts
      && s.mounts[p].Play?
      && s.mounts[RecordName(p)] == Record(s.mounts[p].channel)
      && s.mounts[p].channel < s.proxy
  }

  /** No two paths share a channel. */
  ghost predicate ChannelsDistinct(s: State) {
    forall p, q :: p in s.pathsRefs && q in s.pathsRefs && p != q && p in s.mounts && q in s.mounts ==>
      s.mounts[p].channel != s.mounts[q].channel
  }

  /** Every tracked client has its `closed` handler connected. */
  ghost predicate HandlersConnected(s: State) {
    forall c :: c in s.clientsToPaths ==> c in s.closedHandlers
  }

  ghost predicate Inv(s: State) {
    && RefsPositive(s)
    && HeldAreCounted(s)
    && RefsCoverHolders(s)
    && PlainPaths(s)
    && MountsMatchPaths(s)
    && FactoriesPaired(s)
    && ChannelsDistinct(s)
    && HandlersConnected(s)
  }

  lemma InitialInv()
    ensures Inv(Initial)
  {
  }

  /** A record name is never a plain path, and different paths have different record names. */
  lemma RecordNameFacts(p: Path, q: Path)
    ensures !PlainPath(RecordName(p))
    ensures RecordName(p) == RecordName(q) ==> p == q
  {
    assert RecordName(p)[|p|] == '?';
    if RecordName(p) == RecordName(q) {
      assert |p| == |q|;
      assert p == RecordName(p)[..|p|] == RecordName(q)[..|q|] == q;
    }
  }

  /** Registering `c` for `p` adds `c` to the holders of `p` and leaves every other path's holders alone. */
  lemma RegisterHolders(s: State, c: Client, p: Path, q: Path)
    ensures var t := RegisterClient(s, c, p);
      Holders(t.clientsToPaths, q) ==
        if q == p then Holders(s.clientsToPaths, q) + {c}
        else Holders(s.clientsToPaths, q)
  {
  }

  /** Forgetting `c` removes it from the holders of every path. */
  lemma ForgetHolders(clients: map<Client, set<Path>>, c: Client, q: Path)
    ensures Holders(clients - {c}, q) == Holders(clients, q) - {c}
  {
  }

  /** Under the invariant, the assertion on `addPathRef` before creating a mount point holds. */
  lemma AddPathRefOnCreate(s: State, c: Client, p: Path)
    requires Inv(s)
    requires p !in s.pathsRefs
    ensures AddPathRef(s, c, p)
  {
  }

  /** Under the invariant, every path a client holds is in the table: the "inconsistent data" branch is never taken. */
  lemma HeldPathIsCounted(s: State, c: Client, p: Path)
    requires Inv(s)
    requires c in s.clientsToPaths && p in s.clientsToPaths[c]
    ensures p in s.pathsRefs && s.pathsRefs[p] >= 1
  {
  }

  /** The mount names of a table with one more path. */
  lemma MountNamesInsert(paths: set<Path>, p: Path)
    ensures MountNames(paths + {p}) == MountNames(paths) + {p, RecordName(p)}
  {
    assert RecordNames(paths + {p}) == RecordNames(paths) + {RecordName(p)};
  }

  /** A new plain path collides with no name mounted for other plain paths. */
  lemma FreshNamesDisjoint(s: State, p: Path)
    requires PlainPaths(s)
    requires PlainPath(p) && p !in s.pathsRefs
    ensures forall q :: q in s.pathsRefs ==>
      q != RecordName(p) && RecordName(q) != p && RecordName(q) != RecordName(p)
  {
    forall q | q in s.pathsRefs
      ensures q != RecordName(p) && RecordName(q) != p && RecordName(q) != RecordName(p)
    {
      RecordNameFacts(q, p);
      RecordNameFacts(p, q);
    }
  }

  /** The counting part of the invariant survives a successful request. */
  lemma ReferenceKeepsCounts(cfg: Config, s: State, c: Client, p: Path)
    requires Inv(s)
    ensures var t := Reference(cfg, RegisterClient(s, c, p), p);
      RefsPositive(t) && HeldAreCounted(t) && RefsCoverHolders(t) && HandlersConnected(t)
  {
    var t := Reference(cfg, RegisterClient(s, c, p), p);
    forall q | q in t.pathsRefs
      ensures |Holders(t.clientsToPaths, q)| <= t.pathsRefs[q]
    {
      RegisterHolders(s, c, p, q);
      if q == p && p !in s.pathsRefs {
        assert Holders(s.clientsToPaths, p) == {};
      }
    }
    forall d, q | d in t.clientsToPaths && q in t.clientsToPaths[d]
      ensures q in t.pathsRefs
    {
      if d != c {
        assert q in s.clientsToPaths[d];
      }
    }
  }

  /** The mount part of the invariant survives a request for a path already in the table. */
  lemma ReferenceKnownKeepsMounts(cfg: Config, s: State, c: Client, p: Path)
    requires Inv(s)
    requires p in s.pathsRefs
    ensures var t := Reference(cfg, RegisterClient(s, c, p), p);
      PlainPaths(t) && MountsMatchPaths(t) && FactoriesPaired(t) && ChannelsDistinct(t)
  {
    var t := Reference(cfg, RegisterClient(s, c, p), p);
    assert t.pathsRefs.Keys == s.pathsRefs.Keys;
    assert t.mounts == s.mounts && t.proxy == s.proxy;
  }

  /** Each path in `paths` has both its names mounted in `before` and in `after`, unchanged. */
  ghost predicate FactoriesKept(paths: set<Path>, before: map<Path, Factory>, after: map<Path, Factory>) {
    forall q :: q in paths ==>
      && q in before && q in after && after[q] == before[q]
      && RecordName(q) in before && RecordName(q) in after
      && after[RecordName(q)] == before[RecordName(q)]
  }

  /** Mounting the two names of a fresh plain path overwrites no name of another plain path. */
  lemma MountFreshKeepsOthers(mounts: map<Path, Factory>, p: Path, play: Factory, rec: Factory, q: Path)
    requires PlainPath(p) && PlainPath(q) && p != q
    requires q in mounts && RecordName(q) in mounts
    ensures var m := mounts[p := play][RecordName(p) := rec];
      q in m && m[q] == mounts[q] && RecordName(q) in m && m[RecordName(q)] == mounts[RecordName(q)]
  {
    RecordNameFacts(q, p);
    RecordNameFacts(p, q);
  }

  /** Creating the mount point of a fresh plain path keeps the factories of every other path. */
  lemma CreateKeepsOldFactories(cfg: Config, s: State, c: Client, p: Path)
    requires PlainPaths(s) && FactoriesPaired(s)
    requires PlainPath(p) && p !in s.pathsRefs
    ensures FactoriesKept(s.pathsRefs.Keys, s.mounts, Reference(cfg, RegisterClient(s, c, p), p).mounts)
  {
    var t := Reference(cfg, RegisterClient(s, c, p), p);
    var k := s.proxy;
    assert t.mounts == s.mounts[p := Play(cfg.splashSource, k)][RecordName(p) := Record(k)];
    forall q | q in s.pathsRefs
      ensures q in s.mounts && q in t.mounts && t.mounts[q] == s.mounts[q]
      ensures RecordName(q) in s.mounts && RecordName(q) in t.mounts
      ensures t.mounts[RecordName(q)] == s.mounts[RecordName(q)]
    {
      assert q in s.mounts && RecordName(q) in s.mounts;
      assert q != p;
      MountFreshKeepsOthers(s.mounts, p, Play(cfg.splashSource, k), Record(k), q);
    }
  }

  /** After a creation the mount table still matches the path table. */
  lemma CreateKeepsMountNames(cfg: Config, s: State, c: Client, p: Path)
    requires MountsMatchPaths(s)
    requires p !in s.pathsRefs
    ensures MountsMatchPaths(Reference(cfg, RegisterClient(s, c, p), p))
  {
    var t := Reference(cfg, RegisterClient(s, c, p), p);
    assert t.pathsRefs.Keys == s.pathsRefs.Keys + {p};
    MountNamesInsert(s.pathsRefs.Keys, p);
  }

  /** After a creation every path has its pair of factories on a distinct issued channel. */
  lemma CreateKeepsChannels(cfg: Config, s: State, c: Client, p: Path)
    requires PlainPaths(s) && FactoriesPaired(s) && ChannelsDistinct(s)
    requires PlainPath(p) && p !in s.pathsRefs
    ensures FactoriesPaired(Reference(cfg, RegisterClient(s, c, p), p))
    ensures ChannelsDistinct(Reference(cfg, RegisterClient(s, c, p), p))
  {
    var t := Reference(cfg, RegisterClient(s, c, p), p);
    assert t.pathsRefs.Keys == s.pathsRefs.Keys + {p};
    assert t.proxy == s.proxy + 1;
    CreateKeepsOldFactories(cfg, s, c, p);
    assert FactoriesPaired(t);
    assert ChannelsDistinct(t);
  }

  /** The mount part of the invariant survives the creation of a mount point for a plain path. */
  lemma ReferenceNewKeepsMounts(cfg: Config, s: State, c: Client, p: Path)
    requires Inv(s)
    requires PlainPath(p) && p !in s.pathsRefs
    ensures var t := Reference(cfg, RegisterClient(s, c, p), p);
      PlainPaths(t) && MountsMatchPaths(t) && FactoriesPaired(t) && ChannelsDistinct(t)
  {
    CreateKeepsMountNames(cfg, s, c, p);
    CreateKeepsChannels(cfg, s, c, p);
  }

  /** The mount part of the invariant survives a successful request for a plain path. */
  lemma ReferenceKeepsMounts(cfg: Config, s: State, c: Client, p: Path)
    requires Inv(s)
    requires PlainPath(p)
    ensures var t := Reference(cfg, RegisterClient(s, c, p), p);
      PlainPaths(t) && MountsMatchPaths(t) && FactoriesPaired(t) && ChannelsDistinct(t)
  {
    if p in s.pathsRefs {
      ReferenceKnownKeepsMounts(cfg, s, c, p);
    } else {
      ReferenceNewKeepsMounts(cfg, s, c, p);
    }
  }

  /** `make_path` keeps the invariant for a request whose path carries no query marker. */
  lemma MakePathPreservesInv(cfg: Config, s: State, ctx: Option<Context>, url: Url)
    requires Inv(s)
    requires PlainPath(url.abspath)
    ensures Inv(MakePath(cfg, s, ctx, url).state)
  {
    if MakePath(cfg, s, ctx, url).outcome.Admitted? {
      ReferenceKeepsCounts(cfg, s, ctx.value.client, url.abspath);
      ReferenceKeepsMounts(cfg, s, ctx.value.client, url.abspath);
    }
  }

  /** Under the invariant, a path two clients hold is counted at least twice, so one disconnect cannot drop it. */
  lemma SharedPathCountedTwice(s: State, c: Client, d: Client, p: Path)
    requires Inv(s)
    requires c != d
    requires c in s.clientsToPaths && p in s.clientsToPaths[c]
    requires d in s.clientsToPaths && p in s.clientsToPaths[d]
    ensures p in s.pathsRefs && s.pathsRefs[p] >= 2
  {
    var h := Holders(s.clientsToPaths, p);
    assert d in h - {c};
    assert |h - {c}| >= 1;
    assert |h| == |h - {c}| + 1;
  }

  /** The record names of what remains after removing some paths. */
  lemma RecordNamesMinus(paths: set<Path>, gone: set<Path>)
    ensures RecordNames(paths) - RecordNames(gone) == RecordNames(paths - gone)
  {
    forall m | m in RecordNames(paths - gone)
      ensures m !in RecordNames(gone)
    {
      var p :| p in paths - gone && m == RecordName(p);
      forall g | g in gone ensures m != RecordName(g) {
        RecordNameFacts(p, g);
      }
    }
  }

  /** Plain paths are never record names. */
  lemma PlainNotRecordNames(paths: set<Path>, other: set<Path>)
    requires forall p :: p in paths ==> PlainPath(p)
    ensures paths !! RecordNames(other)
  {
    forall g | g in other ensures RecordName(g) !in paths {
      RecordNameFacts(g, g);
    }
  }

  /** The mount names of what remains after removing some of a set of plain paths. */
  lemma MountNamesRemove(paths: set<Path>, gone: set<Path>)
    requires forall p :: p in paths ==> PlainPath(p)
    requires gone <= paths
    ensures MountNames(paths) - MountNames(gone) == MountNames(paths - gone)
  {
    RecordNamesMinus(paths, gone);
    PlainNotRecordNames(paths, gone);
    PlainNotRecordNames(gone, paths);
  }

  /** Every count left after a disconnect is still positive. */
  lemma CloseClientKeepsPositive(s: State, c: Client)
    requires Inv(s)
    requires c in s.clientsToPaths
    ensures RefsPositive(CloseClient(s, c))
  {
    var t := CloseClient(s, c);
    forall q | q in t.pathsRefs
      ensures t.pathsRefs[q] >= 1
    {
      assert q in s.pathsRefs && s.pathsRefs[q] >= 1;
    }
  }

  /** Every path a remaining client holds survives a disconnect. */
  lemma CloseClientKeepsHeld(s: State, c: Client)
    requires Inv(s)
    requires c in s.clientsToPaths
    ensures HeldAreCounted(CloseClient(s, c))
  {
    var t := CloseClient(s, c);
    var held := s.clientsToPaths[c];
    forall d, q | d in t.clientsToPaths && q in t.clientsToPaths[d]
      ensures q in t.pathsRefs
    {
      assert d != c && q in s.clientsToPaths[d];
      if q in held {
        SharedPathCountedTwice(s, c, d, q);
      }
    }
  }

  /** Every count still bounds its holders after a disconnect. */
  lemma CloseClientKeepsCover(s: State, c: Client)
    requires Inv(s)
    requires c in s.clientsToPaths
    ensures RefsCoverHolders(CloseClient(s, c))
  {
    var t := CloseClient(s, c);
    var held := s.clientsToPaths[c];
    forall q | q in t.pathsRefs
      ensures |Holders(t.clientsToPaths, q)| <= t.pathsRefs[q]
    {
      assert t.clientsToPaths == s.clientsToPaths - {c};
      ForgetHolders(s.clientsToPaths, c, q);
      assert c in Holders(s.clientsToPaths, q) <==> q in held;
    }
  }

  /** The mount table still matches the path table after a disconnect. */
  lemma CloseClientKeepsMountNames(s: State, c: Client)
    requires Inv(s)
    requires c in s.clientsToPaths
    ensures MountsMatchPaths(CloseClient(s, c))
  {
    var gone := Dropped(s.pathsRefs, s.clientsToPaths[c]);
    assert CloseClient(s, c).mounts == s.mounts - MountNames(gone);
    assert CloseClient(s, c).pathsRefs.Keys == s.pathsRefs.Keys - gone;
    MountNamesRemove(s.pathsRefs.Keys, gone);
  }

  /** Unmounting the names of some plain paths leaves the names of every other plain path mounted. */
  lemma UnmountKeepsOthers(mounts: map<Path, Factory>, gone: set<Path>, q: Path)
    requires forall g :: g in gone ==> PlainPath(g)
    requires PlainPath(q) && q !in gone
    requires q in mounts && RecordName(q) in mounts
    ensures var m := mounts - MountNames(gone);
      q in m && m[q] == mounts[q] && RecordName(q) in m && m[RecordName(q)] == mounts[RecordName(q)]
  {
    forall g | g in gone
      ensures q != RecordName(g) && RecordName(q) != g && RecordName(q) != RecordName(g)
    {
      RecordNameFacts(g, q);
      RecordNameFacts(q, g);
    }
  }

  /** A disconnect keeps the factories of every path it does not drop. */
  lemma CloseClientKeepsOldFactories(s: State, c: Client)
    requires PlainPaths(s) && FactoriesPaired(s)
    requires c in s.clientsToPaths
    ensures FactoriesKept(CloseClient(s, c).pathsRefs.Keys, s.mounts, CloseClient(s, c).mounts)
  {
    var t := CloseClient(s, c);
    var gone := Dropped(s.pathsRefs, s.clientsToPaths[c]);
    assert t.mounts == s.mounts - MountNames(gone);
    assert t.pathsRefs.Keys == s.pathsRefs.Keys - gone;
    forall q | q in t.pathsRefs
      ensures q in s.mounts && q in t.mounts && t.mounts[q] == s.mounts[q]
      ensures RecordName(q) in s.mounts && RecordName(q) in t.mounts
      ensures t.mounts[RecordName(q)] == s.mounts[RecordName(q)]
    {
      assert q in s.pathsRefs && q !in gone;
      assert q in s.mounts && RecordName(q) in s.mounts;
      UnmountKeepsOthers(s.mounts, gone, q);
    }
  }

  /** The factories of every remaining path stay mounted and paired after a disconnect. */
  lemma CloseClientKeepsFactories(s: State, c: Client)
    requires Inv(s)
    requires c in s.clientsToPaths
    ensures FactoriesPaired(CloseClient(s, c)) && ChannelsDistinct(CloseClient(s, c))
  {
    var t := CloseClient(s, c);
    CloseClientKeepsOldFactories(s, c);
    assert t.proxy == s.proxy;
    assert t.pathsRefs.Keys <= s.pathsRefs.Keys;
  }

  /** `client_closed` keeps the invariant. */
  lemma CloseClientPreservesInv(s: State, c: Client)
    requires Inv(s)
    ensures Inv(CloseClient(s, c))
  {
    if c in s.clientsToPaths {
      CloseClientKeepsPositive(s, c);
      CloseClientKeepsHeld(s, c);
      CloseClientKeepsCover(s, c);
      CloseClientKeepsMountNames(s, c);
      CloseClientKeepsFactories(s, c);
    }
  }
}
