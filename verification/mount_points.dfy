/**
 The mount-point registry of the restreaming server: the state that
 `RtspMountPoints` keeps beside the framework's mount table, and its two
 entry points, `make_path` (admit or reject one request) and `client_closed`
 (release everything a disconnecting client held).

 Both entry points are modelled as atomic transitions on an immutable `State`.
 The framework's calls are replaced by data: the current request context is a
 parameter, mounting and unmounting a factory edits the `mounts` map, and
 connecting the `closed` signal adds the client to `closedHandlers`.
 */
module MountPoints {
  import opened Wrappers
  import Decimal

  /** An absolute request path, the registry's key. */
  type Path = string

  /** The record factory of path `p` is mounted at `p + RecordSuffix`. */
  const RecordSuffix: string := "?record"

  /** The query that marks a publishing (record) request. */
  const RecordQuery: string := "record"

  /** Channel names are this prefix followed by the counter in decimal. */
  const ChannelPrefix: string := "proxy"

  /** The value an unsigned 32-bit count takes when decremented from 0. */
  const U32Max: nat := 0xFFFF_FFFF

  /** An opaque client connection handle (a `GstRTSPClient*`). */
  datatype Client = Client(handle: nat)

  /** The security token of a request; `role` is its media-factory role string, if set. */
  datatype Token = Token(role: Option<string>)

  /** The request context the framework makes current while it resolves a path. */
  datatype Context = Context(client: Client, token: Option<Token>)

  /** The parsed request URL: absolute path and optional query string. */
  datatype Url = Url(abspath: Path, query: Option<string>)

  /** The optional authorization callback `(user, path) -> allowed`. */
  datatype Callbacks = Callbacks(authorizeAccess: Option<(string, Path) -> bool>)

  /**
   Values the registry reads but never changes. A limit of 0 means unlimited.
   `splashSource` is the placeholder stream a play factory shows while no
   publisher feeds its channel.
   */
  datatype Config = Config(
    callbacks: Callbacks,
    maxPathsCount: nat,
    maxClientsPerPath: nat,
    splashSource: string)

  /**
   A media factory mounted in the framework: a play factory reading channel
   number `channel` (falling back to `source`), or a record factory feeding it.
   */
  datatype Factory = Play(source: string, channel: nat) | Record(channel: nat)

  /** The registry's state together with the part of the mount table it manages. */
  datatype State = State(
    pathsRefs: map<Path, nat>,
    clientsToPaths: map<Client, set<Path>>,
    proxy: nat,
    mounts: map<Path, Factory>,
    closedHandlers: multiset<Client>)

  /** The state right after construction: empty maps, counter at 0. */
  const Initial: State := State(map[], map[], 0, map[], multiset{})

  /** Why `make_path` returned null. */
  datatype Rejection = NoContext | AccessDenied | MaxPathsReached | MaxClientsPerPathReached

  /** What `make_path` returns: the path to look the factory up under, or null. */
  datatype Outcome = Admitted(path: string) | Rejected(reason: Rejection)

  /** One transition: the state after the call and what the call returned. */
  datatype Step = Step(state: State, outcome: Outcome)

  /** The name under which the record factory of `p` is mounted. */
  function RecordName(p: Path): (name: string)
    ensures |name| == |p| + |RecordSuffix|
    ensures name[..|p|] == p && name[|p|..] == RecordSuffix
  {
    p + RecordSuffix
  }

  /** The record names of the paths in `paths`. */
  function RecordNames(paths: set<Path>): set<string> {
    set p | p in paths :: RecordName(p)
  }

  /** Every name the registry mounts for the paths in `paths`. */
  function MountNames(paths: set<Path>): set<string> {
    paths + RecordNames(paths)
  }

  /** The channel name built from counter value `index`. */
  function ChannelName(index: nat): (name: string)
    ensures |name| > |ChannelPrefix| && name[..|ChannelPrefix|] == ChannelPrefix
    ensures Decimal.AllDigits(name[|ChannelPrefix|..])
    ensures Decimal.ToNat(name[|ChannelPrefix|..]) == index
  {
    var name := ChannelPrefix + Decimal.FromNat(index);
    assert name[|ChannelPrefix|..] == Decimal.FromNat(index);
    name
  }

  /** Distinct counter values give distinct channel names. */
  lemma ChannelNameInjective(i: nat, j: nat)
    requires i != j
    ensures ChannelName(i) != ChannelName(j)
  {
  }

  // ---------------------------------------------------------------- authorize_access

  /** The user string handed to the callback: the token's role, or "" without one. */
  function RoleOf(ctx: Context): (user: string)
    ensures ctx.token.Some? && ctx.token.value.role.Some? ==> user == ctx.token.value.role.value
    ensures ctx.token.None? || ctx.token.value.role.None? ==> user == ""
  {
    match ctx.token
    case None => ""
    case Some(t) => t.role.GetOr("")
  }

  /** Access is allowed when no callback is set, and otherwise exactly when the callback allows it. */
  function AuthorizeAccess(cb: Callbacks, ctx: Context, url: Url): (allowed: bool)
    ensures allowed <==> cb.authorizeAccess.None? || cb.authorizeAccess.value(RoleOf(ctx), url.abspath)
  {
    match cb.authorizeAccess
    case None => true
    case Some(f) => f(RoleOf(ctx), url.abspath)
  }

  // ---------------------------------------------------------------- make_path

  /** A request publishes exactly when its query is the string "record". */
  predicate IsRecord(url: Url) {
    url.query == Some(RecordQuery)
  }

  /** The path `make_path` hands back: the record name for a publisher, the path itself otherwise. */
  function CanonicalPath(url: Url): string {
    if IsRecord(url) then RecordName(url.abspath) else url.abspath
  }

  /** The distinct-path cap stops a path not in the table once the table is full. */
  predicate PathCapReached(cfg: Config, s: State, path: Path) {
    cfg.maxPathsCount > 0 && path !in s.pathsRefs && |s.pathsRefs| >= cfg.maxPathsCount
  }

  /** The per-path cap stops any request for a path whose count has reached the limit. */
  predicate ClientCapReached(cfg: Config, s: State, path: Path) {
    cfg.maxClientsPerPath > 0 && path in s.pathsRefs && s.pathsRefs[path] >= cfg.maxClientsPerPath
  }

  /** The value of `addPathRef`: the request adds `path` to the client's set. */
  predicate AddPathRef(s: State, c: Client, path: Path) {
    c !in s.clientsToPaths || path !in s.clientsToPaths[c]
  }

  /**
   Records that client `c` holds `path`. A client seen for the first time gets
   the singleton set and its `closed` handler connected, once.
   */
  function RegisterClient(s: State, c: Client, path: Path): (t: State)
    ensures c in t.clientsToPaths && path in t.clientsToPaths[c]
    ensures c in s.clientsToPaths ==>
      t.clientsToPaths[c] == s.clientsToPaths[c] + {path} && t.closedHandlers == s.closedHandlers
    ensures c !in s.clientsToPaths ==>
      t.clientsToPaths[c] == {path} && t.closedHandlers == s.closedHandlers + multiset{c}
    ensures forall d :: d != c ==>
      (d in t.clientsToPaths <==> d in s.clientsToPaths) &&
      (d in s.clientsToPaths ==> t.clientsToPaths[d] == s.clientsToPaths[d])
    ensures t.pathsRefs == s.pathsRefs && t.proxy == s.proxy && t.mounts == s.mounts
  {
    if c !in s.clientsToPaths then
      s.(clientsToPaths := s.clientsToPaths[c := {path}],
         closedHandlers := s.closedHandlers + multiset{c})
    else
      s.(clientsToPaths := s.clientsToPaths[c := s.clientsToPaths[c] + {path}])
  }

  /**
   Counts one more reference to `path`. A path not in the table is created with
   count 1, with a play factory at `path` and a record factory at its record
   name, both on the channel numbered by the counter, which then moves on.
   */
  function Reference(cfg: Config, s: State, path: Path): (t: State)
    ensures path in t.pathsRefs
    ensures t.clientsToPaths == s.clientsToPaths && t.closedHandlers == s.closedHandlers
    ensures forall q :: q != path ==>
      (q in t.pathsRefs <==> q in s.pathsRefs) && (q in s.pathsRefs ==> t.pathsRefs[q] == s.pathsRefs[q])
    ensures path !in s.pathsRefs ==>
      && t.pathsRefs[path] == 1
      && t.proxy == s.proxy + 1
      && t.mounts.Keys == s.mounts.Keys + {path, RecordName(path)}
      && t.mounts[path] == Play(cfg.splashSource, s.proxy)
      && t.mounts[RecordName(path)] == Record(s.proxy)
      && (forall m :: m in s.mounts && m != path && m != RecordName(path) ==> t.mounts[m] == s.mounts[m])
    ensures path in s.pathsRefs ==>
      t.pathsRefs[path] == s.pathsRefs[path] + 1 && t.proxy == s.proxy && t.mounts == s.mounts
  {
    if path !in s.pathsRefs then
      var channel := s.proxy;
      s.(pathsRefs := s.pathsRefs[path := 1],
         proxy := channel + 1,
         mounts := s.mounts[path := Play(cfg.splashSource, channel)][RecordName(path) := Record(channel)])
    else
      s.(pathsRefs := s.pathsRefs[path := s.pathsRefs[path] + 1])
  }

  /**
   The framework's `make_path` hook: resolve `url` for the current context
   `ctx` (None when there is no current context).

   The checks run in the source's order: context, authorization, distinct-path
   cap, per-path cap. Every rejection leaves the state as it was.
   */
  function MakePath(cfg: Config, s: State, ctx: Option<Context>, url: Url): (r: Step)
    ensures r.outcome.Rejected? ==> r.state == s
    ensures r.outcome == Rejected(NoContext) <==> ctx.None?
    ensures r.outcome == Rejected(AccessDenied) <==>
      ctx.Some? && !AuthorizeAccess(cfg.callbacks, ctx.value, url)
    ensures r.outcome == Rejected(MaxPathsReached) <==>
      ctx.Some? && AuthorizeAccess(cfg.callbacks, ctx.value, url) && PathCapReached(cfg, s, url.abspath)
    ensures r.outcome == Rejected(MaxClientsPerPathReached) <==>
      && ctx.Some? && AuthorizeAccess(cfg.callbacks, ctx.value, url)
      && !PathCapReached(cfg, s, url.abspath) && ClientCapReached(cfg, s, url.abspath)
    ensures r.outcome.Admitted? ==>
      && ctx.Some?
      && r.outcome.path == CanonicalPath(url)
      && r.state == Reference(cfg, RegisterClient(s, ctx.value.client, url.abspath), url.abspath)
  {
    if ctx.None? then
      Step(s, Rejected(NoContext))
    else if !AuthorizeAccess(cfg.callbacks, ctx.value, url) then
      Step(s, Rejected(AccessDenied))
    else if PathCapReached(cfg, s, url.abspath) then
      Step(s, Rejected(MaxPathsReached))
    else if ClientCapReached(cfg, s, url.abspath) then
      Step(s, Rejected(MaxClientsPerPathReached))
    else
      var registered := RegisterClient(s, ctx.value.client, url.abspath);
      Step(Reference(cfg, registered, url.abspath), Admitted(CanonicalPath(url)))
  }

  // ---------------------------------------------------------------- client_closed

  /** The source's `--` on an unsigned 32-bit count, which wraps at 0. */
  function Decrement(n: nat): (m: nat)
    ensures n >= 1 ==> m + 1 == n
    ensures n == 0 ==> m == U32Max
    ensures m == 0 <==> n == 1
  {
    if n == 0 then U32Max else n - 1
  }

  /** The paths among `held` whose count the source's `--` brings to 0. */
  function Dropped(refs: map<Path, nat>, held: set<Path>): (gone: set<Path>)
    ensures forall p :: p in gone <==> p in held && p in refs && Decrement(refs[p]) == 0
  {
    set p | p in held && p in refs && refs[p] == 1
  }

  /** The counts after one reference to each path of `held` is released. */
  function ReleaseRefs(refs: map<Path, nat>, held: set<Path>): map<Path, nat> {
    map p | p in refs && p !in Dropped(refs, held) :: if p in held then Decrement(refs[p]) else refs[p]
  }

  /**
   The reference meaning of `client_closed`: nothing happens for a client that
   holds no path; otherwise each held path loses one reference, a path whose
   count reaches 0 leaves the table with both its factories unmounted, and the
   client is forgotten.
   */
  function CloseClient(s: State, c: Client): (t: State)
    ensures c !in s.clientsToPaths ==> t == s
    ensures c !in t.clientsToPaths
    ensures forall d :: d != c ==>
      (d in t.clientsToPaths <==> d in s.clientsToPaths) &&
      (d in s.clientsToPaths ==> t.clientsToPaths[d] == s.clientsToPaths[d])
    ensures t.proxy == s.proxy && t.closedHandlers == s.closedHandlers
    ensures c in s.clientsToPaths ==> forall p :: p in s.pathsRefs ==>
      if p !in s.clientsToPaths[c] then
        p in t.pathsRefs && t.pathsRefs[p] == s.pathsRefs[p]
      else if s.pathsRefs[p] == 1 then
        p !in t.pathsRefs && p !in t.mounts && RecordName(p) !in t.mounts
      else
        p in t.pathsRefs && t.pathsRefs[p] == Decrement(s.pathsRefs[p])
    ensures c in s.clientsToPaths ==> forall m :: m in s.mounts ==>
      (m in t.mounts <==>
        !(exists p :: p in s.clientsToPaths[c] && p in s.pathsRefs && Decrement(s.pathsRefs[p]) == 0 &&
            (m == p || m == RecordName(p))))
    ensures t.pathsRefs.Keys <= s.pathsRefs.Keys
    ensures forall m :: m in t.mounts ==> m in s.mounts && t.mounts[m] == s.mounts[m]
  {
    if c !in s.clientsToPaths then
      s
    else
      var held := s.clientsToPaths[c];
      s.(pathsRefs := ReleaseRefs(s.pathsRefs, held),
         mounts := s.mounts - MountNames(Dropped(s.pathsRefs, held)),
         clientsToPaths := s.clientsToPaths - {c})
  }

  /** Releasing one more path `p` extends the release of `done` by one decrement. */
  lemma ReleaseStep(refs: map<Path, nat>, done: set<Path>, p: Path)
    requires p !in done
    ensures var before := ReleaseRefs(refs, done);
      ReleaseRefs(refs, done + {p}) ==
        if p !in before then before
        else if Decrement(before[p]) == 0 then before - {p}
        else before[p := Decrement(before[p])]
    ensures Dropped(refs, done + {p}) ==
      Dropped(refs, done) + (if p in refs && refs[p] == 1 then {p} else {})
  {
    var before := ReleaseRefs(refs, done);
    assert p in refs ==> p in before && before[p] == refs[p];
    assert p !in refs ==> p !in before;
  }

  /** Unmounting one more dropped path removes exactly its two names. */
  lemma UnmountStep(mounts: map<Path, Factory>, gone: set<Path>, p: Path)
    ensures mounts - MountNames(gone + {p}) == (mounts - MountNames(gone)) - {p, RecordName(p)}
  {
    assert MountNames(gone + {p}) == MountNames(gone) + {p, RecordName(p)};
  }

  /**
   The disconnect handler as the source writes it: a loop over the client's
   paths that decrements each count and unmounts the path when it reaches 0.
   A held path missing from the table (the "inconsistent data" branch) is
   skipped.
   */
  method ClientClosed(s: State, c: Client) returns (t: State)
    ensures t == CloseClient(s, c)
  {
    if c !in s.clientsToPaths {
      return s;
    }
    var held := s.clientsToPaths[c];
    var refs := s.pathsRefs;
    var mounts := s.mounts;
    var todo := held;
    while todo != {}
      invariant todo <= held
      invariant refs == ReleaseRefs(s.pathsRefs, held - todo)
      invariant mounts == s.mounts - MountNames(Dropped(s.pathsRefs, held - todo))
      decreases todo
    {
      var p :| p in todo;
      ghost var done := held - todo;
      ReleaseStep(s.pathsRefs, done, p);
      ghost var gone := Dropped(s.pathsRefs, done);
      if p in refs {
        var n := Decrement(refs[p]);
        if n == 0 {
          UnmountStep(s.mounts, gone, p);
          mounts := mounts - {p, RecordName(p)};
          refs := refs - {p};
        } else {
          refs := refs[p := n];
        }
      }
      todo := todo - {p};
      assert held - todo == done + {p};
    }
    assert held - todo == held;
    t := s.(pathsRefs := refs, mounts := mounts, clientsToPaths := s.clientsToPaths - {c});
  }
}
