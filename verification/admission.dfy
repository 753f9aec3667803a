/**
 What one `make_path` call does to the registry, case by case: the caps, the
 creation of a mount point for a new path, the extra reference for a known
 one, and the path handed back to the framework.
 */
module Admission {
  import opened Wrappers
  import opened MountPoints
  import opened Invariant

  /** With a distinct-path cap, a table within the cap stays within it. */
  lemma MakePathKeepsPathCap(cfg: Config, s: State, ctx: Option<Context>, url: Url)
    requires cfg.maxPathsCount > 0
    requires |s.pathsRefs| <= cfg.maxPathsCount
    ensures |MakePath(cfg, s, ctx, url).state.pathsRefs| <= cfg.maxPathsCount
  {
    var r := MakePath(cfg, s, ctx, url);
    if r.outcome.Admitted? {
      var p := url.abspath;
      var refs := r.state.pathsRefs;
      if p in s.pathsRefs {
        assert refs == s.pathsRefs[p := s.pathsRefs[p] + 1];
      } else {
        assert refs == s.pathsRefs[p := 1];
        assert |s.pathsRefs| < cfg.maxPathsCount;
      }
    }
  }

  /**
   Once a path's count has reached the per-path cap, every further request for
   it is rejected, also one from a client that already holds it.
   */
  lemma CapRejectsHolderToo(cfg: Config, s: State, ctx: Context, url: Url)
    requires AuthorizeAccess(cfg.callbacks, ctx, url)
    requires cfg.maxClientsPerPath > 0
    requires url.abspath in s.pathsRefs && s.pathsRefs[url.abspath] >= cfg.maxClientsPerPath
    ensures MakePath(cfg, s, Some(ctx), url) == Step(s, Rejected(MaxClientsPerPathReached))
  {
  }

  /**
   Admitting a path not in the table records it with count 1 in the table and
   in the client's set, mounts a play factory at the path and a record factory
   at its record name on channel `proxy<counter>`, and moves the counter on by
   exactly one. The assertion on `addPathRef` holds whenever the invariant did.
   */
  lemma AdmitNewPath(cfg: Config, s: State, ctx: Context, url: Url)
    requires MakePath(cfg, s, Some(ctx), url).outcome.Admitted?
    requires url.abspath !in s.pathsRefs
    ensures var t := MakePath(cfg, s, Some(ctx), url).state;
      var p := url.abspath;
      && t.pathsRefs == s.pathsRefs[p := 1]
      && ctx.client in t.clientsToPaths && p in t.clientsToPaths[ctx.client]
      && t.mounts == s.mounts[p := Play(cfg.splashSource, s.proxy)][RecordName(p) := Record(s.proxy)]
      && t.proxy == s.proxy + 1
      && (Inv(s) ==> AddPathRef(s, ctx.client, p))
  {
  }

  /**
   Admitting a path already in the table adds exactly one to its count on every
   call; nothing is mounted and no channel is issued. A client that already
   held the path keeps the same set.
   */
  lemma AdmitKnownPath(cfg: Config, s: State, ctx: Context, url: Url)
    requires MakePath(cfg, s, Some(ctx), url).outcome.Admitted?
    requires url.abspath in s.pathsRefs
    ensures var t := MakePath(cfg, s, Some(ctx), url).state;
      var p := url.abspath;
      && t.pathsRefs == s.pathsRefs[p := s.pathsRefs[p] + 1]
      && t.mounts == s.mounts
      && t.proxy == s.proxy
      && (ctx.client in s.clientsToPaths && p in s.clientsToPaths[ctx.client] ==>
            t.clientsToPaths == s.clientsToPaths && t.closedHandlers == s.closedHandlers)
  {
    var p := url.abspath;
    var t := MakePath(cfg, s, Some(ctx), url).state;
    if ctx.client in s.clientsToPaths && p in s.clientsToPaths[ctx.client] {
      assert s.clientsToPaths[ctx.client] + {p} == s.clientsToPaths[ctx.client];
    }
  }

  /** A client's first admitted request connects its `closed` handler once; later ones connect nothing. */
  lemma AdmitConnectsHandlerOnce(cfg: Config, s: State, ctx: Context, url: Url)
    requires MakePath(cfg, s, Some(ctx), url).outcome.Admitted?
    ensures var t := MakePath(cfg, s, Some(ctx), url).state;
      t.closedHandlers ==
        if ctx.client in s.clientsToPaths then s.closedHandlers
        else s.closedHandlers + multiset{ctx.client}
  {
  }

  /** The returned path carries the record suffix exactly when the query is "record". */
  lemma ReturnedPath(cfg: Config, s: State, ctx: Context, url: Url)
    requires MakePath(cfg, s, Some(ctx), url).outcome.Admitted?
    ensures var name := MakePath(cfg, s, Some(ctx), url).outcome.path;
      && (name == url.abspath + "?record" <==> url.query == Some("record"))
      && (name == url.abspath <==> url.query != Some("record"))
  {
  }

  /**
   Under the invariant, the returned path is the name of a mounted factory of
   the requested path: its record factory for a publisher, its play factory
   otherwise, both on the channel of that path.
   */
  lemma ReturnedPathIsMounted(cfg: Config, s: State, ctx: Context, url: Url)
    requires Inv(s)
    requires PlainPath(url.abspath)
    requires MakePath(cfg, s, Some(ctx), url).outcome.Admitted?
    ensures var r := MakePath(cfg, s, Some(ctx), url);
      var name := r.outcome.path;
      && name in r.state.mounts
      && url.abspath in r.state.mounts
      && (r.state.mounts[name].Record? <==> IsRecord(url))
      && r.state.mounts[name].channel == r.state.mounts[url.abspath].channel
  {
    MakePathPreservesInv(cfg, s, Some(ctx), url);
    var t := MakePath(cfg, s, Some(ctx), url).state;
    assert url.abspath in t.pathsRefs;
  }
}
