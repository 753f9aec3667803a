/**
 Two places where `make_path` as written departs from what its own
 bookkeeping evidently intends, each shown on a concrete run, and the
 corrected admission that counts a (client, path) pair once.

 The leak shows whenever one client resolves the same path more than once
 before it disconnects.
 */
module Findings {
  import opened Wrappers
  import opened MountPoints
  import opened Invariant
  import opened Traces
  import opened Scenarios

  // ---------------------------------------------------------------- concrete runs of the code as written

  /**
   As written, a client that resolves a path twice and then disconnects leaves
   the path counted and both its factories mounted although no client holds it.
   */
  lemma RepeatRequestLeaksMount()
    ensures var s1 := MakePath(Open, Initial, Anonymous(A), CamPlayer).state;
      var s2 := MakePath(Open, s1, Anonymous(A), CamPlayer).state;
      var s3 := CloseClient(s2, A);
      && s3.clientsToPaths == map[]
      && "/cam1" in s3.pathsRefs && s3.pathsRefs["/cam1"] == 1
      && "/cam1" in s3.mounts && RecordName("/cam1") in s3.mounts
  {
    var s1 := MakePath(Open, Initial, Anonymous(A), CamPlayer).state;
    assert s1.pathsRefs == map["/cam1" := 1];
    assert s1.clientsToPaths == map[A := {"/cam1"}];
    var s2 := MakePath(Open, s1, Anonymous(A), CamPlayer).state;
    assert s2.pathsRefs == map["/cam1" := 2];
    assert s2.clientsToPaths == s1.clientsToPaths[A := {"/cam1"} + {"/cam1"}];
    assert {"/cam1"} + {"/cam1"} == {"/cam1"};
    var s3 := CloseClient(s2, A);
    assert "/cam1" in s3.pathsRefs && s3.pathsRefs["/cam1"] == Decrement(2);
  }

  /**
   As written, with one client allowed per path, the holder itself is refused
   on its second request for the path.
   */
  lemma CapRefusesOwnHolder()
    ensures var s1 := MakePath(OnePerPath, Initial, Anonymous(A), CamPlayer).state;
      MakePath(OnePerPath, s1, Anonymous(A), CamPlayer).outcome == Rejected(MaxClientsPerPathReached)
  {
    var s1 := MakePath(OnePerPath, Initial, Anonymous(A), CamPlayer).state;
    assert s1.pathsRefs == map["/cam1" := 1];
  }

  // ---------------------------------------------------------------- corrected admission

  /** Client `c` already holds `p`. */
  predicate Holds(s: State, c: Client, p: Path) {
    c in s.clientsToPaths && p in s.clientsToPaths[c]
  }

  /**
   `make_path` counting each (client, path) pair once: the per-path cap only
   stops a client that does not hold the path yet, and a repeated request from
   a holder returns its path without touching the registry. For every other
   request it is the source's `make_path`; for a holder, only the per-path
   cap's refusal turns into an admission.
   */
  function MakePathCorrected(cfg: Config, s: State, ctx: Option<Context>, url: Url): (r: Step)
    ensures r.outcome.Rejected? ==> r.state == s
    ensures r.outcome.Admitted? ==> ctx.Some? && r.outcome.path == CanonicalPath(url)
    ensures r.outcome.Admitted? && Holds(s, ctx.value.client, url.abspath) ==> r.state == s
    ensures r.outcome == Rejected(MaxClientsPerPathReached) ==>
      ctx.Some? && !Holds(s, ctx.value.client, url.abspath)
    ensures ctx.None? || !Holds(s, ctx.value.client, url.abspath) ==> r == MakePath(cfg, s, ctx, url)
    ensures (&& ctx.Some? && AuthorizeAccess(cfg.callbacks, ctx.value, url)
             && !PathCapReached(cfg, s, url.abspath) && Holds(s, ctx.value.client, url.abspath))
      ==> r == Step(s, Admitted(CanonicalPath(url)))
    ensures ctx.Some? && Holds(s, ctx.value.client, url.abspath) ==>
      var written := MakePath(cfg, s, ctx, url).outcome;
      r.outcome == if written == Rejected(MaxClientsPerPathReached) then Admitted(CanonicalPath(url)) else written
  {
    if ctx.None? then
      Step(s, Rejected(NoContext))
    else if !AuthorizeAccess(cfg.callbacks, ctx.value, url) then
      Step(s, Rejected(AccessDenied))
    else if PathCapReached(cfg, s, url.abspath) then
      Step(s, Rejected(MaxPathsReached))
    else if Holds(s, ctx.value.client, url.abspath) then
      Step(s, Admitted(CanonicalPath(url)))
    else if ClientCapReached(cfg, s, url.abspath) then
      Step(s, Rejected(MaxClientsPerPathReached))
    else
      var registered := RegisterClient(s, ctx.value.client, url.abspath);
      Step(Reference(cfg, registered, url.abspath), Admitted(CanonicalPath(url)))
  }

  /** Every count equals the number of clients holding the path. */
  ghost predicate ExactCounts(s: State) {
    forall p :: p in s.pathsRefs ==> s.pathsRefs[p] == |Holders(s.clientsToPaths, p)|
  }

  lemma CorrectedKeepsExactCounts(cfg: Config, s: State, ctx: Option<Context>, url: Url)
    requires Inv(s) && ExactCounts(s)
    ensures ExactCounts(MakePathCorrected(cfg, s, ctx, url).state)
  {
    var r := MakePathCorrected(cfg, s, ctx, url);
    if r.outcome.Admitted? && !Holds(s, ctx.value.client, url.abspath) {
      var c := ctx.value.client;
      var p := url.abspath;
      var t := r.state;
      forall q | q in t.pathsRefs
        ensures t.pathsRefs[q] == |Holders(t.clientsToPaths, q)|
      {
        RegisterHolders(s, c, p, q);
        if q == p {
          assert c !in Holders(s.clientsToPaths, p);
          if p !in s.pathsRefs {
            assert Holders(s.clientsToPaths, p) == {};
          }
        }
      }
    }
  }

  lemma CloseKeepsExactCounts(s: State, c: Client)
    requires ExactCounts(s)
    ensures ExactCounts(CloseClient(s, c))
  {
    if c in s.clientsToPaths {
      var t := CloseClient(s, c);
      var held := s.clientsToPaths[c];
      assert t.pathsRefs == ReleaseRefs(s.pathsRefs, held);
      assert t.clientsToPaths == s.clientsToPaths - {c};
      forall q | q in t.pathsRefs
        ensures t.pathsRefs[q] == |Holders(t.clientsToPaths, q)|
      {
        ForgetHolders(s.clientsToPaths, c, q);
        assert c in Holders(s.clientsToPaths, q) <==> q in held;
      }
    }
  }

  /** The corrected admission keeps the registry's invariant. */
  lemma CorrectedKeepsInv(cfg: Config, s: State, ctx: Option<Context>, url: Url)
    requires Inv(s)
    requires PlainPath(url.abspath)
    ensures Inv(MakePathCorrected(cfg, s, ctx, url).state)
  {
    MakePathPreservesInv(cfg, s, ctx, url);
  }

  /** With exact counts, a path stays in the table only while some client holds it. */
  lemma ExactCountsNoLeak(s: State, p: Path)
    requires Inv(s) && ExactCounts(s)
    requires p in s.pathsRefs
    ensures exists c :: c in s.clientsToPaths && p in s.clientsToPaths[c]
  {
    var h := Holders(s.clientsToPaths, p);
    assert |h| >= 1;
    var c :| c in h;
  }

  /** With exact counts, a registry without clients has no path and no mount. */
  lemma NothingMountedWithoutClients(s: State)
    requires Inv(s) && ExactCounts(s)
    ensures s.clientsToPaths == map[] ==> s.pathsRefs == map[] && s.mounts == map[]
  {
    if s.clientsToPaths == map[] {
      forall p
        ensures p !in s.pathsRefs
      {
        assert Holders(s.clientsToPaths, p) == {};
      }
      assert s.pathsRefs.Keys == {};
      assert MountNames({}) == {};
    }
  }

  /** One call, with requests resolved by the corrected admission. */
  function ApplyCorrected(cfg: Config, s: State, e: Event): State {
    match e
    case Request(ctx, url) => MakePathCorrected(cfg, s, ctx, url).state
    case Disconnect(c) => CloseClient(s, c)
  }

  function RunCorrected(cfg: Config, s: State, events: seq<Event>): State
    decreases |events|
  {
    if |events| == 0 then s else RunCorrected(cfg, ApplyCorrected(cfg, s, events[0]), events[1..])
  }

  /**
   With the corrected admission, every reachable state counts each path exactly
   once per holding client, so once no client is connected nothing is mounted.
   */
  lemma {:induction false} CorrectedRunReleasesEverything(cfg: Config, s: State, events: seq<Event>)
    requires Inv(s) && ExactCounts(s)
    requires PlainRequests(events)
    ensures var t := RunCorrected(cfg, s, events);
      Inv(t) && ExactCounts(t) && (t.clientsToPaths == map[] ==> t.pathsRefs == map[] && t.mounts == map[])
    decreases |events|
  {
    if |events| == 0 {
      NothingMountedWithoutClients(s);
    } else {
      match events[0] {
        case Request(ctx, url) =>
          CorrectedKeepsInv(cfg, s, ctx, url);
          CorrectedKeepsExactCounts(cfg, s, ctx, url);
        case Disconnect(c) =>
          CloseClientPreservesInv(s, c);
          CloseKeepsExactCounts(s, c);
      }
      PlainRequestsTail(events);
      CorrectedRunReleasesEverything(cfg, ApplyCorrected(cfg, s, events[0]), events[1..]);
    }
  }

  /** On the run that leaks as written, the corrected admission unmounts the path. */
  lemma CorrectedRepeatReleasesMount()
    ensures var s1 := MakePathCorrected(Open, Initial, Anonymous(A), CamPlayer).state;
      var s2 := MakePathCorrected(Open, s1, Anonymous(A), CamPlayer).state;
      var s3 := CloseClient(s2, A);
      s3.pathsRefs == map[] && s3.mounts == map[]
  {
    var s1 := MakePathCorrected(Open, Initial, Anonymous(A), CamPlayer).state;
    assert s1.pathsRefs == map["/cam1" := 1];
    assert s1.clientsToPaths == map[A := {"/cam1"}];
    var s2 := MakePathCorrected(Open, s1, Anonymous(A), CamPlayer).state;
    assert s2 == s1;
    var s3 := CloseClient(s2, A);
    assert "/cam1" !in s3.pathsRefs;
    assert s3.pathsRefs.Keys <= {"/cam1"};
    assert s1.mounts.Keys == {"/cam1", RecordName("/cam1")};
  }

  /** With one client per path, the corrected admission lets the holder in again and still refuses a second client. */
  lemma CorrectedCapAdmitsHolder()
    ensures var s1 := MakePathCorrected(OnePerPath, Initial, Anonymous(A), CamPlayer).state;
      && MakePathCorrected(OnePerPath, s1, Anonymous(A), CamPlayer).outcome == Admitted("/cam1")
      && MakePathCorrected(OnePerPath, s1, Anonymous(B), CamPlayer).outcome == Rejected(MaxClientsPerPathReached)
  {
    var s1 := MakePathCorrected(OnePerPath, Initial, Anonymous(A), CamPlayer).state;
    assert s1.pathsRefs == map["/cam1" := 1];
    assert s1.clientsToPaths == map[A := {"/cam1"}];
  }
}
