/**
 Concrete runs of the registry as written: a player and a publisher sharing a
 path, the distinct-path cap, and the authorization callback.
 */
module Scenarios {
  import opened Wrappers
  import opened MountPoints

  const Open: Config := Config(Callbacks(None), 0, 0, "splash")
  const TwoPaths: Config := Config(Callbacks(None), 2, 0, "splash")
  const OnePerPath: Config := Config(Callbacks(None), 0, 1, "splash")
  const A: Client := Client(10)
  const B: Client := Client(20)

  function Anonymous(c: Client): Option<Context> {
    Some(Context(c, None))
  }

  const Cam: Path := "/cam1"
  const CamRecord: string := "/cam1?record"
  const CamPlayer: Url := Url(Cam, None)
  const CamMounts: map<Path, Factory> := map[Cam := Play("splash", 0), CamRecord := Record(0)]

  /** After A plays /cam1: counted once, both factories mounted on channel 0. */
  const AfterPlay: State := State(map[Cam := 1], map[A := {Cam}], 1, CamMounts, multiset{A})

  /** After B publishes to /cam1 as well. */
  const AfterPublish: State :=
    State(map[Cam := 2], map[A := {Cam}, B := {Cam}], 1, CamMounts, multiset{A, B})

  /** After A leaves. */
  const AfterPlayerLeft: State := State(map[Cam := 1], map[B := {Cam}], 1, CamMounts, multiset{A, B})

  /** After B leaves too. */
  const AfterAllLeft: State := State(map[], map[], 1, map[], multiset{A, B})

  lemma PlayCreatesMountPoint()
    ensures MakePath(Open, Initial, Anonymous(A), CamPlayer) == Step(AfterPlay, Admitted(Cam))
  {
    assert RecordName(Cam) == CamRecord;
  }

  lemma PublishAddsReference()
    ensures MakePath(Open, AfterPlay, Anonymous(B), Url(Cam, Some("record"))) == Step(AfterPublish, Admitted(CamRecord))
  {
    assert RecordName(Cam) == CamRecord;
  }

  lemma PlayerLeavesMountPoint()
    ensures CloseClient(AfterPublish, A) == AfterPlayerLeft
  {
    var t := CloseClient(AfterPublish, A);
    assert t.pathsRefs == map[Cam := 1];
    assert t.clientsToPaths == map[B := {Cam}];
    assert Dropped(AfterPublish.pathsRefs, {Cam}) == {};
    assert MountNames({}) == {};
  }

  lemma PublisherLeavesNothing()
    ensures CloseClient(AfterPlayerLeft, B) == AfterAllLeft
  {
    var t := CloseClient(AfterPlayerLeft, B);
    assert t.pathsRefs == map[];
    assert t.clientsToPaths == map[];
    assert Dropped(AfterPlayerLeft.pathsRefs, {Cam}) == {Cam};
    assert RecordName(Cam) == CamRecord;
    assert MountNames({Cam}) == {Cam, CamRecord};
    assert t.mounts == map[];
  }

  /**
   A plays /cam1, then B publishes to it; the path is counted twice and stays
   mounted after A leaves; when B leaves too, both factories are unmounted.
   */
  lemma PlayerAndPublisher()
    ensures var r1 := MakePath(Open, Initial, Anonymous(A), CamPlayer);
      var r2 := MakePath(Open, r1.state, Anonymous(B), Url(Cam, Some("record")));
      var s3 := CloseClient(r2.state, A);
      var s4 := CloseClient(s3, B);
      && r1.outcome == Admitted("/cam1") && r1.state.pathsRefs == map["/cam1" := 1]
      && "/cam1" in r1.state.mounts && "/cam1?record" in r1.state.mounts
      && r2.outcome == Admitted("/cam1?record") && r2.state.pathsRefs == map["/cam1" := 2]
      && s3.pathsRefs == map["/cam1" := 1] && "/cam1" in s3.mounts && "/cam1?record" in s3.mounts
      && s4.pathsRefs == map[] && s4.mounts == map[]
  {
    PlayCreatesMountPoint();
    PublishAddsReference();
    PlayerLeavesMountPoint();
    PublisherLeavesNothing();
  }

  const PathA: Url := Url("/a", None)
  const PathB: Url := Url("/b", None)
  const PathC: Url := Url("/c", None)

  /** One path mounted under a cap of two. */
  const OneMounted: State :=
    State(map["/a" := 1], map[A := {"/a"}], 1, map["/a" := Play("splash", 0), "/a?record" := Record(0)], multiset{A})

  lemma FirstPathMounted()
    ensures MakePath(TwoPaths, Initial, Anonymous(A), PathA).state == OneMounted
  {
    assert RecordName("/a") == "/a?record";
  }

  lemma SecondPathCounted()
    ensures MakePath(TwoPaths, OneMounted, Anonymous(A), PathB).state.pathsRefs == map["/a" := 1, "/b" := 1]
  {
    assert |OneMounted.pathsRefs| == 1;
    assert !PathCapReached(TwoPaths, OneMounted, "/b");
    var r := RegisterClient(OneMounted, A, "/b");
    assert r.pathsRefs == OneMounted.pathsRefs;
    assert Reference(TwoPaths, r, "/b").pathsRefs == OneMounted.pathsRefs["/b" := 1];
  }

  /** Once "/a" and "/b" fill a cap of two, "/c" is refused and the other two are still admitted. */
  lemma FullTableOfTwo(s: State)
    requires s.pathsRefs == map["/a" := 1, "/b" := 1]
    ensures MakePath(TwoPaths, s, Anonymous(B), PathC).outcome == Rejected(MaxPathsReached)
    ensures MakePath(TwoPaths, s, Anonymous(B), PathA).outcome == Admitted("/a")
    ensures MakePath(TwoPaths, s, Anonymous(B), PathB).outcome == Admitted("/b")
  {
    assert s.pathsRefs.Keys == {"/a", "/b"};
    assert |s.pathsRefs| == 2;
    assert PathCapReached(TwoPaths, s, "/c");
    assert !PathCapReached(TwoPaths, s, "/a") && !PathCapReached(TwoPaths, s, "/b");
  }

  /** With at most two paths, a third distinct path is refused while the first two stay resolvable. */
  lemma ThirdPathRefused()
    ensures var s2 := MakePath(TwoPaths, MakePath(TwoPaths, Initial, Anonymous(A), PathA).state, Anonymous(A), PathB).state;
      && MakePath(TwoPaths, s2, Anonymous(B), PathC).outcome == Rejected(MaxPathsReached)
      && MakePath(TwoPaths, s2, Anonymous(B), PathA).outcome == Admitted("/a")
      && MakePath(TwoPaths, s2, Anonymous(B), PathB).outcome == Admitted("/b")
  {
    FirstPathMounted();
    SecondPathCounted();
    FullTableOfTwo(MakePath(TwoPaths, OneMounted, Anonymous(A), PathB).state);
  }

  /** Admits an admin anywhere, and a caller without a role (user "") on "/pub" only. */
  const AdminOrPublic: Config :=
    Config(Callbacks(Some((user: string, path: Path) => user == "admin" || (user == "" && path == "/pub"))), 0, 0, "splash")

  /** The callback sees the token's role, or "" without a token or without a role; its refusal leaves the registry untouched. */
  lemma CallbackSeesRole()
    ensures MakePath(AdminOrPublic, Initial, Some(Context(A, Some(Token(Some("admin"))))), Url("/a", None)).outcome == Admitted("/a")
    ensures MakePath(AdminOrPublic, Initial, Some(Context(A, None)), Url("/pub", None)).outcome == Admitted("/pub")
    ensures MakePath(AdminOrPublic, Initial, Some(Context(A, Some(Token(None)))), Url("/pub", None)).outcome == Admitted("/pub")
    ensures MakePath(AdminOrPublic, Initial, Some(Context(A, Some(Token(Some("guest"))))), Url("/pub", None)) ==
      Step(Initial, Rejected(AccessDenied))
    ensures MakePath(AdminOrPublic, Initial, Some(Context(A, None)), Url("/a", None)) == Step(Initial, Rejected(AccessDenied))
    ensures MakePath(AdminOrPublic, Initial, Some(Context(A, Some(Token(None)))), Url("/a", None)) ==
      Step(Initial, Rejected(AccessDenied))
    ensures MakePath(AdminOrPublic, Initial, None, Url("/a", None)) == Step(Initial, Rejected(NoContext))
  {
  }
}
