/**
 Sequences of calls into the registry: requests and disconnect notifications
 delivered one at a time, as the framework's main loop delivers them.
 Over any such run the invariant holds at every point, and the channels
 created are numbered consecutively from the counter, so no channel name is
 ever issued twice, even when a path is torn down and created again.
 */
module Traces {
  import opened Wrappers
  import opened MountPoints
  import opened Invariant

  /** One call into the registry. */
  datatype Event = Request(ctx: Option<Context>, url: Url) | Disconnect(client: Client)

  /** The state after one call. */
  function Apply(cfg: Config, s: State, e: Event): State {
    match e
    case Request(ctx, url) => MakePath(cfg, s, ctx, url).state
    case Disconnect(c) => CloseClient(s, c)
  }

  /** The channel of the mount point one call creates, if it creates one. */
  function Created(cfg: Config, s: State, e: Event): seq<nat> {
    match e
    case Request(ctx, url) =>
      var r := MakePath(cfg, s, ctx, url);
      if r.outcome.Admitted? && url.abspath !in s.pathsRefs then [r.state.mounts[url.abspath].channel] else []
    case Disconnect(_) => []
  }

  /** The state after a sequence of calls. */
  function Run(cfg: Config, s: State, events: seq<Event>): State
    decreases |events|
  {
    if |events| == 0 then s else Run(cfg, Apply(cfg, s, events[0]), events[1..])
  }

  /** The channels created along a sequence of calls, in order. */
  function Issued(cfg: Config, s: State, events: seq<Event>): seq<nat>
    decreases |events|
  {
    if |events| == 0 then [] else Created(cfg, s, events[0]) + Issued(cfg, Apply(cfg, s, events[0]), events[1..])
  }

  /** Every requested path carries no query marker, as the framework's URL parser delivers it. */
  predicate PlainRequests(events: seq<Event>) {
    forall i :: 0 <= i < |events| && events[i].Request? ==> PlainPath(events[i].url.abspath)
  }

  /** Dropping the first call keeps every remaining request path plain. */
  lemma PlainRequestsTail(events: seq<Event>)
    requires |events| > 0 && PlainRequests(events)
    ensures PlainRequests(events[1..])
  {
    forall i | 0 <= i < |events[1..]| && events[1..][i].Request?
      ensures PlainPath(events[1..][i].url.abspath)
    {
      assert events[1..][i] == events[i + 1];
    }
  }

  lemma ApplyPreservesInv(cfg: Config, s: State, e: Event)
    requires Inv(s)
    requires e.Request? ==> PlainPath(e.url.abspath)
    ensures Inv(Apply(cfg, s, e))
  {
    match e
    case Request(ctx, url) => MakePathPreservesInv(cfg, s, ctx, url);
    case Disconnect(c) => CloseClientPreservesInv(s, c);
  }

  /** The invariant holds after every sequence of calls with plain request paths. */
  lemma {:induction false} RunPreservesInv(cfg: Config, s: State, events: seq<Event>)
    requires Inv(s)
    requires PlainRequests(events)
    ensures Inv(Run(cfg, s, events))
    decreases |events|
  {
    if |events| > 0 {
      ApplyPreservesInv(cfg, s, events[0]);
      PlainRequestsTail(events);
      RunPreservesInv(cfg, Apply(cfg, s, events[0]), events[1..]);
    }
  }

  /** Every state the registry reaches from construction satisfies the invariant. */
  lemma ReachableInv(cfg: Config, events: seq<Event>)
    requires PlainRequests(events)
    ensures Inv(Run(cfg, Initial, events))
  {
    InitialInv();
    RunPreservesInv(cfg, Initial, events);
  }

  /** One call creates at most the channel numbered by the counter, and moves the counter past it. */
  lemma CreatedIsCounter(cfg: Config, s: State, e: Event)
    ensures Apply(cfg, s, e).proxy == s.proxy + |Created(cfg, s, e)|
    ensures |Created(cfg, s, e)| == 1 ==> Created(cfg, s, e)[0] == s.proxy
  {
  }

  /**
   The channels created along a run are the counter's values in order, one
   after the other, and the counter ends just past the last of them.
   */
  lemma {:induction false} IssuedConsecutive(cfg: Config, s: State, events: seq<Event>)
    ensures Run(cfg, s, events).proxy == s.proxy + |Issued(cfg, s, events)|
    ensures forall i :: 0 <= i < |Issued(cfg, s, events)| ==> Issued(cfg, s, events)[i] == s.proxy + i
    decreases |events|
  {
    if |events| > 0 {
      var t := Apply(cfg, s, events[0]);
      CreatedIsCounter(cfg, s, events[0]);
      IssuedConsecutive(cfg, t, events[1..]);
    }
  }

  /**
   No channel name is issued twice along a run, and none repeats a name
   issued before the run began.
   */
  lemma ChannelNamesNeverRepeat(cfg: Config, s: State, events: seq<Event>)
    ensures var issued := Issued(cfg, s, events);
      forall i, j :: 0 <= i < j < |issued| ==> ChannelName(issued[i]) != ChannelName(issued[j])
    ensures var issued := Issued(cfg, s, events);
      forall i, k :: 0 <= i < |issued| && 0 <= k < s.proxy ==> ChannelName(issued[i]) != ChannelName(k)
  {
    IssuedConsecutive(cfg, s, events);
    var issued := Issued(cfg, s, events);
    forall i, j | 0 <= i < j < |issued|
      ensures ChannelName(issued[i]) != ChannelName(issued[j])
    {
      ChannelNameInjective(issued[i], issued[j]);
    }
    forall i, k | 0 <= i < |issued| && 0 <= k < s.proxy
      ensures ChannelName(issued[i]) != ChannelName(k)
    {
      ChannelNameInjective(issued[i], k);
    }
  }
}
