/** Deciding from two samples of a channel that a call was in flight all along. */
module InFlight {
  import opened Helpers
  import opened Wrappers

  datatype Connectivity = Idle | Connecting | Ready | TransientFailure | Shutdown

  datatype Event = Start(call: nat) | Succeed(call: nat) | Fail(call: nat) | Transition(state: Connectivity)

  /** Channelz data of a channel. */
  datatype Channel = Channel(id: int, target: string, state: Connectivity,
                             callsStarted: nat, callsSucceeded: nat, callsFailed: nat)

  // ---------- The check ----------

  function CalcCallsInFlight(ch: Channel): int {
    if ch.state != Ready then 0 else ch.callsStarted - ch.callsSucceeded - ch.callsFailed
  }

  /** `channel` is the first sample, `updated` the one loaded after the wait. */
  function CheckInFlightCalls(channel: Channel, updated: Channel): Option<Channel> {
    if CalcCallsInFlight(channel) == 0 then None
    else if CalcCallsInFlight(updated) == 0 || channel.callsStarted != updated.callsStarted then None
    else Some(updated)
  }

  // ---------- The channel ----------

  predicate IsFinish(e: Event, call: nat) {
    e == Succeed(call) || e == Fail(call)
  }

  /** The calls in flight after the events of `h`. */
  function InFlightSet(h: seq<Event>): set<nat> {
    if h == [] then {}
    else
      var before := InFlightSet(h[..|h| - 1]);
      match h[|h| - 1]
      case Start(c) => before + {c}
      case Succeed(c) => before - {c}
      case Fail(c) => before - {c}
      case Transition(_) => before
  }

  /** Call c has started by time t and has not finished. */
  ghost predicate InFlightAt(h: seq<Event>, t: nat, c: nat)
    requires t <= |h|
  {
    (exists i :: 0 <= i < t && h[i] == Start(c)) && forall i :: 0 <= i < t ==> !IsFinish(h[i], c)
  }

  /** Calls start once, and finish at most once, after they started. */
  ghost predicate Valid(h: seq<Event>) {
    && (forall i, j :: 0 <= i < j < |h| && h[i].Start? ==> h[j] != h[i])
    && (forall j, c :: 0 <= j < |h| && IsFinish(h[j], c) ==> InFlightAt(h, j, c))
  }

  function Count(h: seq<Event>, kind: int): nat {
    if h == [] then 0
    else Count(h[..|h| - 1], kind) + if KindOf(h[|h| - 1]) == kind then 1 else 0
  }

  function KindOf(e: Event): int {
    match e case Start(_) => 0 case Succeed(_) => 1 case Fail(_) => 2 case Transition(_) => 3
  }

  function StateAfter(h: seq<Event>): Connectivity {
    if h == [] then Idle
    else if h[|h| - 1].Transition? then h[|h| - 1].state
    else StateAfter(h[..|h| - 1])
  }

  /** What channelz reports at time t of a channel with history h. */
  function Sample(h: seq<Event>, t: nat, id: int, target: string): Channel
    requires t <= |h|
  {
    Channel(id, target, StateAfter(h[..t]), Count(h[..t], 0), Count(h[..t], 1), Count(h[..t], 2))
  }

  ghost predicate NoStartBetween(h: seq<Event>, t1: nat, t2: nat)
    requires t1 <= t2 <= |h|
  {
    forall i :: t1 <= i < t2 ==> !h[i].Start?
  }

  /** Call c is in flight at every moment from t1 to t2. */
  ghost predicate Spans(h: seq<Event>, t1: nat, t2: nat, c: nat)
    requires t1 <= t2 <= |h|
  {
    forall t :: t1 <= t <= t2 ==> InFlightAt(h, t, c)
  }

  lemma NoFinishBeforeStart(h: seq<Event>, i: nat, j: nat, c: nat)
    requires Valid(h) && i < j < |h| && h[j] == Start(c)
    ensures !IsFinish(h[i], c)
  {
  }

  lemma {:induction false} InFlightSetIs(h: seq<Event>, t: nat, c: nat)
    requires Valid(h) && t <= |h|
    ensures c in InFlightSet(h[..t]) <==> InFlightAt(h, t, c)
  {
    if t > 0 {
      InFlightSetIs(h, t - 1, c);
      assert h[..t][..t - 1] == h[..t - 1];
      if h[t - 1] == Start(c) {
        forall i | 0 <= i < t - 1 ensures !IsFinish(h[i], c) { NoFinishBeforeStart(h, i, t - 1, c); }
      }
    }
  }

  /** The counters tell exactly how many calls are in flight. */
  lemma {:induction false} CountersCount(h: seq<Event>, t: nat)
    requires Valid(h) && t <= |h|
    ensures |InFlightSet(h[..t])| == Count(h[..t], 0) - Count(h[..t], 1) - Count(h[..t], 2)
  {
    if t > 0 {
      CountersCount(h, t - 1);
      assert h[..t][..t - 1] == h[..t - 1];
      var e := h[t - 1];
      if e.Start? {
        InFlightSetIs(h, t - 1, e.call);
      } else if !e.Transition? {
        assert IsFinish(h[t - 1], e.call);
        InFlightSetIs(h, t - 1, e.call);
        assert InFlightAt(h, t - 1, e.call);
        var before := InFlightSet(h[..t - 1]);
        assert InFlightSet(h[..t]) == before - {e.call};
      }
    }
  }

  lemma {:induction false} EqualStartsMeanNone(h: seq<Event>, t1: nat, t2: nat)
    requires t1 <= t2 <= |h|
    ensures Count(h[..t1], 0) <= Count(h[..t2], 0)
    ensures Count(h[..t1], 0) == Count(h[..t2], 0) <==> NoStartBetween(h, t1, t2)
  {
    if t1 < t2 {
      EqualStartsMeanNone(h, t1, t2 - 1);
      assert h[..t2][..t2 - 1] == h[..t2 - 1];
    }
  }

  /** The check returns the channel exactly when the channel was READY at both samples, no
      call started in between, and some single call was in flight for the whole interval. */
  lemma CheckPassesIff(h: seq<Event>, t1: nat, t2: nat, id: int, target: string)
    requires Valid(h) && t1 <= t2 <= |h|
    ensures CheckInFlightCalls(Sample(h, t1, id, target), Sample(h, t2, id, target)).Some?
            <==> (&& StateAfter(h[..t1]) == Ready && StateAfter(h[..t2]) == Ready
                  && NoStartBetween(h, t1, t2)
                  && exists c :: Spans(h, t1, t2, c))
  {
    CountersCount(h, t1);
    CountersCount(h, t2);
    EqualStartsMeanNone(h, t1, t2);
    var s1, s2 := InFlightSet(h[..t1]), InFlightSet(h[..t2]);
    if CheckInFlightCalls(Sample(h, t1, id, target), Sample(h, t2, id, target)).Some? {
      assert s2 != {};
      var c :| c in s2;
      InFlightSetIs(h, t2, c);
      forall t | t1 <= t <= t2 ensures InFlightAt(h, t, c) {
        var i :| 0 <= i < t2 && h[i] == Start(c);
        assert i < t1;
      }
      assert Spans(h, t1, t2, c);
    }
    if c :| Spans(h, t1, t2, c) {
      assert InFlightAt(h, t1, c) && InFlightAt(h, t2, c);
      InFlightSetIs(h, t1, c);
      InFlightSetIs(h, t2, c);
      assert s1 != {} && s2 != {};
    }
  }

  // ---------- The search ----------

  datatype Reload = Loaded(channel: Channel) | NotFound | RpcFailure

  datatype Search = Active(channel: Channel) | ChannelNotActive | RpcError

  /** How one channel of the search turns out. */
  datatype Verdict = Passes | Skipped | Breaks

  function Examine(ch: Channel, reload: Reload): Verdict {
    if CalcCallsInFlight(ch) == 0 then Skipped
    else match reload
         case NotFound => Skipped
         case RpcFailure => Breaks
         case Loaded(updated) => if CheckInFlightCalls(ch, updated).Some? then Passes else Skipped
  }

  /** What a listed channel amounts to: those with another target are passed over. */
  function ExamineListed(ch: Channel, target: string, reload: Reload): Verdict {
    if Contains(ch.target, target) then Examine(ch, reload) else Skipped
  }

  /** READY, with calls that started and have not ended. */
  predicate Busy(ch: Channel) {
    ch.state == Ready && ch.callsStarted != ch.callsSucceeded + ch.callsFailed
  }

  /** Which channel ends the search: only one with the target in its own that is busy; it is
      the answer if it is busy on reloading, with no call started meanwhile, and breaks the
      search if reloading fails otherwise than by NotFound. */
  lemma ListedIff(ch: Channel, target: string, reload: Reload)
    ensures var candidate := Busy(ch) && exists i :: StandsAt(ch.target, target, i);
            && (ExamineListed(ch, target, reload).Passes?
                <==> candidate && reload.Loaded? && Busy(reload.channel) && reload.channel.callsStarted == ch.callsStarted)
            && (ExamineListed(ch, target, reload).Breaks? <==> candidate && reload == RpcFailure)
  {
    ContainsIff(ch.target, target);
  }

  /** `find_active_xds_channel`: over the channels listed one by one, what reloading each gives,
      and, in `broken`, whether the listing itself fails behind the last of them. */
  method FindActiveXdsChannel(channels: seq<Channel>, broken: bool, target: string, reload: nat -> Reload)
    returns (r: Search)
    ensures r.ChannelNotActive?
            <==> !broken && forall i :: 0 <= i < |channels| ==> ExamineListed(channels[i], target, reload(i)).Skipped?
    ensures r.Active? ==>
              exists i :: 0 <= i < |channels| && ExamineListed(channels[i], target, reload(i)).Passes?
                          && reload(i) == Loaded(r.channel)
                          && forall j :: 0 <= j < i ==> ExamineListed(channels[j], target, reload(j)).Skipped?
    ensures r.RpcError? ==>
              || (broken && forall i :: 0 <= i < |channels| ==> ExamineListed(channels[i], target, reload(i)).Skipped?)
              || exists i :: 0 <= i < |channels| && ExamineListed(channels[i], target, reload(i)).Breaks?
                             && forall j :: 0 <= j < i ==> ExamineListed(channels[j], target, reload(j)).Skipped?
  {
    for i := 0 to |channels|
      invariant forall j :: 0 <= j < i ==> ExamineListed(channels[j], target, reload(j)).Skipped?
    {
      var channel := channels[i];
      if Contains(channel.target, target) && CalcCallsInFlight(channel) != 0 {
        match reload(i) {
          case NotFound =>
          case RpcFailure => return RpcError;
          case Loaded(updated) =>
            var active := CheckInFlightCalls(channel, updated);
            if active.Some? { return Active(active.value); }
        }
      }
    }
    return if broken then RpcError else ChannelNotActive;
  }
}
