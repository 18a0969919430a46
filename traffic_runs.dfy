/** Properties of the simulator over many steps: an interleaving of ticks and
    overrides (the server handles them one at a time), and the countdown of a
    single signal under the clock alone. */
module TrafficRuns {
  import opened Common
  import opened TrafficSimulator

  /** One thing that can happen to the registry. */
  datatype Event = TickEvent(changes: seq<int>, now: string) | OverrideEvent(cmd: OverrideCommand)

  /** A tick draws one delta in range per signal of a list of `n` signals. */
  predicate FitsList(e: Event, n: nat) {
    e.TickEvent? ==> |e.changes| == n && forall j :: 0 <= j < n ==> IsDelta(e.changes[j])
  }

  predicate AllFit(events: seq<Event>, n: nat) {
    forall i :: 0 <= i < |events| ==> FitsList(events[i], n)
  }

  /** What one event makes of the list. */
  function Apply(ss: seq<Signal>, e: Event): (r: seq<Signal>)
    requires FitsList(e, |ss|)
    ensures |r| == |ss|
  {
    match e
    case TickEvent(changes, now) => TickAll(ss, changes, now)
    case OverrideEvent(cmd) => Overridden(ss, cmd)
  }

  /** The list after a whole sequence of events, applied in order. */
  function Run(ss: seq<Signal>, events: seq<Event>): (r: seq<Signal>)
    requires AllFit(events, |ss|)
    ensures |r| == |ss|
    decreases |events|
  {
    if events == [] then ss
    else
      assert FitsList(events[0], |ss|);
      Run(Apply(ss, events[0]), events[1..])
  }

  /** No event adds, removes, reorders or relocates a signal. */
  lemma {:induction false} RunKeepsIdentity(ss: seq<Signal>, events: seq<Event>)
    requires AllFit(events, |ss|)
    ensures forall i :: 0 <= i < |ss| ==>
      Run(ss, events)[i].id == ss[i].id && Run(ss, events)[i].lat == ss[i].lat && Run(ss, events)[i].lng == ss[i].lng
    decreases |events|
  {
    if events != [] {
      assert FitsList(events[0], |ss|);
      var next := Apply(ss, events[0]);
      assert forall i :: 0 <= i < |ss| ==> next[i].id == ss[i].id && next[i].lat == ss[i].lat && next[i].lng == ss[i].lng;
      RunKeepsIdentity(next, events[1..]);
    }
  }

  /** The registry's invariant once every signal has been ticked at least
      once: counts within [0,100], a matching congestion tier and a timer
      that is not negative. */
  ghost predicate Settled(ss: seq<Signal>) {
    forall i :: 0 <= i < |ss| ==>
      && 0 <= ss[i].vehicles <= 100
      && ss[i].congestion == Some(CongestionLevel(ss[i].vehicles))
      && ss[i].timer >= 0
  }

  /** Every override carries no negative duration. */
  predicate NoNegativeDuration(events: seq<Event>) {
    forall i :: 0 <= i < |events| ==>
      events[i].OverrideEvent? && events[i].cmd.duration.Some? ==> events[i].cmd.duration.value >= 0
  }

  /** A tick settles any list, whatever it held before. */
  lemma TickSettles(ss: seq<Signal>, changes: seq<int>, now: string)
    requires |changes| == |ss|
    ensures Settled(TickAll(ss, changes, now))
  {
  }

  /** Ticks and overrides keep a settled list settled, as long as no override
      asks for a negative duration (the handler does not reject one). */
  lemma {:induction false} RunKeepsSettled(ss: seq<Signal>, events: seq<Event>)
    requires AllFit(events, |ss|) && NoNegativeDuration(events) && Settled(ss)
    ensures Settled(Run(ss, events))
    decreases |events|
  {
    if events != [] {
      var e := events[0];
      assert FitsList(e, |ss|);
      var next := Apply(ss, e);
      if e.OverrideEvent? {
        var cmd := e.cmd;
        match FindSignal(ss, cmd.id)
        case None =>
        case Some(k) =>
          assert cmd.duration.Some? ==> cmd.duration.value >= 0;
          assert next[k].timer >= 0;
          assert forall i :: 0 <= i < |ss| && i != k ==> next[i] == ss[i];
      }
      assert Settled(next);
      assert AllFit(events[1..], |next|);
      assert NoNegativeDuration(events[1..]);
      RunKeepsSettled(next, events[1..]);
    }
  }

  /** A negative override duration does make the timer negative. */
  lemma NegativeDurationAccepted(s: Signal)
    ensures Forced(s, "forceRed", Some(-3)).timer == -3
  {
  }

  /** One signal under the clock alone, one delta per tick. */
  function TickSeq(s: Signal, changes: seq<int>, now: string): Signal
    decreases |changes|
  {
    if changes == [] then s else TickSeq(Ticked(s, changes[0], now), changes[1..], now)
  }

  /** `n` clock-driven transitions from `l`. */
  function Advance(l: Light, n: nat): Light
    decreases n
  {
    if n == 0 then l else Advance(NextLight(l), n - 1)
  }

  /** A phase with `timer` seconds left keeps its light and duration for
      exactly that many ticks, reaching zero at the end. */
  lemma {:induction false} Countdown(s: Signal, changes: seq<int>, now: string)
    requires 0 <= s.timer && |changes| == s.timer
    ensures TickSeq(s, changes, now).currentLight == s.currentLight
    ensures TickSeq(s, changes, now).phaseDuration == s.phaseDuration
    ensures TickSeq(s, changes, now).timer == 0
    decreases |changes|
  {
    if changes != [] {
      Countdown(Ticked(s, changes[0], now), changes[1..], now);
    }
  }

  /** The tick after the countdown switches to the next phase of the cycle. */
  lemma SwitchAfterCountdown(s: Signal, changes: seq<int>, now: string)
    requires 0 <= s.timer && |changes| == s.timer + 1
    ensures TickSeq(s, changes, now).currentLight == NextLight(s.currentLight)
  {
    var front := changes[..s.timer];
    Countdown(s, front, now);
    TickSeqSplit(s, front, [changes[s.timer]], now);
    assert front + [changes[s.timer]] == changes;
  }

  lemma {:induction false} TickSeqSplit(s: Signal, xs: seq<int>, ys: seq<int>, now: string)
    ensures TickSeq(s, xs + ys, now) == TickSeq(TickSeq(s, xs, now), ys, now)
    decreases |xs|
  {
    if xs == [] {
      assert xs + ys == ys;
    } else {
      assert (xs + ys)[0] == xs[0] && (xs + ys)[1..] == xs[1..] + ys;
      TickSeqSplit(Ticked(s, xs[0], now), xs[1..], ys, now);
    }
  }

  /** How many of the ticks found the timer run out, one light change each. */
  function Expirations(s: Signal, changes: seq<int>, now: string): (k: nat)
    ensures k <= |changes|
    decreases |changes|
  {
    if changes == [] then 0
    else (if s.timer <= 0 then 1 else 0) + Expirations(Ticked(s, changes[0], now), changes[1..], now)
  }

  /** Under the clock alone a signal only ever moves forward through the
      cycle, one light per expired timer: after any ticks its light is the
      starting light advanced by exactly the number of ticks that found the
      timer run out, so no phase is skipped and none is repeated. */
  lemma {:induction false} ClockFollowsCycle(s: Signal, changes: seq<int>, now: string)
    ensures TickSeq(s, changes, now).currentLight == Advance(s.currentLight, Expirations(s, changes, now))
    decreases |changes|
  {
    if changes != [] {
      var t := Ticked(s, changes[0], now);
      var k := Expirations(t, changes[1..], now);
      ClockFollowsCycle(t, changes[1..], now);
      if s.timer <= 0 {
        assert t.currentLight == NextLight(s.currentLight);
        assert Advance(s.currentLight, k + 1) == Advance(t.currentLight, k);
      }
    }
  }

  /** A seeded signal with 50 vehicles and a delta of 0 turns GREEN for the
      MEDIUM tier's 20 seconds on the first tick. */
  lemma MediumSeedFirstTick(now: string)
    ensures var s := Ticked(SeedSignal(SeedEntry("S1", 22.50, 88.37, Some(50))), 0, now);
      s.congestion == Some(Medium) && s.currentLight == Green && s.timer == 20
  {
  }
}
