/** The traffic-signal simulator: congestion tiers, the GREEN duration they
    select, the one-second tick that perturbs vehicle counts and advances the
    RED -> GREEN -> YELLOW -> RED cycle, the start-up seeding and the
    administrator's override. The live list of signals is owned by a
    `SignalRegistry` object; every broadcast is recorded in a ghost log. */
module TrafficSimulator {
  import opened Common

  datatype Light = Red | Yellow | Green
  datatype Tier = Low | Medium | High

  /** The string a tier travels as ("LOW", "MEDIUM", "HIGH"). */
  function TierName(t: Tier): string {
    match t
    case Low => "LOW"
    case Medium => "MEDIUM"
    case High => "HIGH"
  }

  /** A tier's position in the order LOW < MEDIUM < HIGH. */
  function Rank(t: Tier): nat {
    match t
    case Low => 0
    case Medium => 1
    case High => 2
  }

  /** `getCongestionLevel`: the tier of a vehicle count. */
  function CongestionLevel(vehicles: int): (t: Tier)
    ensures t == Low <==> vehicles < 30
    ensures t == Medium <==> 30 <= vehicles < 60
    ensures t == High <==> 60 <= vehicles
  {
    if vehicles < 30 then Low
    else if vehicles < 60 then Medium
    else High
  }

  /** More vehicles never give a lower tier. */
  lemma CongestionMonotone(v: int, w: int)
    requires v <= w
    ensures Rank(CongestionLevel(v)) <= Rank(CongestionLevel(w))
  {
  }

  /** `calculateGreenDuration`, a switch on the congestion label with a
      fall-back for any label it does not know. */
  function GreenDuration(congestion: string): (d: int)
    ensures d in {10, 15, 20, 40}
    ensures congestion == "HIGH" ==> d == 40
    ensures congestion == "MEDIUM" ==> d == 20
    ensures congestion == "LOW" ==> d == 10
    ensures congestion !in {"HIGH", "MEDIUM", "LOW"} ==> d == 15
  {
    match congestion
    case "HIGH" => 40
    case "MEDIUM" => 20
    case "LOW" => 10
    case _ => 15
  }

  /** The GREEN phase is always positive, and a higher tier is never shorter. */
  lemma GreenDurationByTier(t: Tier, u: Tier)
    requires Rank(t) <= Rank(u)
    ensures 10 <= GreenDuration(TierName(t)) <= GreenDuration(TierName(u)) <= 40
  {
  }

  /** The fixed YELLOW and clock-driven RED durations. */
  const YellowSeconds := 5
  const RedSeconds := 20

  /** One signal as the simulator keeps it. `congestion` is absent until the
      first tick computes it; `lastUpdated` is the opaque timestamp of the last
      tick. */
  datatype Signal = Signal(
    id: string,
    lat: real,
    lng: real,
    vehicles: int,
    congestion: Option<Tier>,
    currentLight: Light,
    timer: int,
    phaseDuration: int,
    lastUpdated: Option<string>)

  /** One record of the static seed file: an id, a location and maybe a count. */
  datatype SeedEntry = SeedEntry(id: string, lat: real, lng: real, vehicles: Option<int>)

  /** The record the initial load makes of one seed entry. */
  function SeedSignal(e: SeedEntry): (s: Signal)
    ensures s.id == e.id && s.lat == e.lat && s.lng == e.lng
    ensures s.currentLight == Red && s.timer == 0 && s.phaseDuration == 10
    ensures s.vehicles == (if e.vehicles.Some? then e.vehicles.value else 0)
  {
    // `s.vehicles || 0`: an absent count and a count of 0 both give 0
    var vehicles := if e.vehicles.Some? && e.vehicles.value != 0 then e.vehicles.value else 0;
    Signal(e.id, e.lat, e.lng, vehicles, None, Red, 0, 10, None)
  }

  /** The initial load: one seeded signal per entry, in the file's order. */
  function Seeded(seed: seq<SeedEntry>): (ss: seq<Signal>)
    ensures |ss| == |seed|
    ensures forall i :: 0 <= i < |seed| ==> ss[i] == SeedSignal(seed[i])
  {
    seq(|seed|, i requires 0 <= i < |seed| => SeedSignal(seed[i]))
  }

  /** `Math.max(0, Math.min(100, v))`. */
  function Clamp(v: int): (r: int)
    ensures 0 <= r <= 100
    ensures 0 <= v <= 100 ==> r == v
    ensures v < 0 ==> r == 0
    ensures 100 < v ==> r == 100
  {
    var m := if v < 100 then v else 100;
    if 0 < m then m else 0
  }

  /** The phase a signal enters when its timer runs out. */
  function NextLight(l: Light): Light {
    match l
    case Red => Green
    case Green => Yellow
    case Yellow => Red
  }

  /** Seconds given to a phase entered by the clock; only GREEN depends on
      congestion. */
  function EntrySeconds(l: Light, tier: Tier): (d: int)
    ensures d > 0
  {
    match l
    case Green => GreenDuration(TierName(tier))
    case Yellow => YellowSeconds
    case Red => RedSeconds
  }

  /** Three clock-driven transitions lead back to the starting phase, passing
      through the other two. */
  lemma CycleOfThree(l: Light)
    ensures NextLight(NextLight(NextLight(l))) == l
    ensures {l, NextLight(l), NextLight(NextLight(l))} == {Red, Yellow, Green}
  {
  }

  /** What one tick makes of one signal, given the vehicle delta drawn for
      it and the tick's timestamp. */
  function Ticked(s: Signal, change: int, now: string): (r: Signal)
    ensures r.id == s.id && r.lat == s.lat && r.lng == s.lng
    ensures 0 <= r.vehicles <= 100 && r.vehicles == Clamp(s.vehicles + change)
    ensures r.congestion == Some(CongestionLevel(r.vehicles))
    ensures r.timer >= 0 && r.lastUpdated == Some(now)
    ensures s.timer > 0 ==>
      r.timer == s.timer - 1 && r.currentLight == s.currentLight && r.phaseDuration == s.phaseDuration
    ensures s.timer <= 0 ==>
      && r.currentLight == NextLight(s.currentLight)
      && r.timer == r.phaseDuration == EntrySeconds(r.currentLight, CongestionLevel(r.vehicles))
  {
    var vehicles := Clamp(s.vehicles + change);
    var tier := CongestionLevel(vehicles);
    var s' := s.(vehicles := vehicles, congestion := Some(tier), lastUpdated := Some(now));
    if s.timer > 0 then
      s'.(timer := s.timer - 1)
    else
      var light := NextLight(s.currentLight);
      var t := EntrySeconds(light, tier);
      s'.(currentLight := light, timer := t, phaseDuration := t)
  }

  /** The per-signal body of the tick, as the source writes it: local copies
      of the light, timer and count updated step by step. */
  method TickSignal(signal: Signal, change: int, now: string) returns (r: Signal)
    ensures r == Ticked(signal, change, now)
  {
    var currentLight, timer, vehicles := signal.currentLight, signal.timer, signal.vehicles;
    var phaseDuration := signal.phaseDuration;
    vehicles := Clamp(vehicles + change);
    var congestion := CongestionLevel(vehicles);
    if timer > 0 {
      timer := timer - 1;
    } else {
      if currentLight == Red {
        currentLight := Green;
        timer := GreenDuration(TierName(congestion));
      } else if currentLight == Green {
        currentLight := Yellow;
        timer := YellowSeconds;
      } else if currentLight == Yellow {
        currentLight := Red;
        timer := RedSeconds;
      }
      phaseDuration := timer;
    }
    r := signal.(vehicles := vehicles, congestion := Some(congestion), currentLight := currentLight,
                 timer := timer, phaseDuration := phaseDuration, lastUpdated := Some(now));
  }

  /** The delta range of `getRandomInt(-5, 8)`. */
  predicate IsDelta(change: int) {
    -5 <= change <= 8
  }

  /** A whole tick over the list: one delta per signal, order kept. */
  function TickAll(ss: seq<Signal>, changes: seq<int>, now: string): (r: seq<Signal>)
    requires |changes| == |ss|
    ensures |r| == |ss|
    ensures forall i :: 0 <= i < |ss| ==> r[i] == Ticked(ss[i], changes[i], now)
  {
    seq(|ss|, i requires 0 <= i < |ss| => Ticked(ss[i], changes[i], now))
  }

  /** With a drawn delta, a count already in range moves by at most 5 down
      and 8 up. */
  lemma TickDrift(s: Signal, change: int, now: string)
    requires IsDelta(change) && 0 <= s.vehicles <= 100
    ensures s.vehicles - 5 <= Ticked(s, change, now).vehicles <= s.vehicles + 8
  {
  }

  /** An override message from an administrator's socket. */
  datatype OverrideCommand = OverrideCommand(id: string, action: string, duration: Option<int>)

  /** `duration || fallback`: an absent or zero duration gives the fall-back. */
  function DurationOr(duration: Option<int>, fallback: int): (d: int)
    ensures duration.None? || duration.value == 0 ==> d == fallback
    ensures duration.Some? && duration.value != 0 ==> d == duration.value
    ensures fallback != 0 ==> d != 0
    ensures duration.Some? && duration.value > 0 ==> d == duration.value
    ensures (duration.None? || duration.value >= 0) && fallback > 0 ==> d > 0
  {
    if duration.Some? && duration.value != 0 then duration.value else fallback
  }

  /** The override applied to the signal it names. An action the handler
      does not recognise leaves the signal as it was. */
  function Forced(s: Signal, action: string, duration: Option<int>): (r: Signal)
    ensures r.(currentLight := s.currentLight, timer := s.timer, phaseDuration := s.phaseDuration) == s
    ensures action == "forceGreen" ==> r.currentLight == Green && r.timer == r.phaseDuration == DurationOr(duration, 30)
    ensures action == "forceRed" ==> r.currentLight == Red && r.timer == r.phaseDuration == DurationOr(duration, 30)
    ensures action == "forceYellow" ==> r.currentLight == Yellow && r.timer == r.phaseDuration == DurationOr(duration, 5)
    ensures action !in {"forceGreen", "forceRed", "forceYellow"} ==> r == s
  {
    if action == "forceGreen" then
      var d := DurationOr(duration, 30);
      s.(currentLight := Green, timer := d, phaseDuration := d)
    else if action == "forceRed" then
      var d := DurationOr(duration, 30);
      s.(currentLight := Red, timer := d, phaseDuration := d)
    else if action == "forceYellow" then
      var d := DurationOr(duration, 5);
      s.(currentLight := Yellow, timer := d, phaseDuration := d)
    else
      s
  }

  /** `signalsState.find(s => s.id === id)`: the position of the first signal
      with that id, if any. */
  function FindSignal(ss: seq<Signal>, id: string): (r: Option<nat>)
    ensures r.Some? ==> r.value < |ss| && ss[r.value].id == id
    ensures r.Some? ==> forall j :: 0 <= j < r.value ==> ss[j].id != id
    ensures r.None? <==> forall j :: 0 <= j < |ss| ==> ss[j].id != id
  {
    if ss == [] then None
    else if ss[0].id == id then Some(0)
    else match FindSignal(ss[1..], id)
      case None => None
      case Some(k) => Some(k + 1)
  }

  /** The list after an override: the first signal with the command's id is
      forced, every other signal is left alone. */
  function Overridden(ss: seq<Signal>, cmd: OverrideCommand): (r: seq<Signal>)
    ensures |r| == |ss|
    ensures FindSignal(ss, cmd.id).None? ==> r == ss
    ensures FindSignal(ss, cmd.id).Some? ==>
      var k := FindSignal(ss, cmd.id).value;
      r == ss[k := Forced(ss[k], cmd.action, cmd.duration)]
  {
    match FindSignal(ss, cmd.id)
    case None => ss
    case Some(k) => ss[k := Forced(ss[k], cmd.action, cmd.duration)]
  }

  /** The live signal list and every snapshot broadcast from it. */
  class SignalRegistry {
    var signals: seq<Signal>
    ghost var broadcasts: seq<seq<Signal>>

    constructor ()
      ensures signals == [] && broadcasts == []
    {
      signals := [];
      broadcasts := [];
    }

    /** The initial load, which happens only while the list is still empty. */
    method Load(seed: seq<SeedEntry>)
      modifies this`signals
      ensures old(signals) == [] ==> signals == Seeded(seed)
      ensures old(signals) != [] ==> signals == old(signals)
    {
      if |signals| == 0 {
        signals := Seeded(seed);
      }
    }

    /** One run of the one-second interval: the list is rebuilt signal by
        signal, then broadcast once. */
    method Tick(changes: seq<int>, now: string)
      requires |changes| == |signals|
      requires forall i :: 0 <= i < |changes| ==> IsDelta(changes[i])
      modifies this
      ensures signals == TickAll(old(signals), changes, now)
      ensures broadcasts == old(broadcasts) + [signals]
    {
      var current, next: seq<Signal> := signals, [];
      var i := 0;
      while i < |current|
        invariant 0 <= i <= |current|
        invariant |next| == i
        invariant forall j :: 0 <= j < i ==> next[j] == Ticked(current[j], changes[j], now)
        invariant broadcasts == old(broadcasts)
      {
        var r := TickSignal(current[i], changes[i], now);
        next := next + [r];
        i := i + 1;
      }
      signals := next;
      broadcasts := broadcasts + [signals];
    }

    /** The `adminSignalUpdate` handler: an unknown id changes nothing and is
        not broadcast; a known id is broadcast even when the action is not
        recognised. */
    method Override(cmd: OverrideCommand)
      modifies this
      ensures signals == Overridden(old(signals), cmd)
      ensures FindSignal(old(signals), cmd.id).None? ==> broadcasts == old(broadcasts)
      ensures FindSignal(old(signals), cmd.id).Some? ==> broadcasts == old(broadcasts) + [signals]
    {
      match FindSignal(signals, cmd.id)
      case None =>
      case Some(k) =>
        var s := signals[k];
        if cmd.action == "forceGreen" {
          s := s.(currentLight := Green, timer := DurationOr(cmd.duration, 30), phaseDuration := DurationOr(cmd.duration, 30));
        } else if cmd.action == "forceRed" {
          s := s.(currentLight := Red, timer := DurationOr(cmd.duration, 30), phaseDuration := DurationOr(cmd.duration, 30));
        } else if cmd.action == "forceYellow" {
          s := s.(currentLight := Yellow, timer := DurationOr(cmd.duration, 5), phaseDuration := DurationOr(cmd.duration, 5));
        }
        signals := signals[k := s];
        broadcasts := broadcasts + [signals];
    }
  }
}
