/** The signal panel's reading history: on each new reading of the selected
    signal it keeps the last nine samples and appends the new one, so the
    buffer never holds more than ten. */
module SignalInfoPanel {
  import opened Common

  /** What the panel is given about the selected signal. */
  datatype Reading = Reading(vehicles: int, avgSpeed: real, aqi: real)

  /** One history entry; `time` is the opaque local time label. */
  datatype Sample = Sample(time: string, vehicles: int, avgSpeed: real, aqi: real)

  const Capacity := 10

  /** `s.slice(-n)` for n > 0: the last `n` entries, or all of them when there
      are fewer. */
  function LastN<T>(s: seq<T>, n: nat): (r: seq<T>)
    ensures |r| == if |s| < n then |s| else n
  {
    if |s| <= n then s else s[|s| - n..]
  }

  /** The update passed to `setHistory`: `[...prev.slice(-9), sample]`. */
  function NextHistory(prev: seq<Sample>, sample: Sample): (r: seq<Sample>)
    ensures |r| == (if |prev| < Capacity - 1 then |prev| else Capacity - 1) + 1
    ensures r[|r| - 1] == sample
    ensures r[..|r| - 1] == prev[|prev| - (|r| - 1)..]
    ensures |prev| < Capacity ==> r == prev + [sample]
    ensures |prev| >= Capacity - 1 ==> |r| == Capacity
  {
    LastN(prev, Capacity - 1) + [sample]
  }

  /** The buffer after a run of readings, one sample each. */
  function Fill(h: seq<Sample>, samples: seq<Sample>): seq<Sample>
    decreases |samples|
  {
    if samples == [] then h else Fill(NextHistory(h, samples[0]), samples[1..])
  }

  /** One update keeps the last ten of the old history plus the new sample. */
  lemma NextIsLastTen(h: seq<Sample>, x: Sample)
    ensures NextHistory(h, x) == LastN(h + [x], Capacity)
  {
    var all := h + [x];
    if |h| >= Capacity - 1 {
      assert all[|all| - Capacity..] == h[|h| - (Capacity - 1)..] + [x];
    }
  }

  /** After one or more readings the buffer is exactly the last ten samples
      of everything seen, oldest first: older entries leave first and the
      order of those kept never changes. */
  lemma {:induction false} FillKeepsLastTen(h: seq<Sample>, samples: seq<Sample>)
    requires samples != []
    ensures Fill(h, samples) == LastN(h + samples, Capacity)
    decreases |samples|
  {
    var h' := NextHistory(h, samples[0]);
    var all, rest := h + [samples[0]], samples[1..];
    assert h' == LastN(all, Capacity) by {
      NextIsLastTen(h, samples[0]);
    }
    assert h + samples == all + rest;
    if rest == [] {
      assert all + rest == all;
    } else {
      calc {
        Fill(h, samples);
        Fill(h', rest);
        { FillKeepsLastTen(h', rest); }
        LastN(h' + rest, Capacity);
        { LastNAppend(all, rest, Capacity); }
        LastN(all + rest, Capacity);
      }
    }
  }

  /** Keeping the last `n` of a prefix first does not change the last `n` of
      the whole. */
  lemma LastNAppend<T>(a: seq<T>, b: seq<T>, n: nat)
    ensures LastN(LastN(a, n) + b, n) == LastN(a + b, n)
  {
    var la := LastN(a, n);
    assert la + b == (a + b)[|a| - |la|..];
  }

  /** The panel's `history` state. */
  class HistoryBuffer {
    var history: seq<Sample>

    constructor ()
      ensures history == []
    {
      history := [];
    }

    /** The effect run on a new reading: no signal leaves the history alone. */
    method Record(signal: Option<Reading>, time: string)
      modifies this
      ensures signal.None? ==> history == old(history)
      ensures signal.Some? ==>
        history == NextHistory(old(history), Sample(time, signal.value.vehicles, signal.value.avgSpeed, signal.value.aqi))
      ensures |old(history)| <= Capacity ==> |history| <= Capacity
    {
      if signal.None? {
        return;
      }
      var s := signal.value;
      history := NextHistory(history, Sample(time, s.vehicles, s.avgSpeed, s.aqi));
    }
  }
}
