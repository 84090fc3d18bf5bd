/**
 * The temporal stabiliser (`get_smoothed_label` in main3.py, `get_stable_prediction` in main.py):
 * a bounded history of (label, confidence) pairs, an exponential moving average of the
 * confidences, a majority vote over the labels that are not the sentinel, and a hysteresis
 * counter that keeps a visible plant on screen for a few low-confidence frames.
 *
 * Confidences are `real`; the floating-point rounding of the source is not modelled.
 */
module Stabiliser {
  import opened Labels

  /** History length (`SMOOTH_FRAMES`, `HISTORY_SIZE`). */
  const HistorySize: nat := 20
  /** Consecutive low-confidence frames that flip a visible plant to "No Plant Detected". */
  const HysteresisLimit: nat := 5

  datatype Entry = Entry(plantLabel: Label, confidence: real)

  /** The overlay colour: green (0, 255, 0) for a plant, red (0, 0, 255) for none. */
  datatype Colour = Green | Red

  datatype Reading = Reading(plantLabel: Label, colour: Colour, confidence: real)

  /** The two mutable globals: `plant_state` / `plant_currently_visible` and `no_plant_count` / `frames_without_plant`. */
  datatype Visibility = Visibility(plantVisible: bool, framesWithoutPlant: nat)

  /** What holds after every call on a non-empty history, and initially. */
  predicate Settled(v: Visibility)
  {
    v.framesWithoutPlant < HysteresisLimit && (!v.plantVisible ==> v.framesWithoutPlant == 0)
  }

  // ---------------------------------------------------------------------------------------------
  // Smoothing
  // ---------------------------------------------------------------------------------------------

  /**
   * The EMA over the history, oldest first: it starts at the first confidence, and each further
   * confidence gets weight 0.1 (`ALPHA`, `SMOOTHING_ALPHA`) against 0.9 for the running value.
   */
  function Ema(h: seq<Entry>): real
    requires |h| > 0
    decreases |h|
  {
    if |h| == 1 then h[0].confidence
    else 0.1 * h[|h| - 1].confidence + 0.9 * Ema(h[..|h| - 1])
  }

  /** The smoothing loop of the stabiliser. */
  method SmoothedConfidence(h: seq<Entry>) returns (smoothed: real)
    requires |h| > 0
    ensures smoothed == Ema(h)
  {
    smoothed := 0.0;
    for i := 0 to |h|
      invariant 0 < i ==> smoothed == Ema(h[..i])
    {
      if i == 0 {
        smoothed := h[i].confidence;
      } else {
        assert h[..i + 1][..i] == h[..i];
        smoothed := 0.1 * h[i].confidence + 0.9 * smoothed;
      }
    }
    assert h[..|h|] == h;
  }

  /** The smoothed confidence lies between the smallest and the largest confidence in the history. */
  lemma {:induction false} EmaBetweenExtremes(h: seq<Entry>)
    requires |h| > 0
    ensures exists i, j :: 0 <= i < |h| && 0 <= j < |h| && h[i].confidence <= Ema(h) <= h[j].confidence
  {
    if |h| == 1 {
      assert h[0].confidence <= Ema(h) <= h[0].confidence;
    } else {
      var p := h[..|h| - 1];
      var last := |h| - 1;
      EmaBetweenExtremes(p);
      var i, j :| 0 <= i < |p| && 0 <= j < |p| && p[i].confidence <= Ema(p) <= p[j].confidence;
      var lo := if h[last].confidence < p[i].confidence then last else i;
      var hi := if h[last].confidence > p[j].confidence then last else j;
      assert h[lo].confidence <= Ema(h) <= h[hi].confidence;
    }
  }

  /** Every bound on all confidences bounds the smoothed value. */
  lemma EmaWithin(h: seq<Entry>, lo: real, hi: real)
    requires |h| > 0
    requires forall i :: 0 <= i < |h| ==> lo <= h[i].confidence <= hi
    ensures lo <= Ema(h) <= hi
  {
    EmaBetweenExtremes(h);
  }

  // ---------------------------------------------------------------------------------------------
  // Majority vote
  // ---------------------------------------------------------------------------------------------

  /** How many history entries carry label `l`. */
  function Votes(h: seq<Entry>, l: Label): nat
  {
    if h == [] then 0 else (if h[0].plantLabel == l then 1 else 0) + Votes(h[1..], l)
  }

  /** `[lbl for lbl, _ in history if lbl != "No Plant Detected"]` */
  function ValidLabels(h: seq<Entry>): (v: seq<Label>)
    ensures forall l :: multiset(v)[l] == if l == NoPlant then 0 else Votes(h, l)
  {
    if h == [] then []
    else (if h[0].plantLabel != NoPlant then [h[0].plantLabel] else []) + ValidLabels(h[1..])
  }

  /**
   * A label of maximal count among `v[..n]` (`max(set(v), key=v.count)` when `n == |v|`).
   * Ties go to the earliest label; Python's choice depends on set iteration order, so the
   * contract promises only some label of maximal count.
   */
  function MostCommonAmong(v: seq<Label>, n: nat): (m: Label)
    requires 0 < n <= |v|
    ensures m in v[..n]
    ensures forall j :: 0 <= j < n ==> multiset(v)[v[j]] <= multiset(v)[m]
  {
    if n == 1 then v[0]
    else
      var m' := MostCommonAmong(v, n - 1);
      assert v[..n - 1] <= v[..n];
      if multiset(v)[v[n - 1]] > multiset(v)[m'] then v[n - 1] else m'
  }

  /** `most_common_label` of the stabiliser. */
  function Majority(h: seq<Entry>): Label
  {
    var v := ValidLabels(h);
    if v == [] then NoPlant else MostCommonAmong(v, |v|)
  }

  lemma {:induction false} VotesOfPresent(h: seq<Entry>, i: nat)
    requires i < |h|
    ensures Votes(h, h[i].plantLabel) > 0
  {
    if i > 0 {
      VotesOfPresent(h[1..], i - 1);
    }
  }

  lemma {:induction false} VotesWitness(h: seq<Entry>, l: Label)
    requires Votes(h, l) > 0
    ensures exists i :: 0 <= i < |h| && h[i].plantLabel == l
  {
    if h[0].plantLabel != l {
      VotesWitness(h[1..], l);
      var i :| 0 <= i < |h[1..]| && h[1..][i].plantLabel == l;
      assert h[i + 1].plantLabel == l;
    }
  }

  /** A one-entry history smooths to its confidence and votes for its label. */
  lemma SingleEntry(e: Entry)
    ensures Ema([e]) == e.confidence && Majority([e]) == e.plantLabel
  {
    assert [e][1..] == [];
  }

  /** The majority is "No Plant Detected" exactly when no entry carries another label. */
  lemma MajorityIsSentinelIff(h: seq<Entry>)
    ensures Majority(h) == NoPlant <==> forall i :: 0 <= i < |h| ==> h[i].plantLabel == NoPlant
  {
    var v := ValidLabels(h);
    if v == [] {
      forall i | 0 <= i < |h| ensures h[i].plantLabel == NoPlant {
        VotesOfPresent(h, i);
        assert multiset(v)[h[i].plantLabel] == 0;
      }
    } else {
      var m := MostCommonAmong(v, |v|);
      assert v[..|v|] == v;
      assert multiset(v)[NoPlant] == 0;
      assert m in multiset(v);
      VotesWitness(h, m);
    }
  }

  /** A history whose entries all carry the same real label votes for that label. */
  lemma UniformHistoryMajority(h: seq<Entry>, l: Label)
    requires h != [] && l != NoPlant
    requires forall i :: 0 <= i < |h| ==> h[i].plantLabel == l
    ensures Majority(h) == l
  {
    MajorityIsSentinelIff(h);
    MajorityIsMostVoted(h);
    VotesWitness(h, Majority(h));
  }

  /** A non-sentinel majority occurs in the history and no other non-sentinel label occurs more often. */
  lemma MajorityIsMostVoted(h: seq<Entry>)
    ensures Majority(h) != NoPlant ==>
      && Votes(h, Majority(h)) > 0
      && forall i :: 0 <= i < |h| && h[i].plantLabel != NoPlant ==> Votes(h, h[i].plantLabel) <= Votes(h, Majority(h))
  {
    var v := ValidLabels(h);
    if v != [] {
      var m := MostCommonAmong(v, |v|);
      assert v[..|v|] == v;
      assert multiset(v)[m] > 0;
      forall i | 0 <= i < |h| && h[i].plantLabel != NoPlant
        ensures Votes(h, h[i].plantLabel) <= Votes(h, m)
      {
        VotesOfPresent(h, i);
        var l := h[i].plantLabel;
        assert l in multiset(v);
        var j :| 0 <= j < |v| && v[j] == l;
      }
    }
  }

  // ---------------------------------------------------------------------------------------------
  // Hysteresis
  // ---------------------------------------------------------------------------------------------

  /** What the stabiliser computes from a non-empty history before it consults its state. */
  datatype Summary = Summary(smoothed: real, majority: Label)

  function Summarise(h: seq<Entry>): Summary
    requires h != []
  {
    Summary(Ema(h), Majority(h))
  }

  /**
   * The decision of the stabiliser from a summary and the visibility state: confident frames show
   * the majority and reset the counter; a low frame keeps a visible plant for fewer than
   * `HysteresisLimit` consecutive misses, and otherwise reports "No Plant Detected" and resets.
   */
  function Decide(s: Summary, v: Visibility, threshold: real): (Reading, Visibility)
  {
    if s.smoothed >= threshold then
      (Reading(s.majority, Green, s.smoothed), Visibility(true, 0))
    else if v.plantVisible && v.framesWithoutPlant + 1 < HysteresisLimit then
      (Reading(s.majority, Green, s.smoothed), Visibility(true, v.framesWithoutPlant + 1))
    else
      (Reading(NoPlant, Red, s.smoothed), Visibility(false, 0))
  }

  /** One call of the stabiliser on history `h` from visibility state `v`. */
  function Step(h: seq<Entry>, v: Visibility, threshold: real): (Reading, Visibility)
  {
    if h == [] then (Reading(NoPlant, Red, 0.0), v)
    else Decide(Summarise(h), v, threshold)
  }

  /** An empty history reports no plant with confidence 0.0 and leaves the state alone. */
  lemma EmptyHistoryStep(v: Visibility, threshold: real)
    ensures Step([], v, threshold) == (Reading(NoPlant, Red, 0.0), v)
  {
  }

  /**
   * After every call on a non-empty history the counter is below the hysteresis limit, and an
   * invisible plant has a zero counter, whatever the state before.
   */
  lemma StepSettles(h: seq<Entry>, v: Visibility, threshold: real)
    requires h != []
    ensures Settled(Step(h, v, threshold).1)
  {
  }

  /** A confident smoothed value makes the plant visible, resets the counter and shows the majority. */
  lemma ConfidentStep(h: seq<Entry>, v: Visibility, threshold: real)
    requires h != [] && Ema(h) >= threshold
    ensures Step(h, v, threshold) == (Reading(Majority(h), Green, Ema(h)), Visibility(true, 0))
  {
  }

  /**
   * While the plant is shown and the counter has room, a history whose entries all carry one real
   * label shows that label, whatever its smoothed confidence.
   */
  lemma UniformHistoryShown(h: seq<Entry>, l: Label, v: Visibility, threshold: real)
    requires h != [] && l != NoPlant
    requires forall i :: 0 <= i < |h| ==> h[i].plantLabel == l
    requires v.plantVisible && v.framesWithoutPlant + 1 < HysteresisLimit
    ensures Step(h, v, threshold).0.plantLabel == l && Step(h, v, threshold).0.colour == Green
    ensures Step(h, v, threshold).1.plantVisible
  {
    UniformHistoryMajority(h, l);
  }

  /**
   * A history of sentinel entries only (confidence 0.0) always reports "No Plant Detected" with
   * confidence 0.0, whatever the state; the colour is green while the hysteresis still holds
   * and red otherwise.
   */
  lemma NoPlantHistory(h: seq<Entry>, v: Visibility, threshold: real)
    requires threshold > 0.0
    requires forall i :: 0 <= i < |h| ==> h[i] == Entry(NoPlant, 0.0)
    ensures Step(h, v, threshold).0.plantLabel == NoPlant
    ensures Step(h, v, threshold).0.confidence == 0.0
    ensures Step(h, v, threshold).0.colour
      == (if h != [] && v.plantVisible && v.framesWithoutPlant + 1 < HysteresisLimit then Green else Red)
  {
    MajorityIsSentinelIff(h);
    if h != [] {
      EmaWithin(h, 0.0, 0.0);
      assert Ema(h) < threshold;
      assert Step(h, v, threshold) == Decide(Summarise(h), v, threshold);
    }
  }

  // ---------------------------------------------------------------------------------------------
  // Consecutive calls
  // ---------------------------------------------------------------------------------------------

  /** The stabiliser called once per history in `hs`, in order: the readings and the final state. */
  function Replay(hs: seq<seq<Entry>>, v: Visibility, threshold: real): (out: (seq<Reading>, Visibility))
    ensures |out.0| == |hs|
  {
    if hs == [] then ([], v)
    else
      var first := Step(hs[0], v, threshold);
      var rest := Replay(hs[1..], first.1, threshold);
      ([first.0] + rest.0, rest.1)
  }

  /** The same sequence of decisions, from the summaries of the histories. */
  function Run(ss: seq<Summary>, v: Visibility, threshold: real): (out: (seq<Reading>, Visibility))
    ensures |out.0| == |ss|
  {
    if ss == [] then ([], v)
    else
      var first := Decide(ss[0], v, threshold);
      var rest := Run(ss[1..], first.1, threshold);
      ([first.0] + rest.0, rest.1)
  }

  predicate AllNonEmpty(hs: seq<seq<Entry>>)
  {
    forall i :: 0 <= i < |hs| ==> hs[i] != []
  }

  function Summaries(hs: seq<seq<Entry>>): (ss: seq<Summary>)
    requires AllNonEmpty(hs)
    ensures |ss| == |hs|
    ensures forall i :: 0 <= i < |hs| ==> ss[i] == Summarise(hs[i])
  {
    if hs == [] then [] else [Summarise(hs[0])] + Summaries(hs[1..])
  }

  /** Replaying histories is running the decisions on their summaries. */
  lemma {:induction false} ReplayIsRun(hs: seq<seq<Entry>>, v: Visibility, threshold: real)
    requires AllNonEmpty(hs)
    ensures Replay(hs, v, threshold) == Run(Summaries(hs), v, threshold)
  {
    if hs != [] {
      var ss := Summaries(hs);
      assert ss[1..] == Summaries(hs[1..]);
      ReplayIsRun(hs[1..], Step(hs[0], v, threshold).1, threshold);
    }
  }

  /** Every history in `hs` is non-empty and smooths to below the threshold. */
  predicate LowFrames(hs: seq<seq<Entry>>, threshold: real)
  {
    forall i :: 0 <= i < |hs| ==> hs[i] != [] && Ema(hs[i]) < threshold
  }

  /** Every summary in `ss` is below the threshold. */
  predicate Low(ss: seq<Summary>, threshold: real)
  {
    forall i :: 0 <= i < |ss| ==> ss[i].smoothed < threshold
  }

  lemma LowFramesAreLow(hs: seq<seq<Entry>>, threshold: real)
    requires LowFrames(hs, threshold)
    ensures AllNonEmpty(hs) && Low(Summaries(hs), threshold)
  {
    assert AllNonEmpty(hs);
    var ss := Summaries(hs);
    forall i | 0 <= i < |ss| ensures ss[i].smoothed < threshold {
      assert ss[i] == Summarise(hs[i]);
    }
  }

  lemma RunFirst(ss: seq<Summary>, v: Visibility, threshold: real)
    requires ss != []
    ensures Run(ss, v, threshold).0 ==
      [Decide(ss[0], v, threshold).0] + Run(ss[1..], Decide(ss[0], v, threshold).1, threshold).0
    ensures Run(ss, v, threshold).1 == Run(ss[1..], Decide(ss[0], v, threshold).1, threshold).1
  {
  }

  /** Once hidden, a low frame keeps the plant hidden: the i-th reading of such a run. */
  lemma {:induction false} HiddenAt(ss: seq<Summary>, threshold: real, i: nat)
    requires Low(ss, threshold) && i < |ss|
    ensures Run(ss, Visibility(false, 0), threshold).0[i].plantLabel == NoPlant
  {
    var v := Visibility(false, 0);
    RunFirst(ss, v, threshold);
    assert Decide(ss[0], v, threshold) == (Reading(NoPlant, Red, ss[0].smoothed), v);
    if i > 0 {
      assert Low(ss[1..], threshold);
      HiddenAt(ss[1..], threshold, i - 1);
    }
  }

  /** Once hidden, low frames leave the plant hidden. */
  lemma {:induction false} HiddenStays(ss: seq<Summary>, threshold: real)
    requires Low(ss, threshold)
    ensures Run(ss, Visibility(false, 0), threshold).1 == Visibility(false, 0)
  {
    var v := Visibility(false, 0);
    if ss != [] {
      RunFirst(ss, v, threshold);
      assert Decide(ss[0], v, threshold).1 == v;
      assert Low(ss[1..], threshold);
      HiddenStays(ss[1..], threshold);
    }
  }

  /** Hysteresis on summaries, state: see `HysteresisState`. */
  lemma {:induction false} CounterAfter(ss: seq<Summary>, k: nat, threshold: real)
    requires Low(ss, threshold) && k < HysteresisLimit
    ensures Run(ss, Visibility(true, k), threshold).1
      == if k + |ss| < HysteresisLimit then Visibility(true, k + |ss|) else Visibility(false, 0)
  {
    var v := Visibility(true, k);
    if ss != [] {
      RunFirst(ss, v, threshold);
      assert Low(ss[1..], threshold);
      if k + 1 < HysteresisLimit {
        assert Decide(ss[0], v, threshold).1 == Visibility(true, k + 1);
        CounterAfter(ss[1..], k + 1, threshold);
      } else {
        assert Decide(ss[0], v, threshold).1 == Visibility(false, 0);
        HiddenStays(ss[1..], threshold);
      }
    }
  }

  /** Hysteresis on summaries, one reading: see `HysteresisWindow`. */
  lemma {:induction false} ShownAt(ss: seq<Summary>, k: nat, threshold: real, i: nat)
    requires Low(ss, threshold) && k < HysteresisLimit && i < |ss|
    ensures Run(ss, Visibility(true, k), threshold).0[i].plantLabel
      == if k + i + 1 < HysteresisLimit then ss[i].majority else NoPlant
  {
    var v := Visibility(true, k);
    RunFirst(ss, v, threshold);
    var rs := Run(ss, v, threshold).0;
    var rest := ss[1..];
    if k + 1 < HysteresisLimit {
      assert Decide(ss[0], v, threshold) == (Reading(ss[0].majority, Green, ss[0].smoothed), Visibility(true, k + 1));
      if i > 0 {
        assert Low(rest, threshold);
        ShownAt(rest, k + 1, threshold, i - 1);
        assert rs[i] == Run(rest, Visibility(true, k + 1), threshold).0[i - 1];
      }
    } else {
      assert Decide(ss[0], v, threshold) == (Reading(NoPlant, Red, ss[0].smoothed), Visibility(false, 0));
      if i > 0 {
        assert Low(rest, threshold);
        HiddenAt(rest, threshold, i - 1);
        assert rs[i] == Run(rest, Visibility(false, 0), threshold).0[i - 1];
      }
    }
  }

  /** Once hidden, low frames keep the plant hidden. */
  lemma LowFramesStayHidden(hs: seq<seq<Entry>>, threshold: real)
    requires LowFrames(hs, threshold)
    ensures forall i :: 0 <= i < |hs| ==> Replay(hs, Visibility(false, 0), threshold).0[i].plantLabel == NoPlant
    ensures Replay(hs, Visibility(false, 0), threshold).1 == Visibility(false, 0)
  {
    LowFramesAreLow(hs, threshold);
    ReplayIsRun(hs, Visibility(false, 0), threshold);
    var ss := Summaries(hs);
    forall i | 0 <= i < |hs| ensures Run(ss, Visibility(false, 0), threshold).0[i].plantLabel == NoPlant {
      HiddenAt(ss, threshold, i);
    }
    HiddenStays(ss, threshold);
  }

  /**
   * Hysteresis, state: after n further low frames a visible plant that had missed `k` frames has
   * missed k + n while that stays below 5; otherwise both fields are reset.
   */
  lemma HysteresisState(hs: seq<seq<Entry>>, k: nat, threshold: real)
    requires LowFrames(hs, threshold) && k < HysteresisLimit
    ensures Replay(hs, Visibility(true, k), threshold).1
      == if k + |hs| < HysteresisLimit then Visibility(true, k + |hs|) else Visibility(false, 0)
  {
    LowFramesAreLow(hs, threshold);
    ReplayIsRun(hs, Visibility(true, k), threshold);
    CounterAfter(Summaries(hs), k, threshold);
  }

  /**
   * Hysteresis, readings: from a visible plant that has already missed `k` frames, the i-th
   * further low frame still shows the majority label while k + i + 1 < 5, and "No Plant
   * Detected" from then on.
   */
  lemma HysteresisWindow(hs: seq<seq<Entry>>, k: nat, threshold: real)
    requires LowFrames(hs, threshold) && k < HysteresisLimit
    ensures forall i :: 0 <= i < |hs| ==>
      Replay(hs, Visibility(true, k), threshold).0[i].plantLabel
        == if k + i + 1 < HysteresisLimit then Majority(hs[i]) else NoPlant
  {
    LowFramesAreLow(hs, threshold);
    ReplayIsRun(hs, Visibility(true, k), threshold);
    var ss := Summaries(hs);
    forall i | 0 <= i < |hs|
      ensures Run(ss, Visibility(true, k), threshold).0[i].plantLabel
        == if k + i + 1 < HysteresisLimit then Majority(hs[i]) else NoPlant
    {
      ShownAt(ss, k, threshold, i);
      assert ss[i].majority == Majority(hs[i]);
    }
  }

  /**
   * From a freshly visible plant, four low frames in a row still show the majority label and
   * the fifth shows "No Plant Detected", resetting both fields.
   */
  lemma FifthLowFrameFlips(hs: seq<seq<Entry>>, threshold: real)
    requires LowFrames(hs, threshold) && |hs| == HysteresisLimit
    ensures forall i :: 0 <= i < HysteresisLimit - 1 ==>
      Replay(hs, Visibility(true, 0), threshold).0[i].plantLabel == Majority(hs[i])
    ensures Replay(hs, Visibility(true, 0), threshold).0[HysteresisLimit - 1].plantLabel == NoPlant
    ensures Replay(hs, Visibility(true, 0), threshold).1 == Visibility(false, 0)
  {
    HysteresisWindow(hs, 0, threshold);
    HysteresisState(hs, 0, threshold);
  }

  /**
   * A single low frame inside a confident run does not flip the display: from a visible plant
   * that has missed fewer than four frames, a low frame and then a confident one both show their
   * majority label, and the counter is back at 0.
   */
  lemma SingleMissDoesNotFlip(low: seq<Entry>, high: seq<Entry>, k: nat, threshold: real)
    requires low != [] && Ema(low) < threshold
    requires high != [] && Ema(high) >= threshold
    requires k + 1 < HysteresisLimit
    ensures Replay([low, high], Visibility(true, k), threshold).0
      == [Reading(Majority(low), Green, Ema(low)), Reading(Majority(high), Green, Ema(high))]
    ensures Replay([low, high], Visibility(true, k), threshold).1 == Visibility(true, 0)
  {
    var hs := [low, high];
    var v := Visibility(true, k);
    assert AllNonEmpty(hs);
    ReplayIsRun(hs, v, threshold);
    var ss := Summaries(hs);
    assert ss[0] == Summary(Ema(low), Majority(low)) && ss[1] == Summary(Ema(high), Majority(high));
    var d0 := Decide(ss[0], v, threshold);
    assert d0 == (Reading(Majority(low), Green, Ema(low)), Visibility(true, k + 1));
    var d1 := Decide(ss[1], d0.1, threshold);
    assert d1 == (Reading(Majority(high), Green, Ema(high)), Visibility(true, 0));
    RunFirst(ss, v, threshold);
    RunFirst(ss[1..], d0.1, threshold);
    assert ss[1..][0] == ss[1] && ss[1..][1..] == [];
  }
}
