/**
 * The Raspberry Pi node of pi_client.py: it turns the raw ADC reading of the soil-moisture
 * sensor into a percentage, posts it to the server's `/process` endpoint and drives the pump
 * relay from the reply. The HTTP exchange, the ADC and the relay driver are parameters; the
 * relay is observed through the sequence of actions applied to it.
 */
module PiClient {
  import opened Options
  import SprayPolicy

  /** The raw reading taken as completely dry. */
  const DryReading: real := 26000.0

  /** `max(0.0, min(100.0, x))`. */
  function Clamp(x: real): (r: real)
    ensures 0.0 <= r <= 100.0
    ensures 0.0 <= x <= 100.0 ==> r == x
    ensures x < 0.0 ==> r == 0.0
    ensures x > 100.0 ==> r == 100.0
  {
    if x < 0.0 then 0.0 else if x > 100.0 then 100.0 else x
  }

  /** The moisture percentage of a raw reading: the sensor reads higher when drier. */
  function SoilMoisture(raw: int): (pct: real)
    ensures 0.0 <= pct <= 100.0
  {
    Clamp(100.0 - raw as real / DryReading * 100.0)
  }

  /** A reading of zero or less is fully wet, one at or above the dry reading fully dry. */
  lemma SoilMoistureExtremes(raw: int)
    ensures raw <= 0 ==> SoilMoisture(raw) == 100.0
    ensures raw as real >= DryReading ==> SoilMoisture(raw) == 0.0
    ensures 0 <= raw && raw as real <= DryReading ==> SoilMoisture(raw) == 100.0 - raw as real / DryReading * 100.0
  {
  }

  /** A drier (higher) raw reading never yields a higher moisture percentage. */
  lemma SoilMoistureAntitone(a: int, b: int)
    requires a <= b
    ensures SoilMoisture(b) <= SoilMoisture(a)
  {
    assert b as real / DryReading * 100.0 >= a as real / DryReading * 100.0;
  }

  /** The JSON reply as the node reads it: either key may be missing. */
  datatype Reply = Reply(command: Option<string>, duration: Option<int>)

  /** What the node does to the relay. `Hold` is the sleep with the pump on. */
  datatype RelayAction = SwitchOn | Hold(seconds: int) | SwitchOff

  /** The node pumps for a reply that says RUN with a positive duration (0 when the key is missing). */
  predicate RunsPump(reply: Reply)
  {
    reply.command == Some("RUN") && reply.duration.GetOr(0) > 0
  }

  /**
   * The relay actions of one exchange. `None` is a failed request, which, like every reply
   * that does not ask to run, only switches the relay off.
   */
  function RelayActions(reply: Option<Reply>): (acts: seq<RelayAction>)
    ensures acts != [] && acts[|acts| - 1] == SwitchOff
    ensures SwitchOn in acts <==> reply.Some? && RunsPump(reply.value)
    ensures reply.Some? && RunsPump(reply.value) ==> acts == [SwitchOn, Hold(reply.value.duration.value), SwitchOff]
  {
    if reply.Some? && RunsPump(reply.value) then [SwitchOn, Hold(reply.value.duration.GetOr(0)), SwitchOff]
    else [SwitchOff]
  }

  /**
   * A well-formed relay history: blocks of a switch-on, a positive hold and a switch-off, and
   * lone switch-offs.
   */
  predicate Bracketed(t: seq<RelayAction>)
    decreases |t|
  {
    if t == [] then true
    else if t[0] == SwitchOff then Bracketed(t[1..])
    else |t| >= 3 && t[0] == SwitchOn && t[1].Hold? && t[1].seconds > 0 && t[2] == SwitchOff && Bracketed(t[3..])
  }

  /** A switch-off in front of a well-formed history keeps it well formed. */
  lemma PrependSwitchOff(w: seq<RelayAction>)
    requires w != [] && w[0] == SwitchOff && Bracketed(w[1..])
    ensures Bracketed(w)
  {
  }

  /** So does a complete on-hold-off block. */
  lemma PrependBlock(w: seq<RelayAction>)
    requires |w| >= 3 && w[0] == SwitchOn && w[1].Hold? && w[1].seconds > 0 && w[2] == SwitchOff
    requires Bracketed(w[3..])
    ensures Bracketed(w)
  {
  }

  lemma AppendAfterSwitchOff(t: seq<RelayAction>, u: seq<RelayAction>)
    requires t != [] && t[0] == SwitchOff && Bracketed(t[1..] + u)
    ensures Bracketed(t + u)
  {
    assert (t + u)[1..] == t[1..] + u;
    PrependSwitchOff(t + u);
  }

  lemma AppendAfterBlock(t: seq<RelayAction>, u: seq<RelayAction>)
    requires |t| >= 3 && t[0] == SwitchOn && t[1].Hold? && t[1].seconds > 0 && t[2] == SwitchOff
    requires Bracketed(t[3..] + u)
    ensures Bracketed(t + u)
  {
    assert (t + u)[3..] == t[3..] + u;
    PrependBlock(t + u);
  }

  lemma {:induction false} BracketedAppend(t: seq<RelayAction>, u: seq<RelayAction>)
    requires Bracketed(t) && Bracketed(u)
    ensures Bracketed(t + u)
    decreases |t|
  {
    if t == [] {
      assert t + u == u;
    } else if t[0] == SwitchOff {
      BracketedAppend(t[1..], u);
      AppendAfterSwitchOff(t, u);
    } else {
      BracketedAppend(t[3..], u);
      AppendAfterBlock(t, u);
    }
  }

  lemma RelayActionsBracketed(reply: Option<Reply>)
    ensures Bracketed(RelayActions(reply))
  {
    var acts := RelayActions(reply);
    assert acts[|acts| - 1..] == [SwitchOff];
    assert Bracketed(acts[|acts| - 1..]);
  }

  /** In a well-formed history every switch-on is followed by a positive hold and then a switch-off. */
  lemma {:induction false} SwitchOnIsFollowedByOff(t: seq<RelayAction>, i: nat)
    requires Bracketed(t) && i < |t| && t[i] == SwitchOn
    ensures i + 2 < |t| && t[i + 1].Hold? && t[i + 1].seconds > 0 && t[i + 2] == SwitchOff
  {
    if t[0] == SwitchOff {
      SwitchOnIsFollowedByOff(t[1..], i - 1);
    } else if i >= 3 {
      SwitchOnIsFollowedByOff(t[3..], i - 3);
    }
  }

  /**
   * The relay actions of one loop iteration per raw reading, in order. `exchange(i, m)` is the
   * outcome of the i-th POST, which sent moisture `m`: the server's reply may differ between
   * iterations that send the same moisture.
   */
  function LoopActions(raws: seq<int>, exchange: (nat, real) -> Option<Reply>): seq<RelayAction>
  {
    if raws == [] then []
    else LoopActions(raws[..|raws| - 1], exchange)
         + RelayActions(exchange(|raws| - 1, SoilMoisture(raws[|raws| - 1])))
  }

  /** However the exchanges go, the loop leaves a well-formed relay history: the pump is never left on. */
  lemma {:induction false} LoopActionsBracketed(raws: seq<int>, exchange: (nat, real) -> Option<Reply>)
    ensures Bracketed(LoopActions(raws, exchange))
  {
    if raws != [] {
      LoopActionsBracketed(raws[..|raws| - 1], exchange);
      var last := exchange(|raws| - 1, SoilMoisture(raws[|raws| - 1]));
      RelayActionsBracketed(last);
      BracketedAppend(LoopActions(raws[..|raws| - 1], exchange), RelayActions(last));
    }
  }

  /**
   * Replies are per iteration: at a steady reading, a forced RUN for 3 s followed by a STOP
   * drives the pump once and then only switches it off.
   */
  lemma ForcedRunThenStop(raw: int, exchange: (nat, real) -> Option<Reply>)
    requires exchange(0, SoilMoisture(raw)) == Some(Reply(Some("RUN"), Some(3)))
    requires exchange(1, SoilMoisture(raw)) == Some(Reply(Some("STOP"), Some(0)))
    ensures LoopActions([raw, raw], exchange) == [SwitchOn, Hold(3), SwitchOff, SwitchOff]
  {
    var m := SoilMoisture(raw);
    assert [raw, raw][..1] == [raw];
    assert [raw][..0] == [];
    assert RelayActions(exchange(0, m)) == [SwitchOn, Hold(3), SwitchOff];
    assert "STOP"[0] != "RUN"[0];
    assert RelayActions(exchange(1, m)) == [SwitchOff];
    assert LoopActions([raw], exchange) == [SwitchOn, Hold(3), SwitchOff];
  }

  /** The reply `/process` sends: `{"motor_command": ..., "duration": ...}`. */
  function Encode(r: SprayPolicy.PollReply): Reply
  {
    Reply(Some(SprayPolicy.CommandText(r.command)), Some(r.duration))
  }

  /**
   * End to end: for every reply the server can send, the node switches the pump on exactly when
   * the server says RUN, and then holds it on for exactly the server's duration.
   */
  lemma PumpFollowsServer(r: SprayPolicy.PollReply)
    requires SprayPolicy.ConsistentReply(r)
    ensures SwitchOn in RelayActions(Some(Encode(r))) <==> r.command == SprayPolicy.Run
    ensures r.command == SprayPolicy.Run ==> RelayActions(Some(Encode(r))) == [SwitchOn, Hold(r.duration), SwitchOff]
    ensures r.command == SprayPolicy.Stop ==> RelayActions(Some(Encode(r))) == [SwitchOff]
  {
  }

  /** Associativity of `+`, stated once so that the invariant of `PiNode.Loop` stays cheap to check. */
  lemma Concatenation(a: seq<RelayAction>, b: seq<RelayAction>, c: seq<RelayAction>)
    ensures (a + b) + c == a + (b + c)
  {
  }

  /** The node: the shared moisture value and the relay. */
  class PiNode {
    var currentMoisture: real
    var relayOn: bool
    /** Every action applied to the relay so far. */
    ghost var relayLog: seq<RelayAction>

    ghost predicate Valid()
      reads this
    {
      0.0 <= currentMoisture <= 100.0 && !relayOn && Bracketed(relayLog)
    }

    /** Start-up: moisture 0.0 and the relay created switched off. */
    constructor ()
      ensures Valid() && currentMoisture == 0.0 && relayLog == []
    {
      currentMoisture := 0.0;
      relayOn := false;
      relayLog := [];
    }

    /** `read_soil_moisture`. */
    method ReadSoilMoisture(raw: int)
      modifies this`currentMoisture
      ensures currentMoisture == SoilMoisture(raw)
    {
      currentMoisture := Clamp(100.0 - raw as real / DryReading * 100.0);
    }

    /** The relay half of one loop iteration, for the reply of the exchange (`None` when it failed). */
    method ApplyReply(reply: Option<Reply>)
      requires Valid()
      modifies this`relayOn, this`relayLog
      ensures Valid()
      ensures relayLog == old(relayLog) + RelayActions(reply)
    {
      if reply.Some? && reply.value.command == Some("RUN") && reply.value.duration.GetOr(0) > 0 {
        relayOn := true;
        relayLog := relayLog + [SwitchOn];
        relayLog := relayLog + [Hold(reply.value.duration.GetOr(0))];
        relayOn := false;
        relayLog := relayLog + [SwitchOff];
      } else {
        relayOn := false;
        relayLog := relayLog + [SwitchOff];
      }
      assert relayLog == old(relayLog) + RelayActions(reply);
      RelayActionsBracketed(reply);
      BracketedAppend(old(relayLog), RelayActions(reply));
    }

    /** Iteration `i` of `sensor_and_motor_loop`: read the sensor, exchange, drive the relay. */
    method Iterate(i: nat, raw: int, exchange: (nat, real) -> Option<Reply>)
      requires Valid()
      modifies this`currentMoisture, this`relayOn, this`relayLog
      ensures Valid()
      ensures currentMoisture == SoilMoisture(raw)
      ensures relayLog == old(relayLog) + RelayActions(exchange(i, SoilMoisture(raw)))
    {
      ReadSoilMoisture(raw);
      var reply := exchange(i, currentMoisture);
      ApplyReply(reply);
    }

    /**
     * `sensor_and_motor_loop`, for the raw readings of `raws`, one iteration each. `exchange(i, m)`
     * stands for the i-th POST of moisture `m` and its parsed reply.
     */
    method Loop(raws: seq<int>, exchange: (nat, real) -> Option<Reply>)
      requires Valid()
      modifies this`currentMoisture, this`relayOn, this`relayLog
      ensures Valid()
      ensures raws != [] ==> currentMoisture == SoilMoisture(raws[|raws| - 1])
      ensures relayLog == old(relayLog) + LoopActions(raws, exchange)
    {
      ghost var start := relayLog;
      for i := 0 to |raws|
        invariant Valid()
        invariant i > 0 ==> currentMoisture == SoilMoisture(raws[i - 1])
        invariant relayLog == start + LoopActions(raws[..i], exchange)
      {
        Iterate(i, raws[i], exchange);
        assert raws[..i + 1][..i] == raws[..i];
        assert LoopActions(raws[..i + 1], exchange)
          == LoopActions(raws[..i], exchange) + RelayActions(exchange(i, SoilMoisture(raws[i])));
        Concatenation(start, LoopActions(raws[..i], exchange), RelayActions(exchange(i, SoilMoisture(raws[i]))));
      }
      assert raws[..|raws|] == raws;
    }
  }
}
