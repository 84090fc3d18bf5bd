/**
 * Runs of the server from start-up, one per behaviour the system is meant to show. Each
 * scenario drives a fresh server through its handlers and states the outcome; `cfg` is either
 * file's configuration.
 */
module Scenarios {
  import opened Options
  import opened Labels
  import Deques
  import Stabiliser
  import opened SprayPolicy
  import opened Server

  const Camera: Frame := Frame(640, 480, [])

  /** A classifier that sees a plant of class `c` with confidence 90 % in every frame. */
  function SeesPlant(c: SeverityClass): (Frame, Roi) -> Classification
  {
    (f: Frame, r: Roi) => Classification(1.0, c, 90.0, "90.0")
  }

  predicate EitherConfig(cfg: Config)
  {
    cfg == Main3Config || cfg == MainConfig
  }

  /** The classifier's verdict on any frame becomes the same history entry under either configuration. */
  lemma SeenEntry(cfg: Config, c: SeverityClass, f: Frame)
    requires EitherConfig(cfg)
    ensures HistoryEntry(cfg, SeesPlant(c)(f, CentreCrop(f.width, f.height))) == Stabiliser.Entry(Classified(c, "90.0"), 90.0)
  {
  }

  /** The first entry of a fresh stabiliser, if confident, shows its label and makes the plant visible. */
  lemma FirstSighting(e: Stabiliser.Entry, threshold: real)
    requires e.confidence >= threshold
    ensures Deques.Append([], e, Stabiliser.HistorySize) == [e]
    ensures Stabiliser.Step([e], Stabiliser.Visibility(false, 0), threshold)
         == (Stabiliser.Reading(e.plantLabel, Stabiliser.Green, e.confidence), Stabiliser.Visibility(true, 0))
  {
    Stabiliser.SingleEntry(e);
  }

  /** The same real entry a second time, with the plant visible, keeps showing its label. */
  lemma RepeatedSighting(e: Stabiliser.Entry, threshold: real)
    requires e.plantLabel != NoPlant
    ensures Stabiliser.Step([e, e], Stabiliser.Visibility(true, 0), threshold).0.plantLabel == e.plantLabel
  {
    var h := [e, e];
    assert forall i :: 0 <= i < |h| ==> h[i].plantLabel == e.plantLabel;
    Stabiliser.UniformHistoryShown(h, e.plantLabel, Stabiliser.Visibility(true, 0), threshold);
  }

  /** The first confident frame of a fresh stabiliser shows its label and makes the plant visible. */
  lemma FirstReading(cfg: Config, c: SeverityClass, f: Frame)
    requires EitherConfig(cfg)
    ensures var e := HistoryEntry(cfg, SeesPlant(c)(f, CentreCrop(f.width, f.height)));
      && e == Stabiliser.Entry(Classified(c, "90.0"), 90.0)
      && Deques.Append([], e, Stabiliser.HistorySize) == [e]
      && Stabiliser.Step([e], Stabiliser.Visibility(false, 0), cfg.confThreshold)
         == (Stabiliser.Reading(Classified(c, "90.0"), Stabiliser.Green, 90.0), Stabiliser.Visibility(true, 0))
  {
    SeenEntry(cfg, c, f);
    FirstSighting(Stabiliser.Entry(Classified(c, "90.0"), 90.0), cfg.confThreshold);
  }

  /** A second frame of the same plant keeps showing its label. */
  lemma SecondReading(cfg: Config, c: SeverityClass, f: Frame)
    requires EitherConfig(cfg)
    ensures var e := HistoryEntry(cfg, SeesPlant(c)(f, CentreCrop(f.width, f.height)));
      && e == Stabiliser.Entry(Classified(c, "90.0"), 90.0)
      && Deques.Append([e], e, Stabiliser.HistorySize) == [e, e]
      && Stabiliser.Step([e, e], Stabiliser.Visibility(true, 0), cfg.confThreshold).0.plantLabel == Classified(c, "90.0")
  {
    var e := Stabiliser.Entry(Classified(c, "90.0"), 90.0);
    SeenEntry(cfg, c, f);
    assert Deques.Append([e], e, Stabiliser.HistorySize) == [e, e];
    RepeatedSighting(e, cfg.confThreshold);
  }

  /** A fresh server after one DHT22 report, one poll with the given moisture and one captured frame. */
  method Prepared(cfg: Config, temperature: real, humidity: real, moisture: real) returns (s: PlantServer)
    ensures fresh(s) && s.Valid() && s.cfg == cfg
    ensures s.history == [] && !s.plantVisible && s.framesWithoutPlant == 0 && s.rawFrames == [Camera]
    ensures s.latestTemperature == Some(temperature) && s.latestHumidity == Some(humidity)
    ensures s.latestMoisture == moisture && !s.motorRunning && !s.forceSpray
  {
    s := new PlantServer(cfg);
    s.Dht22(Some(temperature), Some(humidity));
    var _ := s.Process(Some(moisture));
    s.Capture(Some(Camera));
  }

  /** The processing loop on that frame, with a classifier that sees class `c`. */
  method FirstFrame(s: PlantServer, c: SeverityClass) returns (launch: Option<string>)
    requires s.Valid() && EitherConfig(s.cfg)
    requires s.history == [] && !s.plantVisible && s.framesWithoutPlant == 0 && s.rawFrames == [Camera]
    modifies s`rawFrames, s`history, s`plantVisible, s`framesWithoutPlant, s`latestPlant, s`processedFrames
    ensures s.Valid()
    ensures s.latestPlant == PlantData(Classified(c, "90.0"), 90.0)
    ensures launch == if LocalTrigger(ClassName(c), s.latestMoisture, s.latestHumidity, s.latestTemperature, s.motorRunning)
                      then Some(ClassName(c)) else None
    ensures s.history == [Stabiliser.Entry(Classified(c, "90.0"), 90.0)] && s.plantVisible && s.framesWithoutPlant == 0
    ensures s.rawFrames == []
  {
    FirstReading(s.cfg, c, Camera);
    launch := s.ProcessFrame(SeesPlant(c));
  }

  /** The processing loop on a second frame of the same plant, before anything else happened. */
  method SecondFrame(s: PlantServer, c: SeverityClass) returns (launch: Option<string>)
    requires s.Valid() && EitherConfig(s.cfg)
    requires s.history == [Stabiliser.Entry(Classified(c, "90.0"), 90.0)] && s.plantVisible && s.framesWithoutPlant == 0
    requires s.rawFrames == [Camera]
    modifies s`rawFrames, s`history, s`plantVisible, s`framesWithoutPlant, s`latestPlant, s`processedFrames
    ensures s.Valid()
    ensures s.latestPlant.plantLabel == Classified(c, "90.0")
    ensures launch == if LocalTrigger(ClassName(c), s.latestMoisture, s.latestHumidity, s.latestTemperature, s.motorRunning)
                      then Some(ClassName(c)) else None
  {
    SecondReading(s.cfg, c, Camera);
    launch := s.ProcessFrame(SeesPlant(c));
  }

  /**
   * Dry soil (35 %), humidity 50 %, 22 °C and a "high" plant: the processing loop launches a
   * spray, which runs for 5 s and then stops the motor.
   */
  method HighSeveritySprays(cfg: Config) returns (launch: Option<string>, duration: nat, runningAfter: bool)
    requires EitherConfig(cfg)
    ensures launch == Some("high")
    ensures duration == 5
    ensures !runningAfter
  {
    var s := Prepared(cfg, 22.0, 50.0, 35.0);
    launch := FirstFrame(s, High);
    LocalTriggerIff(Classified(High, "90.0"), 35.0, Some(50.0), Some(22.0), false);
    var started := s.StartSpray("high", 0.0);
    duration := s.sprayDuration;
    s.FinishSpray();
    runningAfter := s.motorRunning;
  }

  /** The same, but humidity 75 % is above the limit: nothing is launched and the motor stays off. */
  method HumidAirBlocksSpray(cfg: Config) returns (launch: Option<string>, running: bool)
    requires EitherConfig(cfg)
    ensures launch == None
    ensures !running
  {
    var s := Prepared(cfg, 22.0, 75.0, 35.0);
    launch := FirstFrame(s, High);
    running := s.motorRunning;
  }

  /**
   * A healthy plant in good conditions is never sprayed by the gate, but a force request makes
   * the next poll answer RUN for 3 s and is consumed by it: the poll after that is decided by
   * the gate again.
   */
  method ForceIsConsumedOnce(cfg: Config) returns (first: PollReply, pending: bool, second: PollReply)
    requires EitherConfig(cfg)
    ensures first == PollReply(Run, 3)
    ensures !pending
    ensures second == PollReply(Stop, 0)
  {
    var s := Prepared(cfg, 22.0, 50.0, 35.0);
    var _ := FirstFrame(s, Healthy);
    s.Force();
    first := s.Process(Some(35.0));
    pending := s.forceSpray;
    SeverityInTableIff(Classified(Healthy, "90.0"));
    second := s.Process(Some(35.0));
  }

  /**
   * A poll while the motor runs is answered from the gate alone: a "high" plant in good
   * conditions gets RUN for 5 s although a spray is in progress.
   */
  method PollWhileSpraying(cfg: Config) returns (running: bool, reply: PollReply)
    requires EitherConfig(cfg)
    ensures running
    ensures reply == PollReply(Run, 5)
  {
    var s := Prepared(cfg, 22.0, 50.0, 35.0);
    var _ := FirstFrame(s, High);
    var started := s.StartSpray("high", 0.0);
    running := s.motorRunning;
    assert Severity(s.latestPlant.plantLabel) == "high";
    HighPlantRuns();
    reply := s.Process(Some(35.0));
  }

  /** Without a force request, a "high" plant in dry soil, 50 % humidity and 22 °C is answered RUN for 5 s. */
  lemma HighPlantRuns()
    ensures PollDecision(false, "high", 35.0, Some(50.0), Some(22.0)) == PollReply(Run, 5)
  {
    SeverityInTableIff(Classified(High, "90.0"));
    assert RemoteGate("high", 35.0, Some(50.0), Some(22.0));
  }

  /**
   * Two frames processed before the first spray starts both pass the motor check, so two spray
   * sessions are launched: the check and the start are separate steps.
   */
  method LaunchesCanOverlap(cfg: Config) returns (first: Option<string>, second: Option<string>)
    requires EitherConfig(cfg)
    ensures first == Some("high") && second == Some("high")
  {
    var s := Prepared(cfg, 22.0, 50.0, 35.0);
    first := FirstFrame(s, High);
    LocalTriggerIff(Classified(High, "90.0"), 35.0, Some(50.0), Some(22.0), false);
    s.Capture(Some(Camera));
    second := SecondFrame(s, High);
  }

  /** Two frames captured before the processing loop runs: only the newer one is processed and shown. */
  method LatestFrameWins(cfg: Config, a: Frame, b: Frame) returns (shown: Option<Rendered>)
    requires EitherConfig(cfg)
    ensures shown.Some? && shown.value.frame == b
  {
    var s := new PlantServer(cfg);
    s.Capture(Some(a));
    s.Capture(Some(b));
    var _ := s.ProcessFrame(SeesPlant(Low));
    shown := s.LatestRendered();
  }
}
