/**
 * The server of main3.py and main.py: its globals become the fields of `PlantServer`, and each
 * Flask handler, each loop body and each half of a spray session becomes one method, run as
 * one atomic step. The two files differ only in `cfg`.
 */
module Server {
  import opened Options
  import opened Labels
  import Deques
  import opened Stabiliser
  import opened SprayPolicy

  /** Capacity of the activity log. */
  const LogCapacity: nat := 50

  datatype LogKind = Info | Warning | Success | Error

  /** What a log entry reports; the message wording and the timestamp are not modelled. */
  datatype Event =
    | ForceSprayRequested
    | ForceSprayActivated(duration: nat)
    | AutoSpray(severity: string, duration: nat)
    | MotorStarted(duration: nat, severity: string)
    | MotorStopped(duration: nat)
    | CameraInitialised(width: int, height: int)
    | SystemInitialised
    | AnalysisZone(size: int)
    | SystemStarted

  datatype LogEntry = LogEntry(event: Event, kind: LogKind)

  /** A camera frame; its pixels are opaque. */
  datatype Frame = Frame(width: int, height: int, pixels: seq<int>)

  /** What the processing loop hands to the video stream: the reading and the frame it was drawn on. */
  datatype Rendered = Rendered(reading: Reading, frame: Frame)

  /** `latest_plant_data` / `latest_plant`. */
  datatype PlantData = PlantData(plantLabel: Label, confidence: real)

  /** The `/status` reply. */
  datatype StatusReport = StatusReport(motor: string, plant: string, confidence: real, moisture: real,
                                       temperature: Option<real>, humidity: Option<real>)

  class PlantServer {
    const cfg: Config

    // Temporal stabiliser
    var history: seq<Entry>
    var plantVisible: bool
    var framesWithoutPlant: nat

    // Sprayer session
    var motorRunning: bool
    var sprayDuration: nat
    var sprayStartedAt: real
    var sprayInProgress: bool
    var freezeActive: bool
    var sprayPrompt: string

    // Remote poll and sensors
    var currentCommand: Command
    var currentDuration: nat
    var latestMoisture: real
    var latestTemperature: Option<real>
    var latestHumidity: Option<real>
    var latestPlant: PlantData
    var forceSpray: bool

    // Bounded containers
    var log: seq<LogEntry>
    var rawFrames: seq<Frame>
    var processedFrames: seq<Rendered>

    ghost predicate Valid()
      reads this
    {
      && |history| <= HistorySize
      && Settled(Visibility(plantVisible, framesWithoutPlant))
      && KnownDuration(sprayDuration)
      && ConsistentReply(PollReply(currentCommand, currentDuration))
      && |log| <= LogCapacity
      && |rawFrames| <= 1
      && |processedFrames| <= 1
    }

    /** The server's state at start-up. */
    constructor (cfg: Config)
      ensures Valid() && this.cfg == cfg
      ensures history == [] && !plantVisible && framesWithoutPlant == 0
      ensures !motorRunning && sprayDuration == 0 && !sprayInProgress && !freezeActive && sprayPrompt == ""
      ensures currentCommand == Stop && currentDuration == 0
      ensures latestMoisture == 0.0 && latestTemperature == None && latestHumidity == None
      ensures latestPlant == PlantData(NoPlant, 0.0) && !forceSpray
      ensures log == [] && rawFrames == [] && processedFrames == []
    {
      this.cfg := cfg;
      history, plantVisible, framesWithoutPlant := [], false, 0;
      motorRunning, sprayDuration, sprayStartedAt := false, 0, 0.0;
      sprayInProgress, freezeActive, sprayPrompt := false, false, "";
      currentCommand, currentDuration := Stop, 0;
      latestMoisture, latestTemperature, latestHumidity := 0.0, None, None;
      latestPlant, forceSpray := PlantData(NoPlant, 0.0), false;
      log, rawFrames, processedFrames := [], [], [];
    }

    /** `add_log` / `log_event`. */
    method AddLog(event: Event, kind: LogKind)
      requires Valid()
      modifies this`log
      ensures Valid()
      ensures log == Deques.Append(old(log), LogEntry(event, kind), LogCapacity)
    {
      log := Deques.Append(log, LogEntry(event, kind), LogCapacity);
    }

    /**
     * The start-up entries main3.py logs before serving: the camera resolution it got, the
     * start message and the size of the analysis zone.
     */
    method StartMain3(width: int, height: int)
      requires Valid() && log == []
      modifies this`log
      ensures Valid()
      ensures log == [LogEntry(CameraInitialised(width, height), Info), LogEntry(SystemInitialised, Info),
                      LogEntry(AnalysisZone(CropSize), Info)]
    {
      AddLog(CameraInitialised(width, height), Info);
      AddLog(SystemInitialised, Info);
      AddLog(AnalysisZone(CropSize), Info);
    }

    /** The single start-up entry main.py logs before serving. */
    method StartMain()
      requires Valid() && log == []
      modifies this`log
      ensures Valid()
      ensures log == [LogEntry(SystemStarted, Info)]
    {
      AddLog(SystemStarted, Info);
    }

    /** `get_smoothed_label` / `get_stable_prediction`. */
    method StablePrediction() returns (r: Reading)
      requires Valid()
      modifies this`plantVisible, this`framesWithoutPlant
      ensures Valid()
      ensures (r, Visibility(plantVisible, framesWithoutPlant))
        == Step(history, old(Visibility(plantVisible, framesWithoutPlant)), cfg.confThreshold)
    {
      if history == [] {
        return Reading(NoPlant, Red, 0.0);
      }
      var smoothed := SmoothedConfidence(history);
      var majority := Majority(history);
      if smoothed >= cfg.confThreshold {
        plantVisible := true;
        framesWithoutPlant := 0;
        return Reading(majority, Green, smoothed);
      }
      framesWithoutPlant := framesWithoutPlant + 1;
      if plantVisible && framesWithoutPlant < HysteresisLimit {
        return Reading(majority, Green, smoothed);
      }
      plantVisible := false;
      framesWithoutPlant := 0;
      return Reading(NoPlant, Red, smoothed);
    }

    /** One pass of the capture loop: a frame that was read overwrites the raw-frame slot. */
    method Capture(frame: Option<Frame>)
      requires Valid()
      modifies this`rawFrames
      ensures Valid()
      ensures rawFrames == if frame.Some? then [frame.value] else old(rawFrames)
    {
      if frame.Some? {
        rawFrames := Deques.Append(rawFrames, frame.value, 1);
      }
    }

    /**
     * The decision part of one pass of the processing loop. `classify` stands for the two
     * classifiers applied to the centre crop. The result is the severity handed to a new spray
     * thread, if any; that thread's start is the separate step `StartSpray`.
     */
    method ProcessFrame(classify: (Frame, Roi) -> Classification) returns (launch: Option<string>)
      requires Valid()
      modifies this`rawFrames, this`history, this`plantVisible, this`framesWithoutPlant, this`latestPlant,
               this`processedFrames
      ensures Valid()
      ensures old(rawFrames) == [] ==> launch == None && unchanged(this)
      ensures old(rawFrames) != [] ==>
        var frame := old(rawFrames)[0];
        var h := Deques.Append(old(history), HistoryEntry(cfg, classify(frame, CentreCrop(frame.width, frame.height))),
                               HistorySize);
        var out := Step(h, old(Visibility(plantVisible, framesWithoutPlant)), cfg.confThreshold);
        var severity := Severity(out.0.plantLabel);
        && rawFrames == []
        && history == h
        && Visibility(plantVisible, framesWithoutPlant) == out.1
        && latestPlant == PlantData(out.0.plantLabel, out.0.confidence)
        && processedFrames == [Rendered(out.0, frame)]
        && launch == if LocalTrigger(severity, latestMoisture, latestHumidity, latestTemperature, motorRunning)
                     then Some(severity) else None
    {
      if rawFrames == [] {
        return None;
      }
      var frame := rawFrames[0];
      rawFrames := rawFrames[1..];
      var roi := CentreCrop(frame.width, frame.height);
      history := Deques.Append(history, HistoryEntry(cfg, classify(frame, roi)), HistorySize);
      var reading := StablePrediction();
      launch := Publish(reading, frame);
    }

    /**
     * The end of one pass of the processing loop: the reading becomes the latest plant, the
     * local auto-trigger is evaluated on it, and the rendered frame overwrites the output slot.
     */
    method Publish(reading: Reading, frame: Frame) returns (launch: Option<string>)
      requires Valid()
      modifies this`latestPlant, this`processedFrames
      ensures Valid()
      ensures latestPlant == PlantData(reading.plantLabel, reading.confidence)
      ensures processedFrames == [Rendered(reading, frame)]
      ensures launch == if LocalTrigger(Severity(reading.plantLabel), latestMoisture, latestHumidity, latestTemperature, motorRunning)
                        then Some(Severity(reading.plantLabel)) else None
    {
      latestPlant := PlantData(reading.plantLabel, reading.confidence);
      var severity := Severity(reading.plantLabel);
      if LocalTrigger(severity, latestMoisture, latestHumidity, latestTemperature, motorRunning) {
        launch := Some(severity);
      } else {
        launch := None;
      }
      processedFrames := Deques.Append(processedFrames, Rendered(reading, frame), 1);
    }

    /** What the video stream shows: the newest rendered frame, read without removing it. */
    method LatestRendered() returns (r: Option<Rendered>)
      ensures r.Some? <==> processedFrames != []
      ensures r.Some? ==> r.value == processedFrames[|processedFrames| - 1]
    {
      if processedFrames == [] {
        r := None;
      } else {
        r := Some(processedFrames[|processedFrames| - 1]);
      }
    }

    /** The first half of `spray_motor` / `run_motor_spray`: an unknown severity does nothing. */
    method StartSpray(severity: string, now: real) returns (started: bool)
      requires Valid()
      modifies this`motorRunning, this`sprayDuration, this`sprayStartedAt, this`log
      ensures Valid()
      ensures started <==> severity in SprayRunTimes
      ensures !started ==> unchanged(this)
      ensures started ==>
        && motorRunning
        && sprayDuration == SprayRunTimes[severity]
        && sprayStartedAt == now
        && log == Deques.Append(old(log), LogEntry(MotorStarted(sprayDuration, severity), Success), LogCapacity)
    {
      started := severity in SprayRunTimes;
      if !started {
        return;
      }
      sprayDuration := SprayRunTimes[severity];
      sprayStartedAt := now;
      motorRunning := true;
      AddLog(MotorStarted(sprayDuration, severity), Success);
    }

    /** The second half of a spray session, after the sleep: motor off, freeze and prompt cleared. */
    method FinishSpray()
      requires Valid()
      modifies this`motorRunning, this`sprayInProgress, this`freezeActive, this`sprayPrompt, this`log
      ensures Valid()
      ensures !motorRunning && !sprayInProgress && !freezeActive && sprayPrompt == ""
      ensures log == Deques.Append(old(log), LogEntry(MotorStopped(sprayDuration), Info), LogCapacity)
    {
      motorRunning := false;
      AddLog(MotorStopped(sprayDuration), Info);
      sprayInProgress := false;
      freezeActive := false;
      sprayPrompt := "";
    }

    /**
     * `/process`: store the reported moisture (0.0 when absent), then answer from the force flag
     * or the remote gate. The force flag is consumed.
     */
    method Process(moisture: Option<real>) returns (reply: PollReply)
      requires Valid()
      modifies this`latestMoisture, this`forceSpray, this`currentCommand, this`currentDuration, this`log
      ensures Valid()
      ensures latestMoisture == moisture.GetOr(0.0)
      ensures reply == PollDecision(old(forceSpray), Severity(latestPlant.plantLabel), latestMoisture,
                                    latestHumidity, latestTemperature)
      ensures !forceSpray
      ensures currentCommand == reply.command && currentDuration == reply.duration
      ensures log == if old(forceSpray)
                     then Deques.Append(old(log), LogEntry(ForceSprayActivated(ForceSprayDuration), Warning), LogCapacity)
                     else if reply.command == Run
                     then Deques.Append(old(log), LogEntry(AutoSpray(Severity(latestPlant.plantLabel), reply.duration), Success), LogCapacity)
                     else old(log)
    {
      latestMoisture := moisture.GetOr(0.0);
      var severity := Severity(latestPlant.plantLabel);
      var forced := forceSpray;
      reply := PollDecision(forced, severity, latestMoisture, latestHumidity, latestTemperature);
      currentCommand, currentDuration := reply.command, reply.duration;
      forceSpray := false;
      if forced {
        AddLog(ForceSprayActivated(ForceSprayDuration), Warning);
      } else if reply.command == Run {
        AddLog(AutoSpray(severity, reply.duration), Success);
      }
    }

    /** `/dht22`: last write wins; a missing field becomes an absent reading. */
    method Dht22(temperature: Option<real>, humidity: Option<real>)
      requires Valid()
      modifies this`latestTemperature, this`latestHumidity
      ensures Valid()
      ensures latestTemperature == temperature && latestHumidity == humidity
    {
      latestTemperature := temperature;
      latestHumidity := humidity;
    }

    /** `/force_spray`: only ever sets the flag. */
    method Force()
      requires Valid()
      modifies this`forceSpray, this`log
      ensures Valid()
      ensures forceSpray
      ensures log == Deques.Append(old(log), LogEntry(ForceSprayRequested, Warning), LogCapacity)
    {
      forceSpray := true;
      AddLog(ForceSprayRequested, Warning);
    }

    /** `/status`: a read-only snapshot; the motor reads "ON" exactly while a spray runs. */
    method Status() returns (s: StatusReport)
      ensures s.motor == "ON" <==> motorRunning
      ensures s.motor in {"ON", "OFF"}
      ensures s.plant == LabelText(latestPlant.plantLabel) && s.confidence == latestPlant.confidence
      ensures s.moisture == latestMoisture && s.temperature == latestTemperature && s.humidity == latestHumidity
    {
      s := StatusReport(if motorRunning then "ON" else "OFF", LabelText(latestPlant.plantLabel),
                        latestPlant.confidence, latestMoisture, latestTemperature, latestHumidity);
    }
  }
}
