/**
 * The spray decision: the constants of both servers, the environmental gate, the severity to
 * duration table, the remote poll decision, the centre crop and the history entry built from the
 * classifier's output. main3.py and main.py share all of it except two constants, which are the
 * parameters of `Config`.
 */
module SprayPolicy {
  import opened Options
  import opened Labels
  import opened Stabiliser

  /** The two constants in which main3.py and main.py differ. */
  datatype Config = Config(confThreshold: real, plantThreshold: real)

  /** main3.py: `CONF_THRESHOLD` 45.0, `BINARY_THRESHOLD` 0.6. */
  const Main3Config: Config := Config(45.0, 0.6)
  /** main.py: `MIN_CONFIDENCE` 35.0, `PLANT_DETECTION_THRESHOLD` 0.99. */
  const MainConfig: Config := Config(35.0, 0.99)

  const MoistureLimit: real := 40.0
  const HumidityLimit: real := 70.0
  const TemperatureLimit: real := 30.0
  /** Seconds a forced spray runs. */
  const ForceSprayDuration: nat := 3
  /** Side of the square region handed to the classifier. */
  const CropSize: int := 300

  /** `SPRAY_RUN_TIMES` / `spray_durations`: seconds of spraying per severity token. */
  const SprayRunTimes: map<string, nat> := map["low" := 2, "medium" := 3, "high" := 5]

  // ---------------------------------------------------------------------------------------------
  // Gates
  // ---------------------------------------------------------------------------------------------

  /** Dry soil, and humidity and temperature both reported and below their limits. */
  predicate EnvironmentAllows(moisture: real, humidity: Option<real>, temperature: Option<real>)
  {
    && moisture < MoistureLimit
    && humidity.Some? && humidity.value < HumidityLimit
    && temperature.Some? && temperature.value < TemperatureLimit
  }

  /** The auto-trigger of the frame-processing loop, which also requires the motor to be off. */
  predicate LocalTrigger(severity: string, moisture: real, humidity: Option<real>, temperature: Option<real>,
                         motorRunning: bool)
  {
    severity in SprayRunTimes && EnvironmentAllows(moisture, humidity, temperature) && !motorRunning
  }

  /** The gate of the `/process` handler, which does not look at the motor. */
  predicate RemoteGate(severity: string, moisture: real, humidity: Option<real>, temperature: Option<real>)
  {
    severity in SprayRunTimes && severity != NoPlantText && EnvironmentAllows(moisture, humidity, temperature)
  }

  /** The severities with a table entry. */
  predicate Sprayable(l: Label)
  {
    l.Classified? && l.severity in {Low, Medium, High}
  }

  /** The table knows exactly the class names `low`, `medium` and `high`, and never the token of the sentinel. */
  lemma SeverityInTableIff(l: Label)
    ensures Severity(l) in SprayRunTimes <==> Sprayable(l)
    ensures Sprayable(l) ==> SprayRunTimes[Severity(l)] == match l.severity
      case Low => 2
      case Medium => 3
      case High => 5
      case Healthy => 0
  {
  }

  /**
   * The local auto-trigger fires exactly for a low, medium or high label, dry soil, humidity and
   * temperature present and below their limits, and the motor off. A missing reading, a healthy
   * plant or no plant never triggers.
   */
  lemma LocalTriggerIff(l: Label, moisture: real, humidity: Option<real>, temperature: Option<real>,
                        motorRunning: bool)
    ensures LocalTrigger(Severity(l), moisture, humidity, temperature, motorRunning) <==>
      && Sprayable(l)
      && moisture < 40.0
      && humidity.Some? && humidity.value < 70.0
      && temperature.Some? && temperature.value < 30.0
      && !motorRunning
  {
    SeverityInTableIff(l);
  }

  /** The remote gate is the local trigger with the motor check left out. */
  lemma RemoteGateIsLocalWithoutMotor(severity: string, moisture: real, humidity: Option<real>,
                                      temperature: Option<real>)
    ensures RemoteGate(severity, moisture, humidity, temperature)
      <==> LocalTrigger(severity, moisture, humidity, temperature, false)
  {
    assert NoPlantText !in SprayRunTimes;
  }

  // ---------------------------------------------------------------------------------------------
  // Remote poll
  // ---------------------------------------------------------------------------------------------

  datatype Command = Run | Stop

  /** The JSON reply of `/process`: `motor_command` and `duration`. */
  datatype PollReply = PollReply(command: Command, duration: nat)

  function CommandText(c: Command): string
  {
    match c
    case Run => "RUN"
    case Stop => "STOP"
  }

  /** The durations the server ever uses: none, or one of the run times of the table. */
  predicate KnownDuration(d: nat)
  {
    d == 0 || d == 2 || d == 3 || d == 5
  }

  /** A reply says RUN exactly when its duration is positive, and that duration is a known one. */
  predicate ConsistentReply(r: PollReply)
  {
    KnownDuration(r.duration) && (r.command == Run <==> r.duration > 0)
  }

  /** The decision of `/process`: a pending force request wins, otherwise the remote gate decides. */
  function PollDecision(force: bool, severity: string, moisture: real, humidity: Option<real>,
                        temperature: Option<real>): (r: PollReply)
    ensures ConsistentReply(r)
    ensures force ==> r == PollReply(Run, ForceSprayDuration)
    ensures !force ==> (r.command == Run <==> RemoteGate(severity, moisture, humidity, temperature))
    ensures !force && r.command == Run ==> r.duration == SprayRunTimes[severity]
  {
    if force then PollReply(Run, ForceSprayDuration)
    else if RemoteGate(severity, moisture, humidity, temperature) then PollReply(Run, SprayRunTimes[severity])
    else PollReply(Stop, 0)
  }

  /** Without a pending force request, the poll answers RUN for a label exactly when the local trigger would with the motor off. */
  lemma PollWithoutForce(l: Label, moisture: real, humidity: Option<real>, temperature: Option<real>)
    ensures PollDecision(false, Severity(l), moisture, humidity, temperature).command == Run
      <==> LocalTrigger(Severity(l), moisture, humidity, temperature, false)
  {
    RemoteGateIsLocalWithoutMotor(Severity(l), moisture, humidity, temperature);
  }

  // ---------------------------------------------------------------------------------------------
  // Frame processing
  // ---------------------------------------------------------------------------------------------

  /** A region of interest: columns x1..x2, rows y1..y2 (end-exclusive). */
  datatype Roi = Roi(x1: int, y1: int, x2: int, y2: int)

  /**
   * The centre crop of a `w` by `h` frame. Python's `//` floors; for the divisor 2 this is
   * Dafny's Euclidean `/`, also for a frame narrower than the crop.
   */
  function CentreCrop(w: int, h: int): (roi: Roi)
    ensures roi.x2 - roi.x1 == CropSize && roi.y2 - roi.y1 == CropSize
    ensures w >= CropSize ==> 0 <= roi.x1 && roi.x2 <= w
    ensures h >= CropSize ==> 0 <= roi.y1 && roi.y2 <= h
    ensures 0 <= (w - roi.x2) - roi.x1 <= 1 && 0 <= (h - roi.y2) - roi.y1 <= 1
  {
    var x1 := (w - CropSize) / 2;
    var y1 := (h - CropSize) / 2;
    Roi(x1, y1, x1 + CropSize, y1 + CropSize)
  }

  /**
   * The two classifiers' verdict on the crop: the binary model's plant probability, and the
   * severity model's arg-max class, its confidence in percent and that confidence formatted to
   * one decimal.
   */
  datatype Classification = Classification(plantProbability: real, severity: SeverityClass,
                                           confidence: real, confidenceText: string)

  /** The history entry one processed frame appends. */
  function HistoryEntry(cfg: Config, c: Classification): (e: Entry)
    ensures e.plantLabel == NoPlant <==> c.plantProbability <= cfg.plantThreshold
    ensures e.plantLabel == NoPlant ==> e.confidence == 0.0
    ensures e.plantLabel != NoPlant ==> e.plantLabel.severity == c.severity && e.confidence == c.confidence
  {
    if c.plantProbability > cfg.plantThreshold then Entry(Classified(c.severity, c.confidenceText), c.confidence)
    else Entry(NoPlant, 0.0)
  }
}
