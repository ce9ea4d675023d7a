/** The plain value types the controller holds and exchanges with the oven:
    program steps, programs, the configuration and the status snapshot. */
module Domain {
  import opened Options

  /** A JavaScript number. Temperatures, durations, PID coefficients and
      telemetry are carried along unchanged and never computed on. */
  type Number = real

  /** One step of a firing program: temperature at its start and end and its duration. */
  datatype Step = Step(tStart: Number, tEnd: Number, duration: Number)

  /** A named program. The type does not forbid an empty step list. */
  datatype Program = Program(Name: string, steps: seq<Step>)

  /** The second argument of the program constructor: one step or an array of steps. */
  datatype StepsArg = OneStep(step: Step) | StepArray(steps: seq<Step>)

  const DefaultProgramName: string := "New program"

  /** The step constructor: every omitted argument becomes 0. */
  function NewStep(tStart: Option<Number>, tEnd: Option<Number>, duration: Option<Number>): (s: Step)
    ensures tStart.Some? ==> s.tStart == tStart.value
    ensures tStart.None? ==> s.tStart == 0.0
    ensures tEnd.Some? ==> s.tEnd == tEnd.value
    ensures tEnd.None? ==> s.tEnd == 0.0
    ensures duration.Some? ==> s.duration == duration.value
    ensures duration.None? ==> s.duration == 0.0
  {
    Step(tStart.GetOr(0.0), tEnd.GetOr(0.0), duration.GetOr(0.0))
  }

  /** The program constructor. An omitted name becomes "New program", omitted
      steps become one all-zero step, a single step is wrapped in a one-element
      list and an array is kept as given, even when it is empty. */
  function NewProgram(name: Option<string>, steps: Option<StepsArg>): (p: Program)
    ensures name.Some? ==> p.Name == name.value
    ensures name.None? ==> p.Name == DefaultProgramName
    ensures steps.None? ==> p.steps == [Step(0.0, 0.0, 0.0)]
    ensures steps.Some? && steps.value.OneStep? ==> p.steps == [steps.value.step]
    ensures steps.Some? && steps.value.StepArray? ==> p.steps == steps.value.steps
  {
    var stepList :=
      match steps
      case None => [NewStep(None, None, None)]
      case Some(OneStep(s)) => [s]
      case Some(StepArray(ss)) => ss;
    Program(name.GetOr(DefaultProgramName), stepList)
  }

  /** A program built by the constructor has no step exactly when it was
      handed an explicit empty array: the constructor does not enforce the
      "at least one step" rule its documentation states. */
  lemma NewProgramEmptyIff(name: Option<string>, steps: Option<StepsArg>)
    ensures |NewProgram(name, steps).steps| == 0 <==> steps == Some(StepArray([]))
  {
  }

  /** TFT touch screen settings: polling interval and calibration data. */
  datatype TftSettings = TftSettings(poll: Number, TFT: seq<Number>)

  /** WiFi credentials and the address currently assigned. */
  datatype WiFiSettings = WiFiSettings(SSID: string, KEY: string, IP: Option<string>)

  /** PID control polling interval, coefficients and measurement tolerance. */
  datatype PidSettings = PidSettings(poll: Number, KP: Number, KI: Number, KD: Number, TOL: Number)

  /** The controller configuration; every block is optional. */
  datatype Configuration = Configuration(
    TFT: Option<TftSettings>,
    WiFi: Option<WiFiSettings>,
    PID: Option<PidSettings>)

  /** A configuration with no block set, as a fresh controller holds it. */
  const EmptyConfiguration: Configuration := Configuration(None, None, None)

  /** The status snapshot the oven pushes: probe, ambient and setpoint
      temperatures, supply voltage, run and relay flags, a status text, the
      active program (null when none), the active step and the elapsed time. */
  datatype Status = Status(
    tPB: Number,
    tAM: Number,
    tSP: Number,
    U: Number,
    isRunning: bool,
    isRelayOn: bool,
    stsText: string,
    actPgm: Option<Program>,
    actStep: Number,
    tmElapsed: Number)

  /** The status a fresh controller holds: zeros, false, empty text, no program. */
  const InitialStatus: Status := Status(0.0, 0.0, 0.0, 0.0, false, false, "", None, 0.0, 0.0)
}
