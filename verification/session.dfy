/** The test session controller of the `EmissionMonitor` screen: the state
    the screen keeps and the transitions its event handlers perform
    (src/App.jsx). Each transition is a pure function from the state before
    to the state after; alerts, commands to the device and the save request
    are returned beside the new state instead of being performed. */
module Session {
  import opened Wrappers
  import opened Validator
  import opened Chart
  import opened Aggregate
  import opened Duration

  /** The five fields of the vehicle owner form. */
  datatype Field = Nama | MerkMotor | NamaMotor | CcMotor | NomorWa

  datatype FormData = FormData(nama: string, merkMotor: string, namaMotor: string, ccMotor: string, nomorWa: string)
  {
    /** `{...formData, [field]: value}` */
    function With(field: Field, value: string): FormData
    {
      match field
      case Nama => this.(nama := value)
      case MerkMotor => this.(merkMotor := value)
      case NamaMotor => this.(namaMotor := value)
      case CcMotor => this.(ccMotor := value)
      case NomorWa => this.(nomorWa := value)
    }
  }

  const EmptyForm := FormData("", "", "", "", "")

  /** Every field is non-empty (the empty string is the only falsy string). */
  predicate FormComplete(form: FormData)
  {
    form.nama != "" && form.merkMotor != "" && form.namaMotor != "" && form.ccMotor != "" && form.nomorWa != ""
  }

  /** The screen's state. `startTime` is the `testStartTime` reference
      (null until the first start); `latestTimerLive` says whether the
      interval stored in `durationIntervalRef` is still scheduled, and
      `leakedTimers` counts earlier intervals a repeated start overwrote
      without clearing. `socketReady` says whether the socket object exists,
      which guards every `emit`. */
  datatype State = State(
    data: Reading,
    chartData: seq<ChartPoint>,
    isConnected: bool,
    isTesting: bool,
    showForm: bool,
    formData: FormData,
    testDuration: int,
    startTime: Option<int>,
    latestTimerLive: bool,
    leakedTimers: nat,
    socketReady: bool)

  /** Some duration interval is still scheduled, so ticks keep arriving. */
  predicate TimerRunning(s: State)
  {
    s.latestTimerLive || s.leakedTimers > 0
  }

  /** What every reachable state satisfies: the chart is bounded, every
      stored reading is validated, the testing flag and the latest interval
      go together, and no interval ticks without a start time. */
  predicate Valid(s: State)
  {
    && |s.chartData| <= Capacity
    && s.data.mq135 >= 0.0 && s.data.mq7 >= 0.0
    && (forall i :: 0 <= i < |s.chartData| ==> s.chartData[i].mq135 >= 0.0 && s.chartData[i].mq7 >= 0.0)
    && s.isTesting == s.latestTimerLive
    && (TimerRunning(s) ==> s.startTime.Some?)
  }

  /** The alerts the screen raises. */
  datatype Alert = NotConnected | NoDataRecorded | IncompleteForm | NoTestData | Saved | SaveFailed

  /** The commands sent to the device over the socket. */
  datatype Command = StartTest | StopTest

  /** The body of the save request. */
  datatype TestResult = TestResult(form: FormData, testData: seq<ChartPoint>, summary: Summary, testDuration: int)

  /** The state after a user action, with the alert raised, the command sent
      and the save request posted, if any. */
  datatype Step = Step(next: State, alert: Option<Alert>, command: Option<Command>, posted: Option<TestResult>)

  /** The state on mount: zero readings stamped with the mount time, nothing
      recorded, no connection and no session. */
  function Init(nowIso: string, socketReady: bool): (s: State)
    ensures Valid(s)
    ensures !s.isTesting && !s.showForm && !TimerRunning(s) && s.chartData == []
  {
    State(Reading(0.0, 0.0, nowIso), [], false, false, false, EmptyForm, 0, None, false, 0, socketReady)
  }

  /** A `connection-status` event: only the connected flag changes. */
  function OnConnectionStatus(s: State, connected: bool): (r: State)
    ensures r.isConnected == connected
    ensures r.(isConnected := s.isConnected) == s
  {
    s.(isConnected := connected)
  }

  /** A `sensor-data` event. An absent payload is ignored. Otherwise both
      channels are validated and become the live reading, and only while a
      test runs a point labelled `timeLabel` joins the chart, which keeps
      its 30 most recent points. */
  function OnSensorData(s: State, payload: Payload, nowIso: string, timeLabel: string): (r: State)
    ensures payload.Absent? ==> r == s
    ensures payload.Present? ==>
      && r.data.mq135 == ParseValidPPM(payload.mq135)
      && r.data.mq7 == ParseValidPPM(payload.mq7)
      && r.data.timestamp == (if payload.timestamp == "" then nowIso else payload.timestamp)
    ensures payload.Present? && !s.isTesting ==> r == s.(data := r.data)
    ensures payload.Present? && s.isTesting ==>
      && r == s.(data := r.data, chartData := r.chartData)
      && |r.chartData| == Min(|s.chartData| + 1, Capacity)
      && r.chartData[|r.chartData| - 1] == ChartPoint(timeLabel, r.data.mq135, r.data.mq7)
      && r.chartData[..|r.chartData| - 1] == s.chartData[|s.chartData| + 1 - |r.chartData|..]
  {
    if payload.Absent? then s
    else
      var validated := Validate(payload, nowIso);
      var s' := s.(data := validated);
      if s.isTesting then
        s'.(chartData := Append(s.chartData, ChartPoint(timeLabel, validated.mq135, validated.mq7)))
      else s'
  }

  /** `handleStart` as written, at clock reading `now`. Without a device
      connection nothing changes and the user is alerted. Otherwise a test
      begins: the chart is emptied, the start time is recorded and a new
      duration interval is scheduled (a still scheduled one is overwritten,
      not cleared); the test duration is left as it was. */
  function StartAsWritten(s: State, now: int): (step: Step)
    ensures !s.isConnected ==> step == Step(s, Some(NotConnected), None, None)
    ensures s.isConnected ==>
      && step.next.isTesting && step.next.chartData == []
      && step.next.startTime == Some(now)
      && step.next.latestTimerLive
      && step.next.leakedTimers == s.leakedTimers + (if s.latestTimerLive then 1 else 0)
      && step.next.testDuration == s.testDuration
      && step.next == s.(isTesting := true, chartData := [], startTime := Some(now),
                         latestTimerLive := true, leakedTimers := step.next.leakedTimers)
      && step.alert == None && step.posted == None
      && step.command == (if s.socketReady then Some(StartTest) else None)
  {
    if !s.isConnected then Step(s, Some(NotConnected), None, None)
    else
      var next := s.(
        isTesting := true,
        chartData := [],
        startTime := Some(now),
        latestTimerLive := true,
        leakedTimers := if s.latestTimerLive then s.leakedTimers + 1 else s.leakedTimers);
      Step(next, None, if s.socketReady then Some(StartTest) else None, None)
  }

  /** `handleStart` with the duration of the new test reset to 0, so that a
      test never reports the duration of the one before it. */
  function Start(s: State, now: int): (step: Step)
    ensures !s.isConnected ==> step == StartAsWritten(s, now)
    ensures s.isConnected ==> step.next.testDuration == 0
    ensures s.isConnected ==> step == StartAsWritten(s, now).(next := step.next)
    ensures s.isConnected ==> step.next.(testDuration := s.testDuration) == StartAsWritten(s, now).next
  {
    var step := StartAsWritten(s, now);
    if s.isConnected then step.(next := step.next.(testDuration := 0)) else step
  }

  /** One firing of a duration interval at clock reading `now`: the test
      duration becomes the whole seconds since the start time. With no
      interval scheduled nothing fires. */
  function Tick(s: State, now: int): (r: State)
    ensures !TimerRunning(s) ==> r == s
    ensures TimerRunning(s) ==> r == s.(testDuration := r.testDuration)
    ensures TimerRunning(s) && s.startTime.Some? ==>
      r.testDuration * 1000 <= now - s.startTime.value < r.testDuration * 1000 + 1000
  {
    if !TimerRunning(s) then s
    else
      var start := if s.startTime.Some? then s.startTime.value else 0;  // `Date.now() - null` reads null as 0
      s.(testDuration := ElapsedSeconds(start, now))
  }

  /** `handleStop`: the test always ends and its interval is cleared. With an
      empty chart the duration goes back to 0, the user is alerted and no
      form is shown; otherwise the chart is kept and the form is shown. */
  function Stop(s: State): (step: Step)
    ensures !step.next.isTesting && !step.next.latestTimerLive
    ensures step.next.leakedTimers == s.leakedTimers
    ensures step.command == (if s.socketReady then Some(StopTest) else None)
    ensures step.posted == None
    ensures |s.chartData| == 0 ==>
      && step.next == s.(isTesting := false, latestTimerLive := false, testDuration := 0)
      && step.alert == Some(NoDataRecorded)
    ensures |s.chartData| > 0 ==>
      && step.next == s.(isTesting := false, latestTimerLive := false, showForm := true)
      && step.alert == None
  {
    var command := if s.socketReady then Some(StopTest) else None;
    var stopped := s.(isTesting := false, latestTimerLive := false);
    if |s.chartData| == 0 then Step(stopped.(testDuration := 0), Some(NoDataRecorded), command, None)
    else Step(stopped.(showForm := true), None, command, None)
  }

  /** Typing into one form field. */
  function EditField(s: State, field: Field, value: string): (r: State)
    ensures r.formData == s.formData.With(field, value)
    ensures r.(formData := s.formData) == s
  {
    s.(formData := s.formData.With(field, value))
  }

  /** `handleSave`, with the server's answer given as `serverOk`. An
      incomplete form or an empty chart changes nothing and alerts the user.
      Otherwise the form, the chart, its summary and the duration are posted;
      on success the form is cleared and hidden, the chart is emptied and the
      duration goes back to 0, and on failure nothing changes. */
  function Save(s: State, serverOk: bool): (step: Step)
    ensures !FormComplete(s.formData) ==> step == Step(s, Some(IncompleteForm), None, None)
    ensures FormComplete(s.formData) && |s.chartData| == 0 ==> step == Step(s, Some(NoTestData), None, None)
    ensures FormComplete(s.formData) && |s.chartData| > 0 ==>
      && step.posted.Some?
      && step.posted.value.form == s.formData
      && step.posted.value.testData == s.chartData
      && step.posted.value.summary == Summarize(s.chartData)
      && step.posted.value.testDuration == s.testDuration
      && step.command == None
      && (serverOk ==>
            && step.next == s.(showForm := false, formData := EmptyForm, testDuration := 0, chartData := [])
            && step.alert == Some(Saved))
      && (!serverOk ==> step.next == s && step.alert == Some(SaveFailed))
  {
    if !FormComplete(s.formData) then Step(s, Some(IncompleteForm), None, None)
    else if |s.chartData| == 0 then Step(s, Some(NoTestData), None, None)
    else
      var result := TestResult(s.formData, s.chartData, Summarize(s.chartData), s.testDuration);
      if serverOk then
        var next := s.(showForm := false, formData := EmptyForm, testDuration := 0, chartData := []);
        Step(next, Some(Saved), None, Some(result))
      else Step(s, Some(SaveFailed), None, Some(result))
  }

  /** The form's cancel button: the form is hidden and nothing else changes;
      the chart, the duration and the typed fields stay. */
  function Cancel(s: State): (r: State)
    ensures !r.showForm
    ensures r.(showForm := s.showForm) == s
  {
    s.(showForm := false)
  }

  /** Everything that can happen to the screen. */
  datatype Event =
    | ConnectionStatus(connected: bool)
    | SensorData(payload: Payload, nowIso: string, timeLabel: string)
    | StartPressed(now: int)
    | TickAt(now: int)
    | StopPressed
    | FieldEdited(field: Field, value: string)
    | SavePressed(serverOk: bool)
    | CancelPressed

  /** The state after one event. */
  function Apply(s: State, e: Event): State
  {
    match e
    case ConnectionStatus(connected) => OnConnectionStatus(s, connected)
    case SensorData(payload, nowIso, timeLabel) => OnSensorData(s, payload, nowIso, timeLabel)
    case StartPressed(now) => StartAsWritten(s, now).next
    case TickAt(now) => Tick(s, now)
    case StopPressed => Stop(s).next
    case FieldEdited(field, value) => EditField(s, field, value)
    case SavePressed(serverOk) => Save(s, serverOk).next
    case CancelPressed => Cancel(s)
  }

  /** The state after a sequence of events, in order. */
  function Run(s: State, events: seq<Event>): State
    decreases |events|
  {
    if events == [] then s else Run(Apply(s, events[0]), events[1..])
  }
}
