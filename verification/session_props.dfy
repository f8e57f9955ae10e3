/** Properties of whole runs of the session controller: the invariant every
    event keeps, what a recording session accumulates, and the lifecycle from
    start to a saved test. */
module SessionProps {
  import opened Wrappers
  import opened Validator
  import opened Chart
  import opened Aggregate
  import opened Duration
  import opened Session

  /** A reading keeps the state valid: the appended point is validated and
      the points kept are old ones. */
  lemma SensorDataPreservesValid(s: State, payload: Payload, nowIso: string, timeLabel: string)
    requires Valid(s)
    ensures Valid(OnSensorData(s, payload, nowIso, timeLabel))
  {
    if payload.Present? && s.isTesting {
      var v := Validate(payload, nowIso);
      AppendKeepsNonNegative(s.chartData, ChartPoint(timeLabel, v.mq135, v.mq7));
    }
  }

  /** Every event keeps the state valid. */
  lemma ApplyPreservesValid(s: State, e: Event)
    requires Valid(s)
    ensures Valid(Apply(s, e))
  {
    match e
    case SensorData(payload, nowIso, timeLabel) =>
      SensorDataPreservesValid(s, payload, nowIso, timeLabel);
    case StartPressed(now) =>
      var r := StartAsWritten(s, now).next;
      assert s.isConnected ==> r.chartData == [] && r.startTime.Some?;
    case StopPressed =>
      var r := Stop(s).next;
      assert r.chartData == s.chartData && r.data == s.data && r.startTime == s.startTime;
    case SavePressed(ok) =>
      var r := Save(s, ok).next;
      assert r.chartData == s.chartData || r.chartData == [];
      assert r.data == s.data && r.startTime == s.startTime && r.isTesting == s.isTesting;
    case _ =>
  }

  /** Every run from a valid state ends in a valid state; in particular the
      chart never holds more than 30 points. */
  lemma {:induction false} RunPreservesValid(s: State, events: seq<Event>)
    requires Valid(s)
    ensures Valid(Run(s, events))
    ensures |Run(s, events).chartData| <= Capacity
    decreases |events|
  {
    if events != [] {
      ApplyPreservesValid(s, events[0]);
      RunPreservesValid(Apply(s, events[0]), events[1..]);
    }
  }

  /** Every state reachable from the mount state is valid. */
  lemma ReachableIsValid(nowIso: string, socketReady: bool, events: seq<Event>)
    ensures Valid(Run(Init(nowIso, socketReady), events))
  {
    RunPreservesValid(Init(nowIso, socketReady), events);
  }

  /** The events that arrive while a test records: device status, readings
      and interval ticks. */
  predicate IsRecording(e: Event)
  {
    e.ConnectionStatus? || e.SensorData? || e.TickAt?
  }

  /** The chart point a reading adds while a test records, if any. */
  function PointOf(e: Event): seq<ChartPoint>
  {
    if e.SensorData? && e.payload.Present?
    then [ChartPoint(e.timeLabel, ParseValidPPM(e.payload.mq135), ParseValidPPM(e.payload.mq7))]
    else []
  }

  /** The chart points that the readings among `events` produce, in order. */
  function PointsOf(events: seq<Event>): seq<ChartPoint>
    decreases |events|
  {
    if events == [] then [] else PointOf(events[0]) + PointsOf(events[1..])
  }

  /** The duration the last tick among `events` reports for a test started at
      `start`, or `initial` when no tick comes. */
  function LastTick(events: seq<Event>, start: int, initial: int): int
    decreases |events|
  {
    if events == [] then initial
    else
      var d := if events[0].TickAt? then ElapsedSeconds(start, events[0].now) else initial;
      LastTick(events[1..], start, d)
  }

  /** When every tick comes after the start, the reported duration is never
      negative. */
  lemma {:induction false} LastTickNonNegative(events: seq<Event>, start: int, initial: int)
    requires initial >= 0
    requires forall i :: 0 <= i < |events| && events[i].TickAt? ==> events[i].now >= start
    ensures LastTick(events, start, initial) >= 0
    decreases |events|
  {
    if events != [] {
      var d := if events[0].TickAt? then ElapsedSeconds(start, events[0].now) else initial;
      if events[0].TickAt? {
        ElapsedSecondsMonotone(start, events[0].now, events[0].now);
      }
      assert forall i :: 0 <= i < |events[1..]| ==> events[1..][i] == events[i + 1];
      LastTickNonNegative(events[1..], start, d);
    }
  }

  /** Kept apart so that the sequence reasoning runs in a small context. */
  lemma ConcatAssociative<T>(a: seq<T>, b: seq<T>, c: seq<T>)
    ensures a + (b + c) == (a + b) + c
  {
  }

  /** One recording event during a test: a reading may add its point, a tick
      may set the duration, and the session itself stays as it was. */
  lemma RecordingStep(s: State, e: Event, start: int)
    requires s.isTesting && s.latestTimerLive && s.startTime == Some(start)
    requires IsRecording(e)
    ensures var r := Apply(s, e);
      && r.chartData == (if PointOf(e) == [] then s.chartData else Last(s.chartData + PointOf(e), Capacity))
      && r.testDuration == (if e.TickAt? then ElapsedSeconds(start, e.now) else s.testDuration)
      && r.isTesting && r.latestTimerLive && r.startTime == s.startTime
      && r.leakedTimers == s.leakedTimers
      && r.showForm == s.showForm && r.formData == s.formData && r.socketReady == s.socketReady
  {
  }

  /** While a test records, the session itself stays as it was: still
      testing with the same start time, intervals, form and socket. */
  lemma {:induction false} RecordingKeepsSession(s: State, events: seq<Event>, start: int)
    requires s.isTesting && s.latestTimerLive && s.startTime == Some(start)
    requires forall i :: 0 <= i < |events| ==> IsRecording(events[i])
    ensures var r := Run(s, events);
      && r.isTesting && r.latestTimerLive && r.startTime == s.startTime
      && r.leakedTimers == s.leakedTimers
      && r.showForm == s.showForm && r.formData == s.formData && r.socketReady == s.socketReady
    decreases |events|
  {
    if events != [] {
      var e, rest := events[0], events[1..];
      RecordingStep(s, e, start);
      assert forall i :: 0 <= i < |rest| ==> rest[i] == events[i + 1];
      RecordingKeepsSession(Apply(s, e), rest, start);
    }
  }

  /** While a test records, the chart is the last 30 points of what it held
      followed by the point of every accepted reading, in arrival order. */
  lemma {:induction false} RecordingChart(s: State, events: seq<Event>, start: int)
    requires s.isTesting && s.latestTimerLive && s.startTime == Some(start)
    requires |s.chartData| <= Capacity
    requires forall i :: 0 <= i < |events| ==> IsRecording(events[i])
    ensures Run(s, events).chartData == Last(s.chartData + PointsOf(events), Capacity)
    decreases |events|
  {
    if events == [] {
      assert s.chartData + [] == s.chartData;
    } else {
      var e, rest := events[0], events[1..];
      var s1 := Apply(s, e);
      RecordingStep(s, e, start);
      assert forall i :: 0 <= i < |rest| ==> rest[i] == events[i + 1];
      RecordingChart(s1, rest, start);
      var a, p, r := s.chartData, PointOf(e), PointsOf(rest);
      assert Run(s, events).chartData == Last(s1.chartData + r, Capacity);
      assert PointsOf(events) == p + r;
      ConcatAssociative(a, p, r);
      if p != [] {
        assert s1.chartData == Last(a + p, Capacity);
        LastOfLast(a + p, r, Capacity);
      } else {
        assert a + p == a;
      }
    }
  }

  /** While a test records, the duration is the one the last tick reported,
      or the one the test started with when no tick came. */
  lemma {:induction false} RecordingDuration(s: State, events: seq<Event>, start: int)
    requires s.isTesting && s.latestTimerLive && s.startTime == Some(start)
    requires forall i :: 0 <= i < |events| ==> IsRecording(events[i])
    ensures Run(s, events).testDuration == LastTick(events, start, s.testDuration)
    decreases |events|
  {
    if events != [] {
      var e, rest := events[0], events[1..];
      RecordingStep(s, e, start);
      assert forall i :: 0 <= i < |rest| ==> rest[i] == events[i + 1];
      RecordingDuration(Apply(s, e), rest, start);
    }
  }

  /** The five edits that fill the form with `form`. */
  function FillForm(form: FormData): seq<Event>
  {
    [FieldEdited(Nama, form.nama), FieldEdited(MerkMotor, form.merkMotor), FieldEdited(NamaMotor, form.namaMotor),
     FieldEdited(CcMotor, form.ccMotor), FieldEdited(NomorWa, form.nomorWa)]
  }

  lemma FillFormSetsForm(s: State, form: FormData)
    ensures Run(s, FillForm(form)) == s.(formData := form)
  {
    var es := FillForm(form);
    var s1 := EditField(s, Nama, form.nama);
    var s2 := EditField(s1, MerkMotor, form.merkMotor);
    var s3 := EditField(s2, NamaMotor, form.namaMotor);
    var s4 := EditField(s3, CcMotor, form.ccMotor);
    var s5 := EditField(s4, NomorWa, form.nomorWa);
    assert es[1..][1..][1..][1..][1..] == [];
    calc {
      Run(s, es);
      Run(s1, es[1..]);
      Run(s2, es[1..][1..]);
      Run(s3, es[1..][1..][1..]);
      Run(s4, es[1..][1..][1..][1..]);
      Run(s5, es[1..][1..][1..][1..][1..]);
      s5;
    }
  }

  /** A whole session as written: start while connected at `start`, record
      `events`, stop, fill the form and save. When at least one reading
      arrived the save posts the filled form, the last 30 accepted points in
      arrival order, their summary and the duration of the last tick, or the
      duration left over from before the start when no tick came; a
      successful save then leaves an empty, hidden form, an empty chart and a
      zero duration. */
  lemma SessionLifecycle(s: State, start: int, events: seq<Event>, form: FormData, serverOk: bool)
    requires s.isConnected
    requires forall i :: 0 <= i < |events| ==> IsRecording(events[i])
    requires |PointsOf(events)| > 0
    requires FormComplete(form)
    ensures var started := StartAsWritten(s, start).next;
      var stopped := Stop(Run(started, events)).next;
      var saved := Save(Run(stopped, FillForm(form)), serverOk);
      && saved.posted == Some(TestResult(form, Last(PointsOf(events), Capacity),
                                         Summarize(Last(PointsOf(events), Capacity)),
                                         LastTick(events, start, s.testDuration)))
      && (serverOk ==> !saved.next.showForm && saved.next.chartData == [] && saved.next.testDuration == 0
                       && saved.next.formData == EmptyForm && !saved.next.isTesting)
  {
    Recorded(StartAsWritten(s, start).next, start, events, form);
  }

  /** The same session with the duration reset on start: the save posts the
      duration of this session's own last tick, 0 when none came. */
  lemma CorrectedSessionLifecycle(s: State, start: int, events: seq<Event>, form: FormData, serverOk: bool)
    requires s.isConnected
    requires forall i :: 0 <= i < |events| ==> IsRecording(events[i])
    requires |PointsOf(events)| > 0
    requires FormComplete(form)
    ensures var started := Start(s, start).next;
      var stopped := Stop(Run(started, events)).next;
      var saved := Save(Run(stopped, FillForm(form)), serverOk);
      && saved.posted == Some(TestResult(form, Last(PointsOf(events), Capacity),
                                         Summarize(Last(PointsOf(events), Capacity)), LastTick(events, start, 0)))
      && (serverOk ==> !saved.next.showForm && saved.next.chartData == [] && saved.next.testDuration == 0
                       && saved.next.formData == EmptyForm && !saved.next.isTesting)
  {
    Recorded(Start(s, start).next, start, events, form);
  }

  /** What a started test holds once `events` are recorded, it is stopped and
      the form is filled. */
  lemma Recorded(started: State, start: int, events: seq<Event>, form: FormData)
    requires started.isTesting && started.latestTimerLive && started.startTime == Some(start)
    requires started.chartData == []
    requires forall i :: 0 <= i < |events| ==> IsRecording(events[i])
    requires |PointsOf(events)| > 0
    ensures var filled := Run(Stop(Run(started, events)).next, FillForm(form));
      && filled.formData == form
      && filled.chartData == Last(PointsOf(events), Capacity)
      && filled.testDuration == LastTick(events, start, started.testDuration)
      && !filled.isTesting
  {
    RecordingKeepsSession(started, events, start);
    RecordingChart(started, events, start);
    RecordingDuration(started, events, start);
    assert [] + PointsOf(events) == PointsOf(events);
    var recorded := Run(started, events);
    assert |recorded.chartData| > 0;
    var stopped := Stop(recorded).next;
    assert stopped == recorded.(isTesting := false, latestTimerLive := false, showForm := true);
    FillFormSetsForm(stopped, form);
  }

  /** As written, a new test carries the duration left over from the test
      before it until its own first tick. */
  lemma InheritedDurationAsWritten(s: State, start: int, events: seq<Event>)
    requires s.isConnected
    requires forall i :: 0 <= i < |events| ==> IsRecording(events[i])
    ensures Run(StartAsWritten(s, start).next, events).testDuration == LastTick(events, start, s.testDuration)
  {
    RecordingDuration(StartAsWritten(s, start).next, events, start);
  }

  /** As written, a test started after a cancelled one inherits its
      duration: the form was cancelled with `s.testDuration` seconds left
      over (say 5), and one reading followed by a stop before the first tick
      posts that duration although no tick of this test came, which would
      report 0. */
  lemma StaleDurationAsWritten(s: State, start: int, reading: Payload, nowIso: string, timeLabel: string, serverOk: bool)
    requires s.isConnected && FormComplete(s.formData) && reading.Present?
    ensures var events := [SensorData(reading, nowIso, timeLabel)];
      var saved := Save(Stop(Run(StartAsWritten(Cancel(s), start).next, events)).next, serverOk);
      && saved.posted.Some?
      && saved.posted.value.testDuration == s.testDuration
      && LastTick(events, start, 0) == 0
  {
    var events := [SensorData(reading, nowIso, timeLabel)];
    var started := StartAsWritten(Cancel(s), start).next;
    assert events[1..] == [];
    var recorded := Run(started, events);
    assert recorded == Run(Apply(started, events[0]), []);
    assert |recorded.chartData| == 1 && recorded.testDuration == s.testDuration;
    var stopped := Stop(recorded).next;
    assert stopped.testDuration == s.testDuration && |stopped.chartData| == 1 && stopped.formData == s.formData;
  }

  /** With the duration reset on start, the duration a session reports after
      any recording comes from that session's ticks alone: 0 before the first
      tick, never negative when the ticks come after the start. */
  lemma FreshDuration(s: State, start: int, events: seq<Event>)
    requires s.isConnected
    requires forall i :: 0 <= i < |events| ==> IsRecording(events[i])
    requires forall i :: 0 <= i < |events| && events[i].TickAt? ==> events[i].now >= start
    ensures Run(Start(s, start).next, events).testDuration == LastTick(events, start, 0)
    ensures Run(Start(s, start).next, events).testDuration >= 0
  {
    RecordingDuration(Start(s, start).next, events, start);
    LastTickNonNegative(events, start, 0);
  }
}
