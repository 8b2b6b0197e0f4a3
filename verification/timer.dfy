/**
 * The extraction timer both scripts keep in `st.session_state`: the clock
 * reading of the last START under `timer_start` and the finished measurement
 * under `total_time_sec`. The clock is passed in as an integer number of
 * milliseconds; the session is an immutable value threaded through each
 * button press.
 */
module Timer {
  import opened Optional
  import PyValues

  /** The two session keys once initialised: `timer_start` (a clock reading, in
      milliseconds) and `total_time_sec` (whole seconds). */
  datatype Session = Session(timerStart: Option<int>, totalTimeSec: Option<int>)

  /** A key of `st.session_state` as a script run finds it: never written, or
      written with a value that may itself be `None`. */
  datatype Slot = Absent | Present(held: Option<int>)

  datatype Store = Store(timerStart: Slot, totalTimeSec: Slot)

  /** What a brand-new browser session holds before the first run. */
  const FreshStore: Store := Store(Absent, Absent)

  /** Neither running nor holding a result. */
  const Idle: Session := Session(None, None)

  /** `if key not in st.session_state: st.session_state[key] = None`. */
  function InitKey(k: Slot): (v: Option<int>)
    ensures k.Absent? ==> v.None?
    ensures k.Present? ==> v == k.held
  {
    match k
    case Absent => None
    case Present(h) => h
  }

  /** The initialisation at the top of every run: each key missing from the store
      is set to `None`, each key already there keeps its value. */
  function InitKeys(st: Store): (s: Session)
    ensures st.timerStart.Absent? ==> s.timerStart.None?
    ensures st.totalTimeSec.Absent? ==> s.totalTimeSec.None?
    ensures st.timerStart.Present? ==> s.timerStart == st.timerStart.held
    ensures st.totalTimeSec.Present? ==> s.totalTimeSec == st.totalTimeSec.held
  {
    Session(InitKey(st.timerStart), InitKey(st.totalTimeSec))
  }

  /** The store a run leaves behind: both keys written. */
  function Stored(s: Session): (st: Store)
    ensures st.timerStart.Present? && st.totalTimeSec.Present?
  {
    Store(Present(s.timerStart), Present(s.totalTimeSec))
  }

  /** The first run of a session starts idle, and a later run's initialisation
      leaves what earlier runs stored untouched. */
  lemma InitKeysRerun(s: Session)
    ensures InitKeys(FreshStore) == Idle
    ensures InitKeys(Stored(s)) == s
  {
  }

  /** The invariant of the timer: never a running start time and a finished result at once. */
  predicate NotBoth(s: Session) {
    !(s.timerStart.Some? && s.totalTimeSec.Some?)
  }

  /** The message each button press puts on screen. */
  datatype Notice = StartedNotice | StartFirstWarning | StoppedNotice(elapsed: int)

  /** START: record the clock and drop any finished result, whatever the prior state. */
  function Start(s: Session, now: int): (r: Session)
    ensures r.timerStart == Some(now) && r.totalTimeSec.None?
    ensures NotBoth(r)
  {
    Session(Some(now), None)
  }

  datatype Stopped = Stopped(session: Session, notice: Notice)

  /** STOP: without a start time it only warns "press START first"; otherwise it
      stores `int(now - timer_start)` seconds and clears the start time. */
  function Stop(s: Session, now: int): (r: Stopped)
    ensures s.timerStart.None? <==> r.notice.StartFirstWarning?
    ensures s.timerStart.None? ==> r.session == s
    ensures s.timerStart.Some? ==>
      && r.notice.StoppedNotice?
      && r.session.timerStart.None?
      && r.session.totalTimeSec == Some(r.notice.elapsed)
    ensures s.timerStart.Some? && s.timerStart.value <= now ==>
      && 0 <= r.notice.elapsed
      && r.notice.elapsed * 1000 <= now - s.timerStart.value < r.notice.elapsed * 1000 + 1000
    ensures s.timerStart.Some? && now <= s.timerStart.value ==>
      && r.notice.elapsed <= 0
      && r.notice.elapsed * 1000 - 1000 < now - s.timerStart.value <= r.notice.elapsed * 1000
    ensures NotBoth(s) ==> NotBoth(r.session)
  {
    match s.timerStart
    case None => Stopped(s, StartFirstWarning)
    case Some(start) =>
      var elapsed := PyValues.TruncSeconds(now - start);
      Stopped(Session(None, Some(elapsed)), StoppedNotice(elapsed))
  }

  /** `st.session_state["total_time_sec"] = None`, what a submit does to the timer. */
  function ClearResult(s: Session): (r: Session)
    ensures r.timerStart == s.timerStart && r.totalTimeSec.None?
    ensures NotBoth(r)
  {
    s.(totalTimeSec := None)
  }

  /** The status line under the buttons. */
  datatype Status = Running | Measured(seconds: int) | NoStatus

  function StatusOf(s: Session): (r: Status)
    ensures r.Running? <==> s.timerStart.Some?
    ensures r.Measured? <==> s.timerStart.None? && s.totalTimeSec.Some?
    ensures r.Measured? ==> r.seconds == s.totalTimeSec.value
  {
    if s.timerStart.Some? then Running
    else if s.totalTimeSec.Some? then Measured(s.totalTimeSec.value)
    else NoStatus
  }

  /** Default of the form's time field: `st.session_state["total_time_sec"] or 0`. */
  function Prefill(s: Session): (r: int)
    ensures s.totalTimeSec.None? ==> r == 0
    ensures s.totalTimeSec.Some? ==> r == s.totalTimeSec.value
  {
    PyValues.OrZero(s.totalTimeSec)
  }

  /** Under the invariant the status line tells everything the session holds:
      a running timer shows no result, and a shown result is the one the form
      field is prefilled with. */
  lemma StatusReflectsSession(s: Session)
    requires NotBoth(s)
    ensures StatusOf(s).Running? ==> Prefill(s) == 0
    ensures StatusOf(s).Measured? ==> Prefill(s) == StatusOf(s).seconds
    ensures StatusOf(s).NoStatus? <==> s == Idle
  {
  }

  /** A measurement goes from STOP straight into the form: after START at `t0`
      and STOP at `t1 >= t0` the status shows, and the time field holds, the
      whole seconds between the two readings. */
  lemma StartStopMeasures(s: Session, t0: int, t1: int)
    requires t0 <= t1
    ensures var r := Stop(Start(s, t0), t1);
      && r.notice == StoppedNotice((t1 - t0) / 1000)
      && StatusOf(r.session) == Measured((t1 - t0) / 1000)
      && Prefill(r.session) == (t1 - t0) / 1000
  {
  }

  /** The button, if any, whose press triggered the run. */
  datatype Press = NoPress | PressStart(now: int) | PressStop(now: int)

  /** The timer section of one run, as far as the form: the session after the
      button handlers, their notice, the status line and the time field's default. */
  datatype TimerView = TimerView(session: Session, notice: Option<Notice>, status: Status, prefill: int)

  /** Initialise the keys, handle START or STOP, derive the status line, prefill
      the time field: the part of a run both scripts share, in their order. */
  function TimerSection(st: Store, p: Press): (r: TimerView)
    ensures p.NoPress? <==> r.notice.None?
    ensures p.NoPress? ==> r.session == InitKeys(st)
    ensures p.PressStart? ==> r.session == Start(InitKeys(st), p.now) && r.notice == Some(StartedNotice)
    ensures p.PressStop? ==> Stop(InitKeys(st), p.now) == Stopped(r.session, r.notice.value)
    ensures r.session == Step(InitKeys(st), PressEvent(p))
    ensures r.status == StatusOf(r.session) && r.prefill == Prefill(r.session)
    ensures NotBoth(InitKeys(st)) ==> NotBoth(r.session)
  {
    var s0 := InitKeys(st);
    var (s1, notice) :=
      match p
      case NoPress => (s0, None)
      case PressStart(now) => (Start(s0, now), Some(StartedNotice))
      case PressStop(now) =>
        var stopped := Stop(s0, now);
        (stopped.session, Some(stopped.notice));
    TimerView(s1, notice, StatusOf(s1), Prefill(s1))
  }

  /** One thing that can happen to the timer keys in a run. */
  datatype Event = StartAt(now: int) | StopAt(now: int) | ResultCleared | Untouched

  function Step(s: Session, e: Event): Session {
    match e
    case StartAt(now) => Start(s, now)
    case StopAt(now) => Stop(s, now).session
    case ResultCleared => ClearResult(s)
    case Untouched => s
  }

  /** The timer event of a button press. */
  function PressEvent(p: Press): Event {
    match p
    case NoPress => Untouched
    case PressStart(now) => StartAt(now)
    case PressStop(now) => StopAt(now)
  }

  function Run(s: Session, es: seq<Event>): Session
    decreases |es|
  {
    if |es| == 0 then s else Run(Step(s, es[0]), es[1..])
  }

  /** The clock never runs backwards across `es`, starting from `t`. */
  predicate ClockFrom(es: seq<Event>, t: int)
    decreases |es|
  {
    if |es| == 0 then true
    else match es[0]
      case StartAt(now) => t <= now && ClockFrom(es[1..], now)
      case StopAt(now) => t <= now && ClockFrom(es[1..], now)
      case _ => ClockFrom(es[1..], t)
  }

  /** What holds of a session whose last clock reading was `t`. */
  predicate Sane(s: Session, t: int) {
    && NotBoth(s)
    && (s.timerStart.Some? ==> s.timerStart.value <= t)
    && (s.totalTimeSec.Some? ==> 0 <= s.totalTimeSec.value)
  }

  /** Whatever sequence of START, STOP and submits a session goes through, it
      never holds both keys at once. */
  lemma {:induction false} RunKeepsNotBoth(s: Session, es: seq<Event>)
    requires NotBoth(s)
    ensures NotBoth(Run(s, es))
    decreases |es|
  {
    if |es| > 0 {
      RunKeepsNotBoth(Step(s, es[0]), es[1..]);
    }
  }

  /** With a clock that never runs backwards, every stored measurement is
      non-negative, on top of the invariant. */
  lemma {:induction false} RunKeepsSane(s: Session, t: int, es: seq<Event>)
    requires Sane(s, t) && ClockFrom(es, t)
    ensures NotBoth(Run(s, es))
    ensures Run(s, es).totalTimeSec.Some? ==> 0 <= Run(s, es).totalTimeSec.value
    decreases |es|
  {
    if |es| > 0 {
      match es[0]
      case StartAt(now) => RunKeepsSane(Step(s, es[0]), now, es[1..]);
      case StopAt(now) => RunKeepsSane(Step(s, es[0]), now, es[1..]);
      case _ => RunKeepsSane(Step(s, es[0]), t, es[1..]);
    }
  }
}
