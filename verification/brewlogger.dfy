/**
 * The logging script proper (app/streamlit_app.py): the brew form's values,
 * the row it sends to the `brews` table, and what the insert's outcome does
 * to the timer. The insert itself is a boolean parameter: succeeded or raised.
 */
module BrewLogger {
  import opened Optional
  import opened PyValues
  import opened IsoDate
  import opened Timer

  /** The "not selected" entry that heads each select box. */
  const Unselected: string := "未選択"

  const RoastLevels: seq<string> := [Unselected, "浅煎り", "中煎り", "中深煎り", "深煎り"]
  const Methods: seq<string> :=
    [Unselected, "V60ドリッパー", "カリタウェーブ", "フレンチプレス", "エアロプレス", "エスプレッソ", "その他"]
  const GrindSizes: seq<string> := [Unselected, "極細挽き", "細挽き", "中細挽き", "中挽き", "中粗挽き", "粗挽き"]

  /** The two entries of the "who is brewing" radio: myself, a friend. */
  const Myself: string := "自分"
  const Friend: string := "友人"

  /** `dose_g`, a float the scripts never compute with: carried as an opaque
      fixed-point value. */
  datatype Grams = Grams(thousandths: int)

  /** The values the widgets hand back on a submit. */
  datatype Form = Form(
    user: string,
    brewedAt: PyDate,
    beanName: string,
    roaster: string,
    roastLevel: string,
    brewMethod: string,
    grindSize: string,
    doseG: Grams,
    waterMl: int,
    waterTempC: int,
    totalTimeSec: int,
    rating: int,
    notes: string)

  /** What the widgets themselves guarantee: a choice from each list and each
      number inside its input's bounds. */
  predicate FromWidgets(f: Form) {
    && f.user in [Myself, Friend]
    && f.roastLevel in RoastLevels
    && f.brewMethod in Methods
    && f.grindSize in GrindSizes
    && 0 <= f.doseG.thousandths <= 50000
    && 0 <= f.waterMl <= 1000
    && 70 <= f.waterTempC <= 100
    && 0 <= f.totalTimeSec <= 1200
    && 1 <= f.rating <= 5
  }

  /** `"me" if user == "自分" else "friend"`. */
  function UserId(user: string): (id: string)
    ensures id == "me" <==> user == Myself
    ensures id == "me" || id == "friend"
  {
    if user == Myself then "me" else "friend"
  }

  /** The row handed to the `brews` table. */
  datatype Row = Row(
    userId: string,
    brewedAt: string,
    beanName: string,
    roaster: Option<string>,
    roastLevel: Option<string>,
    brewMethod: Option<string>,
    grindSize: Option<string>,
    doseG: Grams,
    waterMl: Option<int>,
    waterTempC: Option<int>,
    totalTimeSec: Option<int>,
    rating: Option<int>,
    notes: Option<string>)

  /** A row in which no field holds the value that stands for null: no empty
      text, no sentinel, no zero, and a user id the radio can produce. */
  predicate Canonical(r: Row) {
    && (r.userId == "me" || r.userId == "friend")
    && r.roaster != Some("") && r.notes != Some("")
    && r.roastLevel != Some(Unselected)
    && r.brewMethod != Some(Unselected)
    && r.grindSize != Some(Unselected)
    && r.waterMl != Some(0) && r.waterTempC != Some(0)
    && r.totalTimeSec != Some(0) && r.rating != Some(0)
  }

  /** The payload dictionary: sentinel choices, blank text and zero numbers
      become null, the dose passes through, and the date is sent as its
      midnight timestamp. */
  function Payload(f: Form): (r: Row)
    ensures r.userId == UserId(f.user)
    ensures ParseMidnightIso(r.brewedAt) == Some(f.brewedAt)
    ensures r.beanName == f.beanName && r.doseG == f.doseG
    ensures r.roastLevel.None? <==> f.roastLevel == Unselected
    ensures r.brewMethod.None? <==> f.brewMethod == Unselected
    ensures r.grindSize.None? <==> f.grindSize == Unselected
    ensures r.roaster.None? <==> f.roaster == ""
    ensures r.notes.None? <==> f.notes == ""
    ensures r.waterMl.None? <==> f.waterMl == 0
    ensures r.waterTempC.None? <==> f.waterTempC == 0
    ensures r.totalTimeSec.None? <==> f.totalTimeSec == 0
    ensures r.rating.None? <==> f.rating == 0
    ensures f.roastLevel != Unselected ==> r.roastLevel == Some(f.roastLevel)
    ensures f.brewMethod != Unselected ==> r.brewMethod == Some(f.brewMethod)
    ensures f.grindSize != Unselected ==> r.grindSize == Some(f.grindSize)
    ensures f.roaster != "" ==> r.roaster == Some(f.roaster)
    ensures f.notes != "" ==> r.notes == Some(f.notes)
    ensures f.waterMl != 0 ==> r.waterMl == Some(f.waterMl)
    ensures f.waterTempC != 0 ==> r.waterTempC == Some(f.waterTempC)
    ensures f.totalTimeSec != 0 ==> r.totalTimeSec == Some(f.totalTimeSec)
    ensures f.rating != 0 ==> r.rating == Some(f.rating)
    ensures Canonical(r)
  {
    ParseMidnightIsoRoundTrip(f.brewedAt);
    Row(
      UserId(f.user),
      MidnightIso(f.brewedAt),
      f.beanName,
      StrOrNone(f.roaster),
      NoneIf(f.roastLevel, Unselected),
      NoneIf(f.brewMethod, Unselected),
      NoneIf(f.grindSize, Unselected),
      f.doseG,
      IntOrNone(f.waterMl),
      IntOrNone(f.waterTempC),
      IntOrNone(f.totalTimeSec),
      IntOrNone(f.rating),
      StrOrNone(f.notes))
  }

  /** The radio entry a user id came from. */
  function UserOf(id: string): (r: Option<string>)
    ensures r.Some? ==> UserId(r.value) == id
  {
    if id == "me" then Some(Myself)
    else if id == "friend" then Some(Friend)
    else None
  }

  /** Reads a stored row back into the form values it was built from: null
      reads back as the sentinel, the empty text or zero. */
  function Recover(r: Row): (f: Option<Form>)
    ensures f.Some? ==> MidnightIso(f.value.brewedAt) == r.brewedAt
  {
    match (ParseMidnightIso(r.brewedAt), UserOf(r.userId))
    case (Some(d), Some(user)) =>
      MidnightIsoOfParse(r.brewedAt, d);
      Some(Form(
        user,
        d,
        r.beanName,
        OrEmpty(r.roaster),
        OrSentinel(r.roastLevel, Unselected),
        OrSentinel(r.brewMethod, Unselected),
        OrSentinel(r.grindSize, Unselected),
        r.doseG,
        OrZero(r.waterMl),
        OrZero(r.waterTempC),
        OrZero(r.totalTimeSec),
        OrZero(r.rating),
        OrEmpty(r.notes)))
    case _ => None
  }

  /** The payload loses nothing: the form it came from can be read back from it. */
  lemma PayloadRoundTrip(f: Form)
    requires f.user == Myself || f.user == Friend
    ensures Recover(Payload(f)) == Some(f)
  {
  }

  /** ... and the canonical rows are exactly the payloads: any canonical row that
      reads back as a form is that form's payload. */
  lemma PayloadOfRecover(r: Row, f: Form)
    requires Canonical(r) && Recover(r) == Some(f)
    ensures Payload(f) == r
  {
  }

  /** Within the widgets' bounds temperature and rating are always sent, while a
      measured time of 0 seconds is sent as null, not as 0. */
  lemma WidgetValuesSent(f: Form)
    requires FromWidgets(f)
    ensures Payload(f).waterTempC == Some(f.waterTempC)
    ensures Payload(f).rating == Some(f.rating)
    ensures f.totalTimeSec == 0 ==> Payload(f).totalTimeSec.None?
  {
  }

  /** The insert's outcome as the user sees it. */
  datatype Outcome = Saved | SaveFailed

  datatype Submitted = Submitted(session: Session, sent: Row, outcome: Outcome)

  /** The submit handler: build the payload, attempt the insert, and on success
      clear the stored measurement. A failed insert changes no session state. */
  function Submit(s: Session, f: Form, insertOk: bool): (r: Submitted)
    ensures r.sent == Payload(f)
    ensures insertOk <==> r.outcome.Saved?
    ensures insertOk ==> r.session.timerStart == s.timerStart && r.session.totalTimeSec.None?
    ensures !insertOk ==> r.session == s
  {
    var row := Payload(f);
    if insertOk then Submitted(ClearResult(s), row, Saved)
    else Submitted(s, row, SaveFailed)
  }

  /** What triggered a run of the script. */
  datatype Interaction = Button(press: Press) | SubmitForm(form: Form, insertOk: bool)

  /** What one run shows and sends. */
  datatype Screen = Screen(timer: TimerView, sent: Option<Row>, outcome: Option<Outcome>)

  datatype CycleResult = CycleResult(session: Session, screen: Screen)

  /** The timer event a run amounts to: a successful insert clears the result,
      a failed one leaves the keys alone. */
  function EventOf(i: Interaction): Event {
    match i
    case Button(p) => PressEvent(p)
    case SubmitForm(_, ok) => if ok then ResultCleared else Untouched
  }

  /** One run of the script, top to bottom: the timer section, then the submit
      handler. The status line and the time field are drawn before the submit
      handler runs, so a successful submit still shows the old measurement
      until the next run. */
  function Cycle(st: Store, i: Interaction): (r: CycleResult)
    ensures r.session == Step(InitKeys(st), EventOf(i))
    ensures i.Button? ==> r.screen.timer == TimerSection(st, i.press)
    ensures i.SubmitForm? ==> r.screen.timer == TimerSection(st, NoPress)
    ensures i.SubmitForm? <==> r.screen.sent.Some?
    ensures i.Button? ==> r.screen.outcome.None?
    ensures i.SubmitForm? ==>
      && r.screen.timer.status == StatusOf(InitKeys(st))
      && r.screen.sent == Some(Payload(i.form))
      && (i.insertOk <==> r.screen.outcome == Some(Saved))
  {
    match i
    case Button(p) =>
      var view := TimerSection(st, p);
      CycleResult(view.session, Screen(view, None, None))
    case SubmitForm(f, ok) =>
      var view := TimerSection(st, NoPress);
      var sub := Submit(view.session, f, ok);
      CycleResult(sub.session, Screen(view, Some(sub.sent), Some(sub.outcome)))
  }

  /** The sessions a sequence of runs goes through, each starting from what the
      previous one stored. */
  function Cycles(s: Session, runs: seq<Interaction>): Session
    decreases |runs|
  {
    if |runs| == 0 then s else Cycles(Cycle(Stored(s), runs[0]).session, runs[1..])
  }

  function Events(runs: seq<Interaction>): (es: seq<Event>)
    ensures |es| == |runs|
    ensures forall k :: 0 <= k < |runs| ==> es[k] == EventOf(runs[k])
  {
    if |runs| == 0 then [] else [EventOf(runs[0])] + Events(runs[1..])
  }

  /** A sequence of runs is the timer machine run on the runs' events. */
  lemma {:induction false} CyclesAreTimerRun(s: Session, runs: seq<Interaction>)
    ensures Cycles(s, runs) == Run(s, Events(runs))
    decreases |runs|
  {
    if |runs| > 0 {
      InitKeysRerun(s);
      CyclesAreTimerRun(Cycle(Stored(s), runs[0]).session, runs[1..]);
      assert Events(runs)[1..] == Events(runs[1..]);
    }
  }

  /** From a fresh browser session, no sequence of runs ever holds a running
      start time and a finished measurement together. */
  lemma CyclesNeverBoth(runs: seq<Interaction>)
    ensures NotBoth(Cycles(InitKeys(FreshStore), runs))
  {
    InitKeysRerun(Idle);
    CyclesAreTimerRun(Idle, runs);
    RunKeepsNotBoth(Idle, Events(runs));
  }

  /** A START at `t`, a STOP 47.5 seconds later, then a submit of the prefilled
      time with a successful insert: the status reads 47 seconds, the row carries
      47, and the measurement is then cleared while the timer stays stopped. */
  lemma StopThenSubmitScenario(st: Store, t: int, f: Form)
    requires f.totalTimeSec == 47
    ensures
      var started := Cycle(st, Button(PressStart(t))).session;
      var stopped := Cycle(Stored(started), Button(PressStop(t + 47500)));
      var submitted := Cycle(Stored(stopped.session), SubmitForm(f, true));
      && stopped.screen.timer.status == Measured(47)
      && stopped.screen.timer.prefill == 47
      && submitted.screen.sent.value.totalTimeSec == Some(47)
      && submitted.session == Idle
  {
  }

  /** A raised insert leaves the session exactly as it was, so the same submit
      can be retried. */
  lemma FailedInsertKeepsSession(s: Session, f: Form)
    ensures Cycle(Stored(s), SubmitForm(f, false)).session == s
    ensures Cycle(Stored(s), SubmitForm(f, false)).screen.outcome == Some(SaveFailed)
  {
  }
}
