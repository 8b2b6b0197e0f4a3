/**
 * The earlier copy of the script (app/app.py): the same timer and form, but a
 * submit only echoes the raw widget values on screen and always clears the
 * stored measurement; nothing is sent anywhere.
 */
module EchoApp {
  import opened Optional
  import opened PyValues
  import opened IsoDate
  import opened Timer
  import BrewLogger

  /** The dictionary shown by `st.json`: every widget value as it came. */
  datatype EchoRow = EchoRow(
    userId: string,
    brewedAt: string,
    beanName: string,
    roaster: string,
    roastLevel: string,
    brewMethod: string,
    grindSize: string,
    doseG: BrewLogger.Grams,
    waterMl: int,
    waterTempC: int,
    totalTimeSec: int,
    rating: int,
    notes: string)

  /** The echo: nothing becomes null, the sentinel stays text, and the date is
      the plain `str(date)`. */
  function Echo(f: BrewLogger.Form): (r: EchoRow)
    ensures r.userId == BrewLogger.UserId(f.user)
    ensures ParseDate(r.brewedAt) == Some(f.brewedAt)
    ensures r.roastLevel == f.roastLevel && r.brewMethod == f.brewMethod && r.grindSize == f.grindSize
    ensures r.roaster == f.roaster && r.notes == f.notes && r.beanName == f.beanName
    ensures r.waterMl == f.waterMl && r.waterTempC == f.waterTempC
    ensures r.totalTimeSec == f.totalTimeSec && r.rating == f.rating && r.doseG == f.doseG
  {
    ParseDateString(f.brewedAt);
    EchoRow(
      BrewLogger.UserId(f.user), DateString(f.brewedAt), f.beanName, f.roaster,
      f.roastLevel, f.brewMethod, f.grindSize, f.doseG,
      f.waterMl, f.waterTempC, f.totalTimeSec, f.rating, f.notes)
  }

  /** The date part of a stored timestamp text. */
  function DatePart(s: string): string {
    if |s| >= 10 then s[..10] else s
  }

  /** Reads the earlier script's echo back from the later script's row: null
      reads back as the sentinel, the empty text or zero, and the timestamp
      loses its time of day. */
  function EchoOfRow(r: BrewLogger.Row): (e: EchoRow)
    ensures e.userId == r.userId && e.beanName == r.beanName && e.doseG == r.doseG
    ensures ParseMidnightIso(r.brewedAt).Some? ==>
      e.brewedAt == DateString(ParseMidnightIso(r.brewedAt).value)
    ensures r.roastLevel.None? ==> e.roastLevel == BrewLogger.Unselected
    ensures r.brewMethod.None? ==> e.brewMethod == BrewLogger.Unselected
    ensures r.grindSize.None? ==> e.grindSize == BrewLogger.Unselected
    ensures r.roaster.None? ==> e.roaster == ""
    ensures r.notes.None? ==> e.notes == ""
    ensures r.waterMl.None? ==> e.waterMl == 0
    ensures r.waterTempC.None? ==> e.waterTempC == 0
    ensures r.totalTimeSec.None? ==> e.totalTimeSec == 0
    ensures r.rating.None? ==> e.rating == 0
    ensures r.roastLevel.Some? ==> e.roastLevel == r.roastLevel.value
    ensures r.brewMethod.Some? ==> e.brewMethod == r.brewMethod.value
    ensures r.grindSize.Some? ==> e.grindSize == r.grindSize.value
    ensures r.roaster.Some? ==> e.roaster == r.roaster.value
    ensures r.notes.Some? ==> e.notes == r.notes.value
    ensures r.waterMl.Some? ==> e.waterMl == r.waterMl.value
    ensures r.waterTempC.Some? ==> e.waterTempC == r.waterTempC.value
    ensures r.totalTimeSec.Some? ==> e.totalTimeSec == r.totalTimeSec.value
    ensures r.rating.Some? ==> e.rating == r.rating.value
  {
    var parsed := ParseMidnightIso(r.brewedAt);
    assert parsed.Some? ==> DatePart(r.brewedAt) == DateString(parsed.value) by {
      if parsed.Some? {
        MidnightIsoOfParse(r.brewedAt, parsed.value);
      }
    }
    EchoRow(
      r.userId, DatePart(r.brewedAt), r.beanName,
      OrEmpty(r.roaster),
      OrSentinel(r.roastLevel, BrewLogger.Unselected),
      OrSentinel(r.brewMethod, BrewLogger.Unselected),
      OrSentinel(r.grindSize, BrewLogger.Unselected),
      r.doseG,
      OrZero(r.waterMl), OrZero(r.waterTempC),
      OrZero(r.totalTimeSec), OrZero(r.rating),
      OrEmpty(r.notes))
  }

  /** The later script's row holds everything the earlier script echoes: the
      echo can be read back from the row. */
  lemma EchoFromPayload(f: BrewLogger.Form)
    ensures EchoOfRow(BrewLogger.Payload(f)) == Echo(f)
  {
  }

  /** The two scripts tell the same forms apart: two submits send the same row
      exactly when they echo the same values. */
  lemma {:induction false} SameRowIffSameEcho(f: BrewLogger.Form, g: BrewLogger.Form)
    ensures BrewLogger.Payload(f) == BrewLogger.Payload(g) <==> Echo(f) == Echo(g)
  {
    EchoFromPayload(f);
    EchoFromPayload(g);
    if Echo(f) == Echo(g) {
      ParseDateString(f.brewedAt);
      ParseDateString(g.brewedAt);
      assert f.brewedAt == g.brewedAt;
    }
  }

  /** Where the scripts differ: on the "not selected" entry, a blank roaster or a
      zero time, the echo shows the raw value where the row holds null. */
  lemma EchoKeepsWhatPayloadNulls(f: BrewLogger.Form)
    requires f.roastLevel == BrewLogger.Unselected && f.roaster == "" && f.totalTimeSec == 0
    ensures Echo(f).roastLevel == BrewLogger.Unselected && BrewLogger.Payload(f).roastLevel.None?
    ensures Echo(f).roaster == "" && BrewLogger.Payload(f).roaster.None?
    ensures Echo(f).totalTimeSec == 0 && BrewLogger.Payload(f).totalTimeSec.None?
  {
  }

  datatype Echoed = Echoed(session: Session, shown: EchoRow)

  /** The submit handler: show the echo, then clear the stored measurement,
      always, leaving the start time as it was. */
  function SubmitEcho(s: Session, f: BrewLogger.Form): (r: Echoed)
    ensures r.shown == Echo(f)
    ensures r.session.timerStart == s.timerStart && r.session.totalTimeSec.None?
  {
    Echoed(ClearResult(s), Echo(f))
  }

  datatype Interaction = Button(press: Press) | SubmitForm(form: BrewLogger.Form)

  datatype Screen = Screen(timer: TimerView, shown: Option<EchoRow>)

  datatype CycleResult = CycleResult(session: Session, screen: Screen)

  /** Every submit clears the measurement. */
  function EventOf(i: Interaction): Event {
    match i
    case Button(p) => PressEvent(p)
    case SubmitForm(_) => ResultCleared
  }

  /** One run of the script: the shared timer section, then the echo. */
  function Cycle(st: Store, i: Interaction): (r: CycleResult)
    ensures r.session == Step(InitKeys(st), EventOf(i))
    ensures i.Button? ==> r.screen.timer == TimerSection(st, i.press)
    ensures i.SubmitForm? ==> r.screen.timer == TimerSection(st, NoPress)
    ensures i.SubmitForm? <==> r.screen.shown.Some?
    ensures i.SubmitForm? ==>
      && r.screen.timer.status == StatusOf(InitKeys(st))
      && r.screen.shown == Some(Echo(i.form))
      && r.session.totalTimeSec.None?
  {
    match i
    case Button(p) =>
      var view := TimerSection(st, p);
      CycleResult(view.session, Screen(view, None))
    case SubmitForm(f) =>
      var view := TimerSection(st, NoPress);
      var sub := SubmitEcho(view.session, f);
      CycleResult(sub.session, Screen(view, Some(sub.shown)))
  }

  /** A run of the earlier script keeps the timer invariant and is one timer
      step; `CyclesKeepNotBoth` carries this over a whole sequence of runs. */
  lemma CycleKeepsNotBoth(st: Store, i: Interaction)
    requires NotBoth(InitKeys(st))
    ensures NotBoth(Cycle(st, i).session)
    ensures Cycle(st, i).session == Run(InitKeys(st), [EventOf(i)])
  {
  }

  /** The sessions a sequence of the earlier script's runs goes through, each
      starting from what the previous one stored. */
  function Cycles(s: Session, runs: seq<Interaction>): Session
    decreases |runs|
  {
    if |runs| == 0 then s else Cycles(Cycle(Stored(s), runs[0]).session, runs[1..])
  }

  /** Run by run, the invariant carries over a whole sequence of runs. */
  lemma {:induction false} CyclesKeepNotBoth(s: Session, runs: seq<Interaction>)
    requires NotBoth(s)
    ensures NotBoth(Cycles(s, runs))
    decreases |runs|
  {
    if |runs| > 0 {
      InitKeysRerun(s);
      CycleKeepsNotBoth(Stored(s), runs[0]);
      CyclesKeepNotBoth(Cycle(Stored(s), runs[0]).session, runs[1..]);
    }
  }

  /** From a fresh browser session the earlier script never holds both keys. */
  lemma CyclesNeverBoth(runs: seq<Interaction>)
    ensures NotBoth(Cycles(InitKeys(FreshStore), runs))
  {
    InitKeysRerun(Idle);
    CyclesKeepNotBoth(Idle, runs);
  }
}
