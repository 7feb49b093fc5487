/**
 * The decision logic of one login attempt and one reservation attempt. The
 * browser is abstracted: each element lookup is given as found or not found,
 * the race between "final button clickable" and "no available times" is given
 * as timed out or not, and the button's `disabled` attribute is given as a
 * possibly absent string. What the attempt does with the browser is recorded
 * as a trace of actions, in order.
 */
module Attempts {
  import opened Wrappers
  import opened DateSplit
  import opened BotTypes

  /** The page elements the bot locates, one per selector it uses. */
  datatype Element =
    | LoginButton | EmailInput | PasswordInput | UserName
    | MonthInput | DayInput | YearInput | FinalButton

  /** What is typed into an element: text, or the RETURN or TAB key. */
  datatype Keys = Text(text: string) | Return | Tab

  /** One interaction with the browser, the console or the clock. */
  datatype Action =
    | Navigate(url: string)
    | Await(element: Element)           // wait_for_element on the element's selector
    | Click(element: Element)
    | SendKeys(element: Element, keys: Keys)
    | AwaitFinalOrNoTimes               // the any_of wait on the final button and the no-times message
    | ReadDisabled                      // reading the final button's `disabled` attribute
    | Prompt                            // the console prompt of the purchasing phase
    | Pause(seconds: nat)               // time.sleep
    | ReportState(phase: RecBotState)   // run's "Current state" line

  /** The result of one wait_for_element: the element, or None. */
  datatype Lookup = Found | NotFound

  /** The exceptions an attempt raises. */
  datatype Failure =
    | LoginButtonMissing                // "Failed to find login button"
    | CredentialInputsMissing           // "Failed to find email or password input fields"
    | UserNameMissing                   // "Failed to find user name element"
    | DateUnpack(pieces: nat)           // unpacking the date split into three names fails
    | DateInputsMissing                 // "Failed to find date inputs"
    | FinalButtonMissing                // "Failed to find final button"
    | PromptClosed                      // the console prompt hits end of input

  /** A call either returns a value or raises. */
  datatype Outcome<T> = Returned(value: T) | Raised(failure: Failure)

  /** What an attempt returned or raised, and what it did on the way. */
  datatype Attempt = Attempt(outcome: Outcome<bool>, trace: seq<Action>)

  /** What the browser reports during one login attempt. */
  datatype LoginPage = LoginPage(loginButton: Lookup, emailInput: Lookup, passwordInput: Lookup, userName: Lookup)

  /** What the browser reports during one reservation attempt. */
  datatype ReservePage = ReservePage(
    monthInput: Lookup, dayInput: Lookup, yearInput: Lookup, finalButton: Lookup,
    anyOfTimedOut: bool, disabled: Option<string>)

  /** The sleep between submitting the credentials and looking for the user name. */
  const SubmitPause: nat := 2

  /** The actions of a login attempt up to and including the first lookup. */
  function LoginOpening(options: RecBotOptions): seq<Action>
  {
    [Navigate(options.url), Await(LoginButton)]
  }

  /**
   * RecGovBot.login: navigate, click the login button, type the credentials
   * and submit, then look for the user-name marker. Every missing element
   * raises; the only value ever returned is true.
   */
  function Login(options: RecBotOptions, page: LoginPage): (r: Attempt)
    ensures r.outcome != Returned(false)
    ensures r.outcome == Returned(true) <==>
      page.loginButton .Found? && page.emailInput .Found? &&
      page.passwordInput .Found? && page.userName .Found?
    ensures r.outcome == Raised(LoginButtonMissing) <==> page.loginButton .NotFound?
    ensures r.outcome == Raised(CredentialInputsMissing) <==>
      page.loginButton .Found? && (page.emailInput .NotFound? || page.passwordInput .NotFound?)
    ensures r.outcome == Raised(UserNameMissing) <==>
      page.loginButton .Found? && page.emailInput .Found? &&
      page.passwordInput .Found? && page.userName .NotFound?
    ensures r.outcome.Raised? ==> r.outcome.failure in {LoginButtonMissing, CredentialInputsMissing, UserNameMissing}
    // every attempt starts over from the request's page
    ensures |r.trace| >= 2 && r.trace[..2] == LoginOpening(options)
    // the login button is clicked exactly when it was found
    ensures Click(LoginButton) in r.trace <==> page.loginButton .Found?
    // the credentials are typed only once both fields were found
    ensures SendKeys(EmailInput, Text(options.email)) in r.trace <==>
      page.loginButton .Found? && page.emailInput .Found? && page.passwordInput .Found?
    ensures SendKeys(PasswordInput, Text(options.password)) in r.trace <==>
      page.loginButton .Found? && page.emailInput .Found? && page.passwordInput .Found?
  {
    var opening := LoginOpening(options);
    if page.loginButton .NotFound? then
      Attempt(Raised(LoginButtonMissing), opening)
    else
      var fields := opening + [Click(LoginButton), Await(EmailInput), Await(PasswordInput)];
      if page.emailInput .NotFound? || page.passwordInput .NotFound? then
        Attempt(Raised(CredentialInputsMissing), fields)
      else
        var submitted := fields + [
          SendKeys(EmailInput, Text(options.email)),
          SendKeys(PasswordInput, Text(options.password)),
          SendKeys(PasswordInput, Return),
          Pause(SubmitPause),
          Await(UserName)];
        if page.userName .NotFound? then
          Attempt(Raised(UserNameMissing), submitted)
        else
          Attempt(Returned(true), submitted)
  }

  /** True when the date unpacks and all three date inputs were found. */
  predicate DateEntered(options: RecBotOptions, page: ReservePage)
  {
    ParseDate(options.date).Some? &&
    page.monthInput .Found? && page.dayInput .Found? && page.yearInput .Found?
  }

  /** The lookups of the three date inputs. */
  const DateLookups: seq<Action> := [Await(MonthInput), Await(DayInput), Await(YearInput)]

  /** The typing of the three date parts, then a TAB through each input. */
  function DateKeys(d: DateParts): seq<Action>
  {
    [SendKeys(MonthInput, Text(d.month)), SendKeys(DayInput, Text(d.day)), SendKeys(YearInput, Text(d.year)),
     SendKeys(MonthInput, Tab), SendKeys(DayInput, Tab), SendKeys(YearInput, Tab)]
  }

  /**
   * RecGovBot.reserve: unpack the date, type it into the three date inputs,
   * find the final button, race "clickable" against "no available times",
   * and click the button unless the race timed out or the button is disabled.
   */
  function Reserve(options: RecBotOptions, page: ReservePage): (r: Attempt)
    // success exactly when nothing was missing, the race resolved and the button is not disabled
    ensures r.outcome == Returned(true) <==>
      DateEntered(options, page) && page.finalButton .Found? &&
      !page.anyOfTimedOut && page.disabled != Some("true")
    // missing pieces raise rather than return false
    ensures r.outcome.Raised? <==> !DateEntered(options, page) || page.finalButton .NotFound?
    ensures r.outcome.Raised? && ParseDate(options.date).None? ==>
      r.outcome.failure == DateUnpack(|Split(options.date)|) && r.trace == []
    // which exception is raised, in the order of the code
    ensures r.outcome == Raised(DateInputsMissing) <==>
      ParseDate(options.date).Some? && !(page.monthInput.Found? && page.dayInput.Found? && page.yearInput.Found?)
    ensures r.outcome == Raised(FinalButtonMissing) <==> DateEntered(options, page) && page.finalButton.NotFound?
    // false is returned exactly on a timed-out race or a disabled button
    ensures r.outcome == Returned(false) <==>
      DateEntered(options, page) && page.finalButton .Found? &&
      (page.anyOfTimedOut || page.disabled == Some("true"))
    // the button is clicked only on the success path, and the attribute read only after the race resolved
    ensures Click(FinalButton) in r.trace <==> r.outcome == Returned(true)
    ensures ReadDisabled in r.trace <==>
      DateEntered(options, page) && page.finalButton .Found? && !page.anyOfTimedOut
  {
    match ParseDate(options.date)
    case None =>
      Attempt(Raised(DateUnpack(|Split(options.date)|)), [])
    case Some(d) =>
      var lookups := DateLookups;
      if !(page.monthInput .Found? && page.dayInput .Found? && page.yearInput .Found?) then
        Attempt(Raised(DateInputsMissing), lookups)
      else
        var entered := lookups + DateKeys(d) + [Await(FinalButton)];
        if page.finalButton .NotFound? then
          Attempt(Raised(FinalButtonMissing), entered)
        else
          var raced := entered + [AwaitFinalOrNoTimes];
          if page.anyOfTimedOut then
            Attempt(Returned(false), raced)
          else
            var read := raced + [ReadDisabled];
            if page.disabled == Some("true") then
              Attempt(Returned(false), read)
            else
              Attempt(Returned(true), read + [Click(FinalButton)])
  }

  /** The text typed into `e` during a trace, in order. */
  function TypedInto(trace: seq<Action>, e: Element): seq<string>
  {
    if |trace| == 0 then []
    else
      (if trace[0].SendKeys? && trace[0].element == e && trace[0].keys.Text? then [trace[0].keys.text] else [])
      + TypedInto(trace[1..], e)
  }

  lemma {:induction false} TypedIntoAppend(a: seq<Action>, b: seq<Action>, e: Element)
    ensures TypedInto(a + b, e) == TypedInto(a, e) + TypedInto(b, e)
  {
    if |a| == 0 {
      assert a + b == b;
    } else {
      assert (a + b)[0] == a[0];
      assert (a + b)[1..] == a[1..] + b;
      TypedIntoAppend(a[1..], b, e);
    }
  }

  /**
   * Once the date inputs are filled, month, day and year each received
   * exactly one text: the three parts of the configured date in order, none
   * containing '/', and joining them with '/' gives back the configured date.
   */
  lemma ReserveTypesDate(options: RecBotOptions, page: ReservePage)
    requires DateEntered(options, page)
    ensures var r := Reserve(options, page);
      var m, d, y := TypedInto(r.trace, MonthInput), TypedInto(r.trace, DayInput), TypedInto(r.trace, YearInput);
      |m| == 1 && |d| == 1 && |y| == 1 &&
      m[0] + "/" + d[0] + "/" + y[0] == options.date &&
      '/' !in m[0] && '/' !in d[0] && '/' !in y[0]
  {
    var parts := ParseDate(options.date).value;
    ParseDateRoundTrip(options.date);
    var r := Reserve(options, page);
    ReserveTraceShape(options, page);
    var keys := DateKeys(parts);
    var rest := r.trace[|DateLookups| + |keys|..];
    assert r.trace == DateLookups + keys + rest;
    TypedDateInto(keys, rest, MonthInput);
    TypedDateInto(keys, rest, DayInput);
    TypedDateInto(keys, rest, YearInput);
    DateKeysTyped(parts);
  }

  /** With the date inputs found, the date is typed right after the lookups and nothing is typed later. */
  lemma ReserveTraceShape(options: RecBotOptions, page: ReservePage)
    requires DateEntered(options, page)
    ensures var r := Reserve(options, page);
      |r.trace| >= 9 && r.trace[..9] == DateLookups + DateKeys(ParseDate(options.date).value) &&
      forall i :: 9 <= i < |r.trace| ==> !r.trace[i].SendKeys?
  {
  }

  /** The final button is looked up exactly when the date was entered first. */
  lemma FinalButtonAfterDate(options: RecBotOptions, page: ReservePage)
    ensures Await(FinalButton) in Reserve(options, page).trace <==> DateEntered(options, page)
  {
  }

  lemma TypedDateInto(keys: seq<Action>, rest: seq<Action>, e: Element)
    requires forall i :: 0 <= i < |rest| ==> !rest[i].SendKeys?
    ensures TypedInto(DateLookups + keys + rest, e) == TypedInto(keys, e)
  {
    TypedIntoAppend(DateLookups + keys, rest, e);
    TypedIntoAppend(DateLookups, keys, e);
    NoTyping(rest, e);
    NoTyping(DateLookups, e);
  }

  /** Each date input receives its own part of the date and nothing else. */
  lemma DateKeysTyped(d: DateParts)
    ensures TypedInto(DateKeys(d), MonthInput) == [d.month]
    ensures TypedInto(DateKeys(d), DayInput) == [d.day]
    ensures TypedInto(DateKeys(d), YearInput) == [d.year]
  {
    var k := DateKeys(d);
    var tabs := k[3..];
    assert k == [k[0]] + [k[1]] + [k[2]] + tabs;
    forall e: Element
      ensures TypedInto(k, e) == TypedInto([k[0]], e) + TypedInto([k[1]], e) + TypedInto([k[2]], e)
    {
      TypedIntoAppend([k[0]] + [k[1]] + [k[2]], tabs, e);
      TypedIntoAppend([k[0]] + [k[1]], [k[2]], e);
      TypedIntoAppend([k[0]], [k[1]], e);
      NoTyping(tabs, e);
    }
    forall i, e: Element | 0 <= i < 3
      ensures TypedInto([k[i]], e) == if e == k[i].element then [k[i].keys.text] else []
    {
      assert [k[i]][1..] == [];
    }
  }

  lemma {:induction false} NoTyping(trace: seq<Action>, e: Element)
    requires forall i :: 0 <= i < |trace| ==> !(trace[i].SendKeys? && trace[i].keys.Text?)
    ensures TypedInto(trace, e) == []
  {
    if |trace| > 0 {
      NoTyping(trace[1..], e);
    }
  }
}
