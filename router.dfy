/** Which handler an incoming update reaches, given the conversation's FSM state. */
module Router {
  import opened Replies

  /** The conversation's FSM state: no state, or one of UserState.age/growth/weight. */
  datatype State = Idle | Age | Growth | Weight

  /** An incoming update: a text message or an inline-button callback with its data. */
  datatype Event = Message(text: string) | Callback(data: string)

  datatype Handler =
    | Start | MainMenu | GetFormulas | SetAge | SetGrowth | SetWeight | SendCalories
    | GetBuyingList | SendConfirm | AllMessages
    | Unhandled  // no registered handler accepts the update: it is dropped

  predicate IsSpace(c: char) { c == ' ' || c == '\n' || c == '\t' || c == '\r' }

  /** The commands=['start'] filter: the first word of the text is "/start". It never
      accepts a button caption, so its place among the text filters does not matter. */
  predicate IsStartCommand(text: string): (b: bool)
    ensures b ==> text != CalculateButton && text != InfoButton && text != BuyButton
  {
    if |text| >= 6 && text[..6] == "/start" && (|text| == 6 || IsSpace(text[6])) then
      assert text[0] == '/';
      assert CalculateButton[0] == 'Р' && InfoButton[0] == 'И' && BuyButton[0] == 'К';
      true
    else false
  }

  /** The handler of each dialog state (the handlers registered with state=UserState.*). */
  function StepHandler(s: State): (h: Handler)
    requires s != Idle
    ensures h in {SetGrowth, SetWeight, SendCalories}
    ensures Rule(AnyText, s, h) in Registrations
  {
    match s
    case Age => SetGrowth
    case Growth => SetWeight
    case Weight => SendCalories
  }

  /** The routing decision. A handler registered without state= only fires in Idle,
      so during a dialog every text goes to the step handler and every callback is dropped. */
  function Route(s: State, e: Event): (h: Handler)
    ensures h in {SetGrowth, SetWeight, SendCalories} <==> s != Idle && e.Message?
    ensures h == Unhandled <==>
              e.Callback? && (s != Idle || e.data !in {FormulasData, CaloriesData, BuyingData})
    ensures h == SetAge <==> s == Idle && e == Callback(CaloriesData)
    ensures h == AllMessages ==>
              s == Idle && e.Message? && !IsStartCommand(e.text) && e.text != CalculateButton && e.text != BuyButton
  {
    if s != Idle then
      if e.Message? then StepHandler(s) else Unhandled
    else match e
      case Message(t) =>
        if IsStartCommand(t) then Start
        else if t == CalculateButton then MainMenu
        else if t == BuyButton then GetBuyingList
        else AllMessages
      case Callback(d) =>
        if d == FormulasData then GetFormulas
        else if d == CaloriesData then SetAge
        else if d == BuyingData then SendConfirm
        else Unhandled
  }

  /** The filters the handlers are registered with. */
  datatype Filter = StartCommand | TextIs(text: string) | DataIs(data: string) | AnyText

  /** A registration: a filter, the FSM state it requires, and the handler. */
  datatype Rule = Rule(filter: Filter, state: State, handler: Handler)

  predicate Fires(r: Rule, s: State, e: Event) {
    r.state == s &&
    match r.filter
    case StartCommand => e.Message? && IsStartCommand(e.text)
    case TextIs(t) => e.Message? && e.text == t
    case DataIs(d) => e.Callback? && e.data == d
    case AnyText => e.Message?
  }

  /** The handlers in the order the module registers them. */
  const Registrations: seq<Rule> := [
    Rule(StartCommand, Idle, Start),
    Rule(TextIs(CalculateButton), Idle, MainMenu),
    Rule(DataIs(FormulasData), Idle, GetFormulas),
    Rule(DataIs(CaloriesData), Idle, SetAge),
    Rule(AnyText, Age, SetGrowth),
    Rule(AnyText, Growth, SetWeight),
    Rule(AnyText, Weight, SendCalories),
    Rule(TextIs(BuyButton), Idle, GetBuyingList),
    Rule(DataIs(BuyingData), Idle, SendConfirm),
    Rule(AnyText, Idle, AllMessages)
  ]

  /** Only the three any-text registrations name a dialog state, one per state, each with
      that state's step handler; every other registration fires only with no state. */
  lemma DialogRegistrations()
    ensures |Registrations| == 10
    ensures forall i :: 0 <= i < |Registrations| && Registrations[i].state != Idle ==>
              Registrations[i] == Rule(AnyText, Registrations[i].state, StepHandler(Registrations[i].state))
    ensures forall s :: s != Idle ==> Rule(AnyText, s, StepHandler(s)) in Registrations
  {
  }

  /** The dispatcher's way of choosing: the first registration whose filters pass. */
  function FirstMatch(rules: seq<Rule>, s: State, e: Event): (h: Handler)
    ensures h == Unhandled || exists i :: 0 <= i < |rules| && Fires(rules[i], s, e) && rules[i].handler == h
    ensures (forall i :: 0 <= i < |rules| ==> !Fires(rules[i], s, e)) ==> h == Unhandled
  {
    if rules == [] then Unhandled
    else if Fires(rules[0], s, e) then rules[0].handler
    else
      var h := FirstMatch(rules[1..], s, e);
      assert forall i :: 1 <= i < |rules| ==> rules[i] == rules[1..][i - 1];
      h
  }

  /** The first rule that fires decides: all before it are skipped. */
  lemma {:induction false} FirstFiringDecides(rules: seq<Rule>, k: nat, s: State, e: Event)
    requires k <= |rules|
    requires forall j :: 0 <= j < k ==> !Fires(rules[j], s, e)
    requires k < |rules| ==> Fires(rules[k], s, e)
    ensures FirstMatch(rules, s, e) == if k < |rules| then rules[k].handler else Unhandled
  {
    if k > 0 {
      FirstFiringDecides(rules[1..], k - 1, s, e);
    }
  }

  /** The index of the registration that handles an update (|Registrations| if none). */
  function Deciding(s: State, e: Event): (k: nat)
    ensures k <= |Registrations|
  {
    match e
    case Message(t) =>
      if s == Age then 4 else if s == Growth then 5 else if s == Weight then 6
      else if IsStartCommand(t) then 0 else if t == CalculateButton then 1
      else if t == BuyButton then 7 else 9
    case Callback(d) =>
      if s != Idle then 10
      else if d == FormulasData then 2 else if d == CaloriesData then 3
      else if d == BuyingData then 8 else 10
  }

  lemma RouteMessageIsFirstRegistration(s: State, t: string)
    ensures Route(s, Message(t)) == FirstMatch(Registrations, s, Message(t))
  {
    var rs, e := Registrations, Message(t);
    var k := Deciding(s, e);
    if s != Idle {
      assert !Fires(rs[0], s, e) && !Fires(rs[1], s, e) && !Fires(rs[2], s, e) && !Fires(rs[3], s, e);
      assert !Fires(rs[4], s, e) || k == 4;
      assert !Fires(rs[5], s, e) || k <= 5;
    } else {
      assert forall j :: 2 <= j < 7 ==> !Fires(rs[j], s, e);
      assert !Fires(rs[8], s, e);
    }
    FirstFiringDecides(rs, k, s, e);
  }

  lemma RouteCallbackIsFirstRegistration(s: State, d: string)
    ensures Route(s, Callback(d)) == FirstMatch(Registrations, s, Callback(d))
  {
    var rs, e := Registrations, Callback(d);
    assert forall j :: 0 <= j < 10 && j != 2 && j != 3 && j != 8 ==> !Fires(rs[j], s, e);
    FirstFiringDecides(rs, Deciding(s, e), s, e);
  }

  /** The routing decision is the first-match search over the registrations in order. */
  lemma RouteIsFirstRegistration(s: State, e: Event)
    ensures Route(s, e) == FirstMatch(Registrations, s, e)
  {
    match e
    case Message(t) => RouteMessageIsFirstRegistration(s, t);
    case Callback(d) => RouteCallbackIsFirstRegistration(s, d);
  }
}
