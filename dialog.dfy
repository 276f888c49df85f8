/** The per-conversation dialog as a function of the stored FSM state and data:
    one update in, the next session and the replies out. */
module Dialog {
  import opened Numerals
  import opened Calories
  import opened Replies
  import opened Router
  import opened Catalog

  /** What the storage keeps for one conversation: the FSM state and the data dict. */
  datatype Snapshot = Snapshot(state: State, collected: map<string, string>)

  datatype Outcome = Outcome(next: Snapshot, replies: seq<Reply>)

  const Fresh: Snapshot := Snapshot(Idle, map[])

  /** The data keys that have been written on entering each state: age, growth and
      weight are stored strictly in that order. */
  function WrittenKeys(s: State): set<string> {
    match s
    case Idle => {}
    case Age => {}
    case Growth => {"age"}
    case Weight => {"age", "growth"}
  }

  /** The invariant every reachable session satisfies. */
  predicate Valid(snap: Snapshot) {
    snap.collected.Keys == WrittenKeys(snap.state)
  }

  /** The weight step's data after storing the weight, and the reply it yields. */
  function WeightReply(collected: map<string, string>, weight: string): Reply
    requires "age" in collected && "growth" in collected
  {
    CaloriesReply(collected["age"], collected["growth"], weight)
  }

  /** One update handled: route it, run the chosen handler. */
  function Step(snap: Snapshot, e: Event): (o: Outcome)
    requires Valid(snap)
    ensures Valid(o.next)
    ensures o.next.state == Idle ==> o.next.collected == map[]
    ensures snap.state == Idle && e.Message? ==> o.next == snap
    ensures e.Callback? && (snap.state != Idle || e.data != CaloriesData) ==> o.next == snap
  {
    match Route(snap.state, e)
    case Start => Outcome(snap, [GreetingReply])
    case MainMenu => Outcome(snap, [MenuReply])
    case GetFormulas => Outcome(snap, [FormulaReply])
    case SetAge => Outcome(Snapshot(Age, snap.collected), [AskAge])
    case SetGrowth => Outcome(Snapshot(Growth, snap.collected["age" := e.text]), [AskGrowth])
    case SetWeight => Outcome(Snapshot(Weight, snap.collected["growth" := e.text]), [AskWeight])
    case SendCalories =>
      var data := snap.collected["weight" := e.text];
      Outcome(Fresh, [WeightReply(data, data["weight"])])
    case GetBuyingList => Outcome(snap, CatalogReplies(Products))
    case SendConfirm => Outcome(snap, [Confirmation])
    case AllMessages => Outcome(snap, [if e.text == InfoButton then InfoReply else FallbackReply])
    case Unhandled => Outcome(snap, [])
  }

  /** A sequence of updates of one conversation, handled one after another. */
  function Run(snap: Snapshot, es: seq<Event>): (o: Outcome)
    requires Valid(snap)
    ensures Valid(o.next)
    decreases |es|
  {
    if es == [] then Outcome(snap, [])
    else
      var first := Step(snap, es[0]);
      var rest := Run(first.next, es[1..]);
      Outcome(rest.next, first.replies + rest.replies)
  }

  /** The state a dialog state's text handler moves to, and the key it stores. */
  function Successor(s: State): State {
    match s
    case Idle => Idle
    case Age => Growth
    case Growth => Weight
    case Weight => Idle
  }

  function KeyOf(s: State): string {
    match s
    case Idle => ""
    case Age => "age"
    case Growth => "growth"
    case Weight => "weight"
  }

  /** With no dialog in progress a text never changes the session, and its reply depends
      on the text alone: greeting, menu, catalog, info, or the fallback. */
  lemma IdleText(snap: Snapshot, t: string)
    requires Valid(snap) && snap.state == Idle
    ensures Step(snap, Message(t)) == Outcome(snap,
              if IsStartCommand(t) then [GreetingReply]
              else if t == CalculateButton then [MenuReply]
              else if t == BuyButton then CatalogReplies(Products)
              else if t == InfoButton then [InfoReply]
              else [FallbackReply])
  {
  }

  /** With no dialog in progress the formula and purchase buttons answer with fixed texts
      and leave the session alone; unknown callback data is dropped. */
  lemma IdleCallback(snap: Snapshot, d: string)
    requires Valid(snap) && snap.state == Idle && d != CaloriesData
    ensures Step(snap, Callback(d)) == Outcome(snap,
              if d == FormulasData then [FormulaReply]
              else if d == BuyingData then [Confirmation]
              else [])
  {
  }

  /** The 'calories' button starts the dialog from no state with empty data, and is
      ignored while a dialog is in progress. */
  lemma CaloriesButton(snap: Snapshot)
    requires Valid(snap)
    ensures Step(snap, Callback(CaloriesData)) ==
              if snap.state == Idle then Outcome(Snapshot(Age, map[]), [AskAge])
              else Outcome(snap, [])
  {
  }

  /** During a dialog every text, commands and button captions included, is stored
      verbatim under the current step's key and advances the dialog; the weight step
      always ends it with the data cleared. */
  lemma {:induction false} DialogCapturesEveryText(snap: Snapshot, t: string)
    requires Valid(snap) && snap.state != Idle
    ensures var o := Step(snap, Message(t));
            o.next.state == Successor(snap.state) &&
            (o.next.state != Idle ==> o.next.collected == snap.collected[KeyOf(snap.state) := t]) &&
            (o.next.state == Idle ==>
               o.next == Fresh && o.replies == [CaloriesReply(snap.collected["age"], snap.collected["growth"], t)])
  {
  }

  /** The whole dialog: from no state, the button and three texts give the three prompts
      and the result (or the error), and leave the session as new. */
  lemma {:induction false} CalorieDialog(snap: Snapshot, age: string, growth: string, weight: string)
    requires Valid(snap) && snap.state == Idle
    ensures Run(snap, [Callback(CaloriesData), Message(age), Message(growth), Message(weight)]) ==
              Outcome(Fresh, [AskAge, AskGrowth, AskWeight, CaloriesReply(age, growth, weight)])
  {
    var s1 := Snapshot(Age, map[]);
    var s2 := Snapshot(Growth, map["age" := age]);
    var s3 := Snapshot(Weight, map["age" := age, "growth" := growth]);
    var es := [Callback(CaloriesData), Message(age), Message(growth), Message(weight)];
    CaloriesButton(snap);
    DialogCapturesEveryText(s1, age);
    DialogCapturesEveryText(s2, growth);
    DialogCapturesEveryText(s3, weight);
    assert s1.collected["age" := age] == s2.collected;
    assert s2.collected["growth" := growth] == s3.collected;
    assert es[1..][1..][1..][1..] == [];
    assert Run(s3, es[1..][1..][1..]) == Outcome(Fresh, [CaloriesReply(age, growth, weight)]);
    assert Run(s2, es[1..][1..]) == Outcome(Fresh, [AskWeight, CaloriesReply(age, growth, weight)]);
    assert Run(s1, es[1..]) == Outcome(Fresh, [AskGrowth, AskWeight, CaloriesReply(age, growth, weight)]);
  }

  /** Age 25, growth 180, weight 75: the bot answers with 1755. */
  lemma HappyPath()
    ensures Run(Fresh, [Callback(CaloriesData), Message("25"), Message("180"), Message("75")]) ==
              Outcome(Fresh, [AskAge, AskGrowth, AskWeight,
                              Reply(Quote, Kcal(1755), MainKeyboard)])
  {
    CalorieDialog(Fresh, "25", "180", "75");
    WorkedExample();
  }

  /** A non-numeric growth yields the error reply, and the next dialog starts from empty
      data: nothing of the failed attempt is left behind. */
  lemma FailedDialogLeavesNothing(age: string, weight: string)
    ensures var es := [Callback(CaloriesData), Message(age), Message("abc"), Message(weight)];
            Run(Fresh, es) == Outcome(Fresh, [AskAge, AskGrowth, AskWeight, ErrorReply]) &&
            Step(Run(Fresh, es).next, Callback(CaloriesData)).next == Snapshot(Age, map[])
  {
    var es := [Callback(CaloriesData), Message(age), Message("abc"), Message(weight)];
    CalorieDialog(Fresh, age, "abc", weight);
    RejectsNonNumeric(age, weight);
    CaloriesButton(Fresh);
  }

  /** The weight step as written: an OverflowError escapes the handler, so neither the
      reply nor state.finish() happens and the stored weight stays behind. */
  function WeightStepAsWritten(collected: map<string, string>, t: string): (o: Outcome)
    requires "age" in collected && "growth" in collected
    ensures o.next.state == Weight <==> ComputeAsWritten(collected["age"], collected["growth"], t).Overflowed?
    ensures o.next.state == Weight ==> o.replies == [] && o.next.collected == collected["weight" := t]
    ensures collected.Keys == {"age", "growth"} && o.next.state != Weight ==>
              o == Step(Snapshot(Weight, collected), Message(t))
  {
    var data := collected["weight" := t];
    match ComputeAsWritten(data["age"], data["growth"], data["weight"])
    case Overflowed => Outcome(Snapshot(Weight, data), [])
    case Computed(v) => Outcome(Fresh, [Reply(Quote, Kcal(v), MainKeyboard)])
    case ParseFailed => Outcome(Fresh, [ErrorReply])
  }

  /** Outside the float range the code as written leaves the dialog open without a reply,
      while the modelled weight step always answers and finishes. */
  lemma OverflowLeavesDialogOpen(snap: Snapshot, age: string, growth: string, w: string)
    requires snap == Snapshot(Weight, map["age" := age, "growth" := growth])
    requires IsIntLiteral(age) && IsIntLiteral(growth) && IsIntLiteral(w)
    requires 10 * ParseInt(w).value >= FloatLimit
    ensures var o := WeightStepAsWritten(snap.collected, w);
            o.next.state == Weight && o.replies == []
    ensures var o := Step(snap, Message(w));
            o.next == Fresh && |o.replies| == 1 && o.replies[0].text.Kcal?
  {
  }

  /** k copies of the same update. */
  function Repeat<T>(x: T, k: nat): (r: seq<T>)
    ensures |r| == k && forall i :: 0 <= i < k ==> r[i] == x
  {
    seq(k, _ => x)
  }

  /** The purchase button, pressed any number of times, confirms every time (only
      with no dialog in progress) and never changes the session. */
  lemma {:induction false} PurchaseIdempotent(snap: Snapshot, k: nat)
    requires Valid(snap)
    ensures Run(snap, Repeat(Callback(BuyingData), k)) ==
              Outcome(snap, if snap.state == Idle then Repeat(Confirmation, k) else [])
  {
    if k > 0 {
      assert Repeat(Callback(BuyingData), k)[1..] == Repeat(Callback(BuyingData), k - 1);
      PurchaseIdempotent(snap, k - 1);
      if snap.state == Idle {
        assert [Confirmation] + Repeat(Confirmation, k - 1) == Repeat(Confirmation, k);
      }
    }
  }

  /** With no dialog in progress, the info caption is answered with the same text every
      time and the session never changes. */
  lemma {:induction false} InfoIdempotent(snap: Snapshot, k: nat)
    requires Valid(snap) && snap.state == Idle
    ensures Run(snap, Repeat(Message(InfoButton), k)) == Outcome(snap, Repeat(InfoReply, k))
  {
    if k > 0 {
      assert Repeat(Message(InfoButton), k)[1..] == Repeat(Message(InfoButton), k - 1);
      InfoIdempotent(snap, k - 1);
      assert [InfoReply] + Repeat(InfoReply, k - 1) == Repeat(InfoReply, k);
    }
  }
}
