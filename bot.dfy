/** The handlers as they run against one conversation's storage record: each one
    updates the FSM state and the data dict in place and returns what it sends. */
module Bot {
  import opened Numerals
  import opened Calories
  import opened Replies
  import opened Router
  import opened Dialog
  import Catalog

  /** One conversation's record in the state storage. */
  class Session {
    var state: State
    var collected: map<string, string>

    function View(): Snapshot
      reads this
    {
      Snapshot(state, collected)
    }

    ghost predicate Valid()
      reads this
    {
      Dialog.Valid(View())
    }

    /** A conversation the storage has not seen yet: no state, no data. */
    constructor ()
      ensures Valid() && View() == Fresh
    {
      state := Idle;
      collected := map[];
    }

    /** state.finish(): the state is dropped together with the data. */
    method Finish()
      modifies this
      ensures Valid() && View() == Fresh
    {
      state := Idle;
      collected := map[];
    }

    /** The 'calories' button (registered for no state only): ask for the age. */
    method SetAge() returns (out: seq<Reply>)
      requires Valid() && state == Idle
      modifies this
      ensures Valid() && state == Age && collected == old(collected) == map[]
      ensures out == [AskAge]
    {
      out := [AskAge];
      state := Age;
    }

    /** Any text while the age is awaited: store it as the age, ask for the growth. */
    method SetGrowth(text: string) returns (out: seq<Reply>)
      requires Valid() && state == Age
      modifies this
      ensures Valid() && state == Growth && collected == old(collected)["age" := text]
      ensures out == [AskGrowth]
    {
      collected := collected["age" := text];
      out := [AskGrowth];
      state := Growth;
    }

    /** Any text while the growth is awaited: store it as the growth, ask for the weight. */
    method SetWeight(text: string) returns (out: seq<Reply>)
      requires Valid() && state == Growth
      modifies this
      ensures Valid() && state == Weight && collected == old(collected)["growth" := text]
      ensures out == [AskWeight]
    {
      collected := collected["growth" := text];
      out := [AskWeight];
      state := Weight;
    }

    /** Any text while the weight is awaited: store it, compute from the three stored
        strings (or report invalid data), and finish the dialog in either case. */
    method SendCalories(text: string) returns (out: seq<Reply>)
      requires Valid() && state == Weight
      modifies this
      ensures Valid() && View() == Fresh
      ensures out == [CaloriesReply(old(collected)["age"], old(collected)["growth"], text)]
    {
      collected := collected["weight" := text];
      var data := collected;
      var age := ParseInt(data["age"]);
      var growth := ParseInt(data["growth"]);
      var weight := ParseInt(data["weight"]);
      if age.Some? && growth.Some? && weight.Some? {
        out := [Reply(Quote, Kcal(MifflinStJeor(age.value, growth.value, weight.value)), MainKeyboard)];
      } else {
        out := [ErrorReply];
      }
      Finish();
    }

    /** One update of this conversation: the dispatcher picks the handler, the handler runs. */
    method Handle(e: Event) returns (out: seq<Reply>)
      requires Valid()
      modifies this
      ensures Valid()
      ensures Outcome(View(), out) == Step(old(View()), e)
    {
      match Route(state, e)
      case Start => out := [GreetingReply];
      case MainMenu => out := [MenuReply];
      case GetFormulas => out := [FormulaReply];
      case SetAge => out := SetAge();
      case SetGrowth => out := SetGrowth(e.text);
      case SetWeight => out := SetWeight(e.text);
      case SendCalories => out := SendCalories(e.text);
      case GetBuyingList => out := Catalog.GetBuyingList();
      case SendConfirm => out := [Confirmation];
      case AllMessages => out := [if e.text == InfoButton then InfoReply else FallbackReply];
      case Unhandled => out := [];
    }
  }
}
