# Calorie bot: verified model of the dialog core

The bot in `HomeWork_14_3.py` is an aiogram 2.x Telegram bot. It greets the user, shows a
menu, explains the Mifflin–St Jeor formula, and lists four vitamin products with a mocked
purchase confirmation. Its one real piece of logic is a per-conversation state machine
(`UserState`). The machine asks for age, growth (height) and weight in turn, stores each
answer verbatim, and then computes `int(10*weight + 6.25*growth - 5*age + 5)`. If any answer
is not an integer it sends a fixed error text instead. In both cases `state.finish()` ends the
dialog.

This project models that core in Dafny:

- `numerals.dfy` (`Numerals`): Python's `int(str)` as `ParseInt`, with a simplified grammar (an
  optional sign, then ASCII digits). Also `str(int)` as `ToDecimal`, with the round trip
  between the two.
- `calories.dfy` (`Calories`): the formula in exact rational form, `(40w + 25g - 20a + 20) / 4`,
  truncated toward zero the way `int()` truncates a float. Also the parse-then-compute block,
  and the same block as written with its uncaught `OverflowError` (see Findings).
- `replies.dfy` (`Replies`): every reply as a mode (`message.reply` quotes the user's message,
  `answer` just sends), a symbolic text and a keyboard tag. `Render` gives each text's exact
  characters.
- `catalog.dfy` (`Catalog`): the fixed product list and the catalog handler's loop.
- `router.dfy` (`Router`): which handler an update reaches, given the FSM state. It also holds
  the handler registrations in file order, and a proof that the routing decision is the
  dispatcher's first-match search over them.
- `dialog.dfy` (`Dialog`): the session (FSM state plus data dict) as a value, `Step` for one
  update, `Run` for a sequence of updates, and the dialog properties.
- `bot.dfy` (`Bot`): the `Session` class. It holds the storage record for one conversation,
  and its handler methods update `state` and `collected` in place. `Handle` is proved to
  agree with `Step`.

Three points of the code's behaviour are easy to misread; the model follows the code:

- `/start` never resets the FSM.
- Under aiogram 2.x a handler registered without `state=` fires only when no state is set.
  So during a dialog every text is stored as data: `/start`, `Рассчитать` and `Информация`
  included. In the same situation the `formulas`, `calories` and `product_buying` callbacks
  reach no handler.
- `int()` on the float result truncates toward zero; it does not floor.

## Model

| member | source | states |
|---|---|---|
| Numerals.ParseInt | HomeWork_14_3.py:104-106 | `int(s)` succeeds exactly when `s` is an optional sign followed by one or more digits, otherwise ValueError (`None`); the value is the positional value of the digits, negated after `-` |
| Numerals.ParseDigits | HomeWork_14_3.py:104-106 | a digit string has a value exactly when every character is a digit, and that value is the positional sum of its digits (`PositionalValue`, summed from the most significant end) |
| Numerals.LeadingZeroIgnored | HomeWork_14_3.py:104-106 | a leading zero does not change the value (`int("075") == 75`) nor whether there is one |
| Numerals.SignedDigits | HomeWork_14_3.py:104-106 | `+` in front of digits keeps their value and `-` negates it (`int("+75") == 75`, `int("-0") == 0`) |
| Numerals.ToDecimal | HomeWork_14_3.py:110 | `str(n)` is a valid integer literal in canonical form: a leading minus exactly for negative `n`, never a plus, and no leading zero except `"0"` itself |
| Numerals.ParseToDecimal | HomeWork_14_3.py:110 | reading back the printed number gives the number: `ParseInt(ToDecimal(n)) == Some(n)` |
| Numerals.ParseNatToDecimal | HomeWork_14_3.py:110 | the digit string of a natural number parses back to it |
| Numerals.NoLeadingZero | HomeWork_14_3.py:110 | printed numbers carry no redundant leading zero |
| Calories.TruncQuarter | HomeWork_14_3.py:108 | `int(x/4)` truncates toward zero: `4r <= x < 4r+4` for `x >= 0` and `4r-4 < x <= 4r` for `x < 0` |
| Calories.MifflinStJeor | HomeWork_14_3.py:108 | the result is `10w + 6.25g - 5a + 5` truncated toward zero, bounded on both sides by the exact value |
| Calories.ComputeCalories | HomeWork_14_3.py:103-108 | a value exists exactly when all three strings are integers, and then it is the formula applied to the parsed values |
| Calories.ComputeAsWritten | HomeWork_14_3.py:103-113 | as written: ValueError exactly when parsing fails; OverflowError exactly when all three parse and `growth`, `10*weight` or `5*age` lies outside the float range; otherwise the value agrees with `ComputeCalories` |
| Calories.OverflowingWeight | HomeWork_14_3.py:104-108 | a numeric weight of at least `FloatLimit/10` passes parsing and then raises OverflowError |
| Calories.WorkedExample | HomeWork_14_3.py:103-110 | age "25", growth "180", weight "75" give 1755 |
| Calories.RejectsNonNumeric | HomeWork_14_3.py:111-113 | a non-numeric growth ("abc") ends in the error branch whatever age and weight are |
| Replies.CaloriesReply | HomeWork_14_3.py:108-113 | the weight-step reply quotes the user and carries the main keyboard; it is the error text exactly when some field is not an integer, and when all three are integers it is the result text carrying the formula's value for them |
| Replies.Render | HomeWork_14_3.py:49-153 | the exact characters of every reply text; the numbers inside result and product texts read back (`KcalReadBack`, `ProductInfoReadBack`) |
| Replies.KcalReadBack | HomeWork_14_3.py:110 | the result text is prefix, number, suffix, and the number reads back as the computed value |
| Replies.ProductInfoReadBack | HomeWork_14_3.py:129-130 | a product line starts with the name label and the name, and ends with the price, which reads back |
| Catalog.CatalogReplies | HomeWork_14_3.py:128-134 | one plain line per product in list order, then the closing prompt with the buying keyboard |
| Catalog.CatalogListing | HomeWork_14_3.py:121-126 | the catalog has four products priced 100, 200, 300, 400 in order, plus the closing prompt |
| Catalog.GetBuyingList | HomeWork_14_3.py:119-134 | the loop sends exactly one line per product, in order, then the closing prompt |
| Router.StepHandler | HomeWork_14_3.py:81-97 | a dialog state's text handler is one of set_growth, set_weight, send_calories, and it is the handler registered for that state with the any-text filter |
| Router.IsStartCommand | HomeWork_14_3.py:47 | the `/start` command filter; it never accepts a button caption (`Рассчитать`, `Информация`, `Купить`) |
| Router.DialogRegistrations | HomeWork_14_3.py:47-145 | `Registrations` holds the ten registrations in file order; only the three any-text ones name a dialog state, one per state, each with that state's step handler |
| Router.Route | HomeWork_14_3.py:47-145 | a step handler is chosen exactly when a text arrives in a dialog state; an update is dropped exactly when it is a callback outside no-state or with unknown data; `set_age` runs exactly on `calories` in no-state |
| Router.FirstMatch | HomeWork_14_3.py:47-145 | the dispatcher's choice is a handler of some registration whose filters pass, and `Unhandled` when none passes |
| Router.FirstFiringDecides | HomeWork_14_3.py:47-145 | the first registration whose filters pass decides; all earlier ones are skipped |
| Router.RouteIsFirstRegistration | HomeWork_14_3.py:47-145 | the routing decision equals first-match over the ten registrations in file order (:47, :57, :63, :73, :81, :89, :97, :119, :138, :145) |
| Dialog.Step | HomeWork_14_3.py:47-153 | one update keeps the session invariant (keys written so far match the state, none in no-state); texts in no-state and all callbacks but `calories` in no-state leave the session unchanged |
| Dialog.Run | HomeWork_14_3.py:47-153 | any sequence of updates keeps the session invariant |
| Dialog.IdleText | HomeWork_14_3.py:47-153 | in no-state a text gets greeting, menu, catalog, info or fallback by its content alone, and changes nothing |
| Dialog.IdleCallback | HomeWork_14_3.py:63-141 | in no-state `formulas` and `product_buying` get their fixed texts and change nothing; unknown data is dropped |
| Dialog.CaloriesButton | HomeWork_14_3.py:73-77 | `calories` in no-state moves to the age state with empty data and asks for the age; in a dialog state it is ignored |
| Dialog.DialogCapturesEveryText | HomeWork_14_3.py:81-115 | in a dialog state any text is stored verbatim under the current key and the state advances; the weight step always replies and returns to no-state with the data cleared |
| Dialog.CalorieDialog | HomeWork_14_3.py:73-115 | from no-state, `calories` then any three texts produce the three prompts and the result-or-error reply, and leave a fresh session |
| Dialog.HappyPath | HomeWork_14_3.py:103-110 | the dialog with "25", "180", "75" answers with 1755 |
| Dialog.FailedDialogLeavesNothing | HomeWork_14_3.py:111-115 | a non-numeric growth gives the error reply, and the next `calories` starts from empty data |
| Dialog.WeightStepAsWritten | HomeWork_14_3.py:97-115 | the weight step as written stays in the weight state exactly when the arithmetic overflows, and then sends nothing and keeps the stored weight; otherwise it equals the modelled `Step` |
| Dialog.OverflowLeavesDialogOpen | HomeWork_14_3.py:103-115 | as written, a numeric weight outside the float range leaves the dialog in the weight state with no reply; the modelled step answers and finishes |
| Dialog.PurchaseIdempotent | HomeWork_14_3.py:138-141 | any number of `product_buying` presses give the same confirmation each time (in no-state) and never change the session |
| Dialog.InfoIdempotent | HomeWork_14_3.py:145-149 | in no-state, `Информация` sent any number of times gets the same info reply each time and changes nothing |
| Bot.Session.constructor | HomeWork_14_3.py:15-16 | a conversation the storage has not seen has no state and no data |
| Bot.Session.Finish | HomeWork_14_3.py:115 | `state.finish()` drops both the state and the data |
| Bot.Session.SetAge | HomeWork_14_3.py:73-77 | sends the age prompt and sets the age state; the data stays empty |
| Bot.Session.SetGrowth | HomeWork_14_3.py:81-85 | stores the text as `age`, sends the growth prompt, sets the growth state |
| Bot.Session.SetWeight | HomeWork_14_3.py:89-93 | stores the text as `growth`, sends the weight prompt, sets the weight state |
| Bot.Session.SendCalories | HomeWork_14_3.py:97-115 | stores the weight, replies with the value or the error text for the three stored strings, and finishes the dialog |
| Bot.Session.Handle | HomeWork_14_3.py:47-153 | handling an update in place leaves exactly the session and replies that `Step` gives, and keeps the invariant |

## Left out

- Bot and dispatcher construction, the token and the polling loop (:9-16, :156-158): runtime bootstrap and I/O.
- Keyboard contents (:27-43): keyboards are opaque tags (`Markup`).
- Callback acknowledgements (`call.answer()`, :69, :77, :141): transport side effects with no content.
- Sending the product photos (:131-132): file I/O on external assets. Only the text lines of the catalog are modelled.
- MemoryStorage across conversations and async scheduling: one conversation's session is modelled, with its updates handled one after another.
- Numerals.ParseInt: does not accept the whitespace, underscores or non-ASCII digits that Python's `int()` also accepts. Python 3.11's limit of 4300 digits is not modelled either.
- Router.IsStartCommand: the `commands=['start']` filter is reduced to "the text is `/start` or starts with `/start` and whitespace". Case folding and the `@botname` suffix are not modelled.
- Calories.MifflinStJeor: computes the exact value. For large inputs the source's float arithmetic rounds before truncating; that rounding is not modelled.
- Calories.ComputeAsWritten: models the OverflowError raised when one operand is converted to float. The OverflowError raised when a product or sum of in-range operands reaches infinity (`6.25 * growth`, or the sum, rounding to `inf` before `int()` is applied) is not modelled.
- Non-text messages (photos, stickers, documents): `message_handler` without `content_types` accepts text only, so such a message reaches no handler in any state and changes nothing. `Router.Event` has no constructor for them.
- The female formula variant appears only in the formula text (:67). The computation never uses it.
- Bot.Session.SetAge: requires no state, because its registration (:73) lets it run only then.
- Bot.Session.SetGrowth, Bot.Session.SetWeight, Bot.Session.SendCalories: require their own dialog state, for the same reason (:81, :89, :97).

## Findings

| source | as written | input that shows it | evidently intended | confidence | as-written member | corrected member |
|---|---|---|---|---|---|---|
| HomeWork_14_3.py:103-115 | only `ValueError` is caught. A weight (or age, or growth) that parses but is too large for a float raises `OverflowError` inside the arithmetic. The exception escapes the handler, so no reply is sent, `state.finish()` is skipped, and the conversation stays in the weight state | age "25", growth "180", weight = the 309 digits of 2^1024 - 2^970 | the weight step always answers and always ends the dialog | medium; not executed | Dialog.OverflowLeavesDialogOpen | Dialog.DialogCapturesEveryText |
