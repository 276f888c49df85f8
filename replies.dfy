/** The replies of the bot: which fixed or computed text, in which mode, with which
    keyboard. Keyboards are opaque tags; photos and callback acknowledgements are not
    modelled. Texts are kept symbolic in the dialog and rendered to their exact
    characters by Render. */
module Replies {
  import opened Wrappers
  import opened Numerals
  import opened Calories

  /** Which keyboard a reply carries: the reply keyboard with "Рассчитать",
      "Информация" and "Купить", the inline calorie menu, or the inline buying menu. */
  datatype Markup = NoMarkup | MainKeyboard | CalorieMenu | BuyingMenu

  /** message.reply quotes the user's message; message.answer just sends. */
  datatype Mode = Quote | Send

  /** One catalog entry; the photo is not modelled. */
  datatype Product = Product(name: string, description: string, price: int)

  datatype Text =
    | Greeting | MenuPrompt | FormulaText
    | AgePrompt | GrowthPrompt | WeightPrompt
    | Kcal(value: int) | InvalidData
    | ProductInfo(product: Product) | ChooseProduct | PurchaseDone
    | Info | Fallback

  datatype Reply = Reply(mode: Mode, text: Text, markup: Markup)

  const CalculateButton: string := "Рассчитать"
  const InfoButton: string := "Информация"
  const BuyButton: string := "Купить"

  const FormulasData: string := "formulas"
  const CaloriesData: string := "calories"
  const BuyingData: string := "product_buying"

  const ResultPrefix: string := "Ваша норма калорий: "
  const ResultSuffix: string := " ккал в день"
  const NameLabel: string := "Название: "
  const DescriptionLabel: string := " | Описание: "
  const PriceLabel: string := " | Цена: "

  /** The exact characters of each text. */
  function Render(t: Text): string {
    match t
    case Greeting =>
      "Привет! Я бот, помогающий твоему здоровью.\nНажмите \"Рассчитать\", чтобы начать расчет нормы калорий.\n"
      + "Нажмите \"Купить\", чтобы купить витамины"
    case MenuPrompt => "Выберите опцию:"
    case FormulaText =>
      "Формула Миффлина-Сан Жеора для расчета нормы калорий:\n\n"
      + "Для мужчин: (10 * вес (кг)) + (6.25 * рост (см)) - (5 * возраст) + 5\n"
      + "Для женщин: (10 * вес (кг)) + (6.25 * рост (см)) - (5 * возраст) - 161"
    case AgePrompt => "Введите свой возраст:"
    case GrowthPrompt => "Введите свой рост (в см):"
    case WeightPrompt => "Введите свой вес (в кг):"
    case Kcal(v) => ResultPrefix + ToDecimal(v) + ResultSuffix
    case InvalidData => "Ошибка в введенных данных. Пожалуйста, убедитесь, что вы ввели числовые значения."
    case ProductInfo(p) => NameLabel + p.name + DescriptionLabel + p.description + PriceLabel + ToDecimal(p.price)
    case ChooseProduct => "Выберите продукт для покупки:"
    case PurchaseDone => "Вы успешно приобрели продукт!"
    case Info => "Этот бот поможет вам рассчитать норму калорий. Нажмите \"Рассчитать\", чтобы начать."
    case Fallback =>
      "Введите команду /start, чтобы начать общение или нажмите \"Рассчитать\" для расчета нормы калорий."
  }

  /** The fixed replies of the handlers. */
  const GreetingReply := Reply(Quote, Greeting, MainKeyboard)
  const MenuReply := Reply(Quote, MenuPrompt, CalorieMenu)
  const FormulaReply := Reply(Send, FormulaText, NoMarkup)
  const AskAge := Reply(Send, AgePrompt, NoMarkup)
  const AskGrowth := Reply(Quote, GrowthPrompt, NoMarkup)
  const AskWeight := Reply(Quote, WeightPrompt, NoMarkup)
  const ErrorReply := Reply(Quote, InvalidData, MainKeyboard)
  const Confirmation := Reply(Send, PurchaseDone, NoMarkup)
  const InfoReply := Reply(Quote, Info, MainKeyboard)
  const FallbackReply := Reply(Quote, Fallback, MainKeyboard)
  const ClosingPrompt := Reply(Send, ChooseProduct, BuyingMenu)

  /** The reply of the weight step: the computed value, or the error text. */
  function CaloriesReply(age: string, growth: string, weight: string): (r: Reply)
    ensures r.mode == Quote && r.markup == MainKeyboard
    ensures r.text == InvalidData <==> !(IsIntLiteral(age) && IsIntLiteral(growth) && IsIntLiteral(weight))
    ensures IsIntLiteral(age) && IsIntLiteral(growth) && IsIntLiteral(weight) ==>
              r.text == Kcal(MifflinStJeor(ParseInt(age).value, ParseInt(growth).value, ParseInt(weight).value))
  {
    match ComputeCalories(age, growth, weight)
    case Some(c) => Reply(Quote, Kcal(c), MainKeyboard)
    case None => ErrorReply
  }

  /** The number in a result text reads back as the computed value. */
  lemma KcalReadBack(v: int)
    ensures var t := Render(Kcal(v));
            |t| > |ResultPrefix| + |ResultSuffix| &&
            t[..|ResultPrefix|] == ResultPrefix &&
            t[|t| - |ResultSuffix|..] == ResultSuffix &&
            ParseInt(t[|ResultPrefix|..|t| - |ResultSuffix|]) == Some(v)
  {
    var t := Render(Kcal(v));
    assert t[|ResultPrefix|..|t| - |ResultSuffix|] == ToDecimal(v);
    ParseToDecimal(v);
  }

  /** A product line starts with its name label and ends with the price, which reads back. */
  lemma ProductInfoReadBack(p: Product)
    ensures var t := Render(ProductInfo(p));
            var k := |ToDecimal(p.price)|;
            |t| > |NameLabel| + k &&
            t[..|NameLabel|] == NameLabel &&
            t[|NameLabel|..|NameLabel| + |p.name|] == p.name &&
            ParseInt(t[|t| - k..]) == Some(p.price)
  {
    var t := Render(ProductInfo(p));
    assert t == NameLabel + p.name + (DescriptionLabel + p.description + PriceLabel) + ToDecimal(p.price);
    assert t[|t| - |ToDecimal(p.price)|..] == ToDecimal(p.price);
    ParseToDecimal(p.price);
  }
}
