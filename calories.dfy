/** The calorie computation of the weight step: Mifflin-St Jeor, male variant,
    int(10 * weight + 6.25 * growth - 5 * age + 5). */
module Calories {
  import opened Wrappers
  import opened Numerals

  /** Python int() applied to the rational x / 4: truncation toward zero
      (Dafny's own / on int is Euclidean, so it is not used directly for x < 0). */
  function TruncQuarter(x: int): (r: int)
    ensures x >= 0 ==> 0 <= 4 * r <= x < 4 * r + 4
    ensures x < 0 ==> 4 * r - 4 < x <= 4 * r <= 0
  {
    if x >= 0 then x / 4 else -((-x) / 4)
  }

  /** Four times the exact value of 10*w + 6.25*g - 5*a + 5 (6.25 == 25/4). */
  function QuadrupleEnergy(age: int, growth: int, weight: int): int {
    40 * weight + 25 * growth - 20 * age + 20
  }

  /** The integer the bot reports: the exact value truncated toward zero. */
  function MifflinStJeor(age: int, growth: int, weight: int): (r: int)
    ensures var q := QuadrupleEnergy(age, growth, weight);
            (q >= 0 ==> 4 * r <= q < 4 * r + 4) && (q < 0 ==> 4 * r - 4 < q <= 4 * r)
  {
    TruncQuarter(QuadrupleEnergy(age, growth, weight))
  }

  /** The try-block of the weight step: parse age, growth and weight (in that
      order) and compute; None is the ValueError branch. */
  function ComputeCalories(age: string, growth: string, weight: string): (r: Option<int>)
    ensures r.Some? <==> IsIntLiteral(age) && IsIntLiteral(growth) && IsIntLiteral(weight)
    ensures r.Some? ==> r.value == MifflinStJeor(ParseInt(age).value, ParseInt(growth).value, ParseInt(weight).value)
  {
    match ParseInt(age)
    case None => None
    case Some(a) =>
      match ParseInt(growth)
      case None => None
      case Some(g) =>
        match ParseInt(weight)
        case None => None
        case Some(w) => Some(MifflinStJeor(a, g, w))
  }

  /** The least integer magnitude that Python's int-to-float conversion rejects with
      OverflowError (2^1024 - 2^970: it would round to 2^1024). */
  const FloatLimit: int := 179769313486231580793728971405303415079934132710037826936173778980444968292764750946649017977587207096330286416692887910946555547851940402630657488671505820681908902000708383676273854845817711531764475730270069855571366959622842914819860834936475292719074168444365510704342711559699508093042880177904174497792

  predicate TooBigForFloat(x: int) { x >= FloatLimit || -x >= FloatLimit }

  /** How the try-block of the weight step ends as written: a value, the ValueError
      it catches, or the OverflowError it does not catch. */
  datatype Attempt = Computed(kcal: int) | ParseFailed | Overflowed

  /** The try-block as written, with float arithmetic: 6.25 * growth converts growth,
      and adding or subtracting the int operands 10 * weight and 5 * age converts them. */
  function ComputeAsWritten(age: string, growth: string, weight: string): (r: Attempt)
    ensures r.ParseFailed? <==> ComputeCalories(age, growth, weight).None?
    ensures r.Computed? ==> Some(r.kcal) == ComputeCalories(age, growth, weight)
    ensures r.Overflowed? <==>
              ComputeCalories(age, growth, weight).Some? &&
              var a, g, w := ParseInt(age).value, ParseInt(growth).value, ParseInt(weight).value;
              TooBigForFloat(g) || TooBigForFloat(10 * w) || TooBigForFloat(5 * a)
  {
    match ComputeCalories(age, growth, weight)
    case None => ParseFailed
    case Some(v) =>
      var a, g, w := ParseInt(age).value, ParseInt(growth).value, ParseInt(weight).value;
      if TooBigForFloat(g) || TooBigForFloat(10 * w) || TooBigForFloat(5 * a) then Overflowed
      else Computed(v)
  }

  /** A numeric weight of FloatLimit / 10 or more (such as the 309 digits of FloatLimit
      itself, which int() still accepts) is parsed, then escapes as OverflowError. */
  lemma OverflowingWeight(age: string, growth: string, weight: string)
    requires IsIntLiteral(age) && IsIntLiteral(growth) && IsIntLiteral(weight)
    requires 10 * ParseInt(weight).value >= FloatLimit
    ensures ComputeAsWritten(age, growth, weight) == Overflowed
  {
  }

  /** The worked example: age 25, growth 180, weight 75 gives 1755 kcal. */
  lemma WorkedExample()
    ensures ComputeCalories("25", "180", "75") == Some(1755)
  {
    ParseToDecimal(25);
    ParseToDecimal(180);
    ParseToDecimal(75);
    assert ToDecimal(25) == "25";
    assert ToDecimal(180) == "180";
    assert ToDecimal(75) == "75";
  }

  /** A non-numeric field sends the computation to the error branch. */
  lemma RejectsNonNumeric(age: string, weight: string)
    ensures ComputeCalories(age, "abc", weight) == None
  {
  }
}
