/** The `stats` computation of the calculator: the weight normalised to grams
    and kilograms, the amount payable, and whether the inputs are usable. */
module Conversion {
  import opened Wrappers
  import opened Types

  /** The derived figures shown for the current inputs. */
  datatype Stats = Stats(totalWeightGrams: real, totalWeightKg: real, totalAmount: real, isValid: bool)

  /** The all-zero figures shown for empty inputs. */
  const ZeroStats := Stats(0.0, 0.0, 0.0, false)

  /** `parseFloat(text) || 0`: `None` stands for text that does not parse
      (NaN), which `|| 0` turns into 0 just as it keeps a parsed 0 at 0. */
  function NumberOrZero(input: Option<real>): (x: real)
    ensures x == 0.0 <==> input.None? || input.value == 0.0
    ensures x != 0.0 ==> input == Some(x)
  {
    input.GetOr(0.0)
  }

  /** The figures for a weight input in `weightUnit` and a price input quoted
      per `priceUnit`. */
  function ComputeStats(weight: Option<real>, weightUnit: Unit, price: Option<real>, priceUnit: Unit): (s: Stats)
    ensures s.totalWeightGrams == NumberOrZero(weight) * GramsIn(weightUnit)
    ensures s.totalWeightGrams == 1000.0 * s.totalWeightKg
    ensures s.totalAmount == s.totalWeightGrams / GramsIn(priceUnit) * NumberOrZero(price)
    ensures s.isValid <==> weight.Some? && weight.value > 0.0 && price.Some? && price.value > 0.0
  {
    var w := NumberOrZero(weight);
    var p := NumberOrZero(price);
    var grams := if weightUnit == Kg then w * 1000.0 else w;
    var kg := if weightUnit == Kg then w else w / 1000.0;
    var amount := if priceUnit == Kg then kg * p else grams * p;
    Stats(grams, kg, amount, w > 0.0 && p > 0.0)
  }

  /** A weight entered in kilograms is kept as the kilogram figure and
      multiplied by 1000 for grams. */
  lemma KgWeightNormalised(w: real, price: Option<real>, priceUnit: Unit)
    ensures ComputeStats(Some(w), Kg, price, priceUnit).totalWeightKg == w
    ensures ComputeStats(Some(w), Kg, price, priceUnit).totalWeightGrams == 1000.0 * w
  {
  }

  /** A weight entered in grams is kept as the gram figure and divided by 1000
      for kilograms. */
  lemma GramWeightNormalised(w: real, price: Option<real>, priceUnit: Unit)
    ensures ComputeStats(Some(w), G, price, priceUnit).totalWeightGrams == w
    ensures ComputeStats(Some(w), G, price, priceUnit).totalWeightKg == w / 1000.0
  {
  }

  /** The amount is weight times price, with the weight first expressed in
      the unit the price is quoted per. */
  lemma AmountByPriceUnit(weight: Option<real>, weightUnit: Unit, price: Option<real>)
    ensures ComputeStats(weight, weightUnit, price, Kg).totalAmount
         == ComputeStats(weight, weightUnit, price, Kg).totalWeightKg * NumberOrZero(price)
    ensures ComputeStats(weight, weightUnit, price, G).totalAmount
         == ComputeStats(weight, weightUnit, price, G).totalWeightGrams * NumberOrZero(price)
  {
  }

  /** Entering w kg or 1000·w g gives the same amount, whatever the price
      unit, and the same normalised weights. */
  lemma UnitInvariance(w: real, price: Option<real>, priceUnit: Unit)
    ensures ComputeStats(Some(w), Kg, price, priceUnit).totalAmount
         == ComputeStats(Some(1000.0 * w), G, price, priceUnit).totalAmount
    ensures ComputeStats(Some(w), Kg, price, priceUnit).totalWeightKg
         == ComputeStats(Some(1000.0 * w), G, price, priceUnit).totalWeightKg
  {
  }

  /** The two worked examples: 2 kg at 150 per kg, and 500 g at 2 per g. */
  lemma WorkedExamples()
    ensures ComputeStats(Some(2.0), Kg, Some(150.0), Kg) == Stats(2000.0, 2.0, 300.0, true)
    ensures ComputeStats(Some(500.0), G, Some(2.0), G) == Stats(500.0, 0.5, 1000.0, true)
  {
  }

  /** An empty, unparsable, zero or negative input is never valid. */
  lemma NonPositiveInputInvalid(weight: Option<real>, weightUnit: Unit, price: Option<real>, priceUnit: Unit)
    requires NumberOrZero(weight) <= 0.0 || NumberOrZero(price) <= 0.0
    ensures !ComputeStats(weight, weightUnit, price, priceUnit).isValid
  {
  }

  /** With both inputs empty every figure is zero and nothing is valid. */
  lemma EmptyInputsGiveZero(weightUnit: Unit, priceUnit: Unit)
    ensures ComputeStats(None, weightUnit, None, priceUnit) == ZeroStats
  {
  }
}
