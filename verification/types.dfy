/** The records of `types.ts`: the unit tag and a saved calculation. */
module Types {

  /** A unit of weight, used both for the weight input and for the unit the
      price is quoted per. */
  datatype Unit = Kg | G

  /** What the unit buttons do: kilograms become grams and grams kilograms. */
  function Flip(u: Unit): (r: Unit)
    ensures r != u
  {
    if u == Kg then G else Kg
  }

  /** The number of grams in one `u`: the common scale the conversions use. */
  function GramsIn(u: Unit): (g: real)
    ensures g > 0.0
    ensures u == Kg <==> g == 1000.0
  {
    match u
    case Kg => 1000.0
    case G => 1.0
  }

  /** One saved calculation. `id` and `timestamp` come from `Math.random` and
      `Date.now`, so the model takes them as opaque inputs. */
  datatype CalculationResult = CalculationResult(
    id: string,
    weight: real,
    weightUnit: Unit,
    pricePerUnit: real,
    priceUnit: Unit,
    totalWeightGrams: real,
    totalWeightKg: real,
    totalAmount: real,
    timestamp: int)

  /** What every record the calculator builds satisfies: positive inputs,
      weight normalised to grams and kilograms consistently, and the amount
      equal to weight times price once both are in the same unit. */
  predicate WellFormed(r: CalculationResult) {
    && r.weight > 0.0
    && r.pricePerUnit > 0.0
    && r.totalWeightGrams == r.weight * GramsIn(r.weightUnit)
    && r.totalWeightGrams == 1000.0 * r.totalWeightKg
    && r.totalAmount == r.totalWeightGrams / GramsIn(r.priceUnit) * r.pricePerUnit
  }

  /** Flipping a unit twice gives it back. */
  lemma FlipTwice(u: Unit)
    ensures Flip(Flip(u)) == u
  {
  }

  /** `Unit` has exactly the two values kg and g, so a two-way branch on a unit
      covers every case. */
  lemma UnitIsKgOrG(u: Unit)
    ensures u == Kg || u == G
    ensures u != Kg <==> u == G
  {
  }
}
