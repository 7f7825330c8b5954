/** The `Calculator` component's state and handlers: input edits, unit
    toggles, reset and the guarded save into the history list. */
module Calculator {
  import opened Wrappers
  import opened Types
  import opened Conversion
  import opened Storage
  import opened History

  /** The component state that matters for the logic. Each input is the
      parse of its text field (`None` for empty or unparsable text). */
  datatype Calc = Calc(
    weightInput: Option<real>,
    weightUnit: Unit,
    priceInput: Option<real>,
    priceUnit: Unit,
    isSaving: bool,
    showSuccess: bool)

  /** Empty fields, both units kilograms, nothing in progress. */
  const Initial := Calc(None, Kg, None, Kg, false, false)

  /** The calculator starts with empty fields in kilograms: every figure is
      zero and saving is refused. */
  lemma InitialStateCannotSave()
    ensures StatsOf(Initial) == ZeroStats
    ensures !CanSave(Initial)
    ensures Initial.weightUnit == Kg && Initial.priceUnit == Kg
  {
  }

  /** The figures shown for the current state. */
  function StatsOf(c: Calc): Stats {
    ComputeStats(c.weightInput, c.weightUnit, c.priceInput, c.priceUnit)
  }

  /** Typing into the weight field: the new text is taken and the success
      badge hidden. */
  function EditWeight(c: Calc, input: Option<real>): (r: Calc)
    ensures r.weightInput == input && !r.showSuccess
    ensures r.(weightInput := c.weightInput, showSuccess := c.showSuccess) == c
  {
    c.(weightInput := input, showSuccess := false)
  }

  /** Typing into the price field. */
  function EditPrice(c: Calc, input: Option<real>): (r: Calc)
    ensures r.priceInput == input && !r.showSuccess
    ensures r.(priceInput := c.priceInput, showSuccess := c.showSuccess) == c
  {
    c.(priceInput := input, showSuccess := false)
  }

  /** The weight unit button. */
  function ToggleWeightUnit(c: Calc): (r: Calc)
    ensures r.weightUnit != c.weightUnit
    ensures r.(weightUnit := c.weightUnit) == c
  {
    c.(weightUnit := Flip(c.weightUnit))
  }

  /** The price unit button. */
  function TogglePriceUnit(c: Calc): (r: Calc)
    ensures r.priceUnit != c.priceUnit
    ensures r.(priceUnit := c.priceUnit) == c
  {
    c.(priceUnit := Flip(c.priceUnit))
  }

  /** Pressing a unit button twice restores the state exactly. */
  lemma ToggleTwiceRestores(c: Calc)
    ensures ToggleWeightUnit(ToggleWeightUnit(c)) == c
    ensures TogglePriceUnit(TogglePriceUnit(c)) == c
  {
  }

  /** `handleReset`: both fields emptied, the badge hidden, the units and the
      saving flag kept; every figure is then zero and the state invalid. */
  function Reset(c: Calc): (r: Calc)
    ensures r.weightInput.None? && r.priceInput.None?
    ensures StatsOf(r) == ZeroStats
    ensures r.weightUnit == c.weightUnit && r.priceUnit == c.priceUnit
    ensures r.isSaving == c.isSaving && !r.showSuccess
  {
    c.(weightInput := None, priceInput := None, showSuccess := false)
  }

  /** The guard at the top of `handleSave`. */
  predicate CanSave(c: Calc)
    ensures CanSave(c) <==>
      && c.weightInput.Some? && c.weightInput.value > 0.0
      && c.priceInput.Some? && c.priceInput.value > 0.0
      && !c.isSaving
  {
    StatsOf(c).isValid && !c.isSaving
  }

  /** The synchronous part of `handleSave`: return at once when the inputs are
      invalid or a save is in progress, otherwise raise `isSaving`. */
  function BeginSave(c: Calc): (r: Option<Calc>)
    ensures r.None? <==> !StatsOf(c).isValid || c.isSaving
    ensures r.Some? ==> r.value.isSaving && r.value.(isSaving := false) == c
  {
    if !StatsOf(c).isValid || c.isSaving then None else Some(c.(isSaving := true))
  }

  /** The record built from the state captured when Save was clicked. */
  function NewRecord(clicked: Calc, id: string, timestamp: int): (r: CalculationResult)
    requires StatsOf(clicked).isValid
    ensures WellFormed(r)
    ensures r.id == id && r.timestamp == timestamp
    ensures Some(r.weight) == clicked.weightInput && Some(r.pricePerUnit) == clicked.priceInput
    ensures r.weightUnit == clicked.weightUnit && r.priceUnit == clicked.priceUnit
  {
    var s := StatsOf(clicked);
    CalculationResult(
      id, clicked.weightInput.value, clicked.weightUnit, clicked.priceInput.value,
      clicked.priceUnit, s.totalWeightGrams, s.totalWeightKg, s.totalAmount, timestamp)
  }

  /** The state, the storage and whether `storage_update` was dispatched. */
  datatype SaveStep = SaveStep(state: Calc, store: Store, broadcast: bool)

  /** The part of `handleSave` after the delay, with `now` the state at that
      moment and `clicked` the state the handler captured. When the stored
      history is malformed `JSON.parse` throws: nothing is written, nothing
      is dispatched and `isSaving` is never cleared. */
  function FinishSave(now: Calc, clicked: Calc, s: Store, id: string, timestamp: int): (r: SaveStep)
    requires StatsOf(clicked).isValid
    ensures LoadHistory(s).Failure? ==> r == SaveStep(now, s, false)
    ensures LoadHistory(s).Success? ==>
      && r.broadcast
      && LoadHistory(r.store) == Success(Prepend(NewRecord(clicked, id, timestamp), LoadHistory(s).value))
      && r.store.theme == s.theme
      && r.state == now.(isSaving := false, showSuccess := true)
  {
    match LoadHistory(s)
    case Failure(_) => SaveStep(now, s, false)
    case Success(saved) =>
      var updated := Prepend(NewRecord(clicked, id, timestamp), saved);
      SaveStep(now.(isSaving := false, showSuccess := true), WriteHistory(s, updated), true)
  }

  /** `handleSave` as one step, with no input edited during the delay. */
  function Save(c: Calc, s: Store, id: string, timestamp: int): (r: SaveStep)
    ensures !CanSave(c) ==> r == SaveStep(c, s, false)
    ensures CanSave(c) && LoadHistory(s).Failure? ==> r == SaveStep(c.(isSaving := true), s, false)
    ensures CanSave(c) && LoadHistory(s).Success? ==>
      && r.broadcast
      && r.state == c.(showSuccess := true)
      && r.store.theme == s.theme
  {
    match BeginSave(c)
    case None => SaveStep(c, s, false)
    case Some(saving) => FinishSave(saving, c, s, id, timestamp)
  }

  /** A successful save leaves `min(n + 1, 5)` entries: the new well-formed
      record first, then the old entries in their old order. */
  lemma SaveUpdatesHistory(c: Calc, s: Store, id: string, timestamp: int, saved: seq<CalculationResult>)
    requires CanSave(c)
    requires LoadHistory(s) == Success(saved)
    ensures var h := LoadHistory(Save(c, s, id, timestamp).store).value;
      && |h| == Min(|saved| + 1, Capacity)
      && h[0] == NewRecord(c, id, timestamp)
      && WellFormed(h[0])
      && h[1..] == saved[..|h| - 1]
  {
  }

  /** Every record the calculator saves is well formed, so a stored list of
      well-formed records stays one after a save. */
  lemma SaveKeepsHistoryWellFormed(c: Calc, s: Store, id: string, timestamp: int)
    requires CanSave(c)
    requires LoadHistory(s).Success?
    requires forall i :: 0 <= i < |LoadHistory(s).value| ==> WellFormed(LoadHistory(s).value[i])
    ensures var h := LoadHistory(Save(c, s, id, timestamp).store).value;
      forall i :: 0 <= i < |h| ==> WellFormed(h[i])
  {
  }

  /** A saved record's amount is what the conversion gives for the record's
      own weight, units and price. */
  lemma RecordAgreesWithConversion(c: Calc, id: string, timestamp: int)
    requires StatsOf(c).isValid
    ensures var r := NewRecord(c, id, timestamp);
      var st := ComputeStats(Some(r.weight), r.weightUnit, Some(r.pricePerUnit), r.priceUnit);
      && r.totalAmount == st.totalAmount
      && r.totalWeightGrams == st.totalWeightGrams
      && r.totalWeightKg == st.totalWeightKg
  {
  }

  /** The storage effect of a successful save is one step of `SaveAll`, so
      the bounds and ordering proved for runs of saves apply to it. */
  lemma SaveIsOneStoreStep(c: Calc, s: Store, id: string, timestamp: int)
    requires CanSave(c)
    ensures Save(c, s, id, timestamp).store == SaveAll(s, [NewRecord(c, id, timestamp)])
  {
  }

  /** After the `storage_update` broadcast of a save, the `History`
      component's reload shows exactly the stored list, with the new record
      at its head. */
  lemma BroadcastSyncsHistory(v: HistoryView, c: Calc, s: Store, id: string, timestamp: int)
    requires CanSave(c)
    requires LoadHistory(s).Success?
    ensures var step := Save(c, s, id, timestamp);
      && step.broadcast
      && Reload(v, step.store).Success?
      && Success(Reload(v, step.store).value.entries) == LoadHistory(step.store)
      && !RendersNothing(Reload(v, step.store).value)
      && Reload(v, step.store).value.entries[0] == NewRecord(c, id, timestamp)
  {
  }

  /** Once the stored history is malformed, a save leaves `isSaving` raised,
      and from then on every save is refused by the guard: the button stays
      locked and storage is never written. */
  lemma MalformedHistoryLocksSave(c: Calc, s: Store, id: string, timestamp: int, id': string, timestamp': int)
    requires s.history == Some(Unparsable)
    requires CanSave(c)
    ensures var step := Save(c, s, id, timestamp);
      && step.state.isSaving
      && step.store == s
      && !step.broadcast
      && Save(step.state, step.store, id', timestamp') == step.(broadcast := false)
      && Reset(step.state).isSaving
  {
  }
}
