/** The two browser storage keys the application uses: `calc_history` and
    `theme`. Each is a cell that is either absent or holds a value. */
module Storage {
  import opened Wrappers
  import opened Types

  /** What the `calc_history` key can hold. `Blank` is the empty string, which
      `|| '[]'` treats like an absent key; `Unparsable` is text on which
      `JSON.parse` throws; `Serialized` is a stored list of records. */
  datatype HistoryText = Blank | Unparsable | Serialized(entries: seq<CalculationResult>)

  /** The storage area: the history cell and the theme cell. */
  datatype Store = Store(history: Option<HistoryText>, theme: Option<string>)

  /** The exception `JSON.parse` raises on malformed text. */
  datatype LoadError = MalformedJson

  /** A storage area in which neither key was ever written. */
  const Empty := Store(None, None)

  /** Reading and parsing `calc_history`: an absent or empty key reads as the
      empty list, a stored list reads back as itself, and malformed text
      throws. */
  function LoadHistory(s: Store): (r: Result<seq<CalculationResult>, LoadError>)
    ensures r.Failure? <==> s.history == Some(Unparsable)
    ensures s.history.None? || s.history == Some(Blank) ==> r == Success([])
    ensures s.history.Some? && s.history.value.Serialized? ==> r == Success(s.history.value.entries)
  {
    match s.history
    case None => Success([])
    case Some(Blank) => Success([])
    case Some(Unparsable) => Failure(MalformedJson)
    case Some(Serialized(entries)) => Success(entries)
  }

  /** Overwriting `calc_history` with the whole list `h`. */
  function WriteHistory(s: Store, h: seq<CalculationResult>): (s': Store)
    ensures LoadHistory(s') == Success(h)
    ensures s'.theme == s.theme
  {
    s.(history := Some(Serialized(h)))
  }

  /** `removeItem('calc_history')`. */
  function RemoveHistory(s: Store): (s': Store)
    ensures LoadHistory(s') == Success([])
    ensures s'.history.None?
    ensures s'.theme == s.theme
  {
    s.(history := None)
  }

  /** Whether `getItem('theme')` is truthy: present and not the empty string. */
  predicate ThemeIsSet(s: Store)
    ensures ThemeIsSet(s) ==> s.theme.Some?
    ensures s.theme == Some("dark") || s.theme == Some("light") ==> ThemeIsSet(s)
    ensures s.theme == Some("") ==> !ThemeIsSet(s)
  {
    s.theme.Some? && s.theme.value != ""
  }

  /** `setItem('theme', name)`. */
  function WriteTheme(s: Store, name: string): (s': Store)
    ensures s'.theme == Some(name)
    ensures s'.history == s.history
    ensures ThemeIsSet(s') <==> name != ""
  {
    s.(theme := Some(name))
  }

  /** Writing a list and loading it back gives the same list, in the same
      order, and a second write replaces the first entirely. */
  lemma WriteThenLoad(s: Store, h: seq<CalculationResult>, h': seq<CalculationResult>)
    ensures LoadHistory(WriteHistory(s, h)) == Success(h)
    ensures WriteHistory(WriteHistory(s, h), h') == WriteHistory(s, h')
  {
  }
}
