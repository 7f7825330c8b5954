# Weight & Price calculator: a Dafny model of its logic

The application is a browser calculator. The user enters a weight in kilograms or grams and a price per kilogram or per gram. The application shows the weight in both units and the amount payable. A valid calculation can be saved into a history list kept in browser storage. The list holds the five most recent records, newest first. A light/dark theme is resolved from storage or from the system colour scheme, toggled by the user and persisted.

The model has one module per concern:

- `Wrappers` (`wrappers.dfy`): `Option` and `Result`.
- `Types` (`types.ts`): the `Unit` tag, the `CalculationResult` record and the `WellFormed` predicate that every record the calculator builds satisfies.
- `Conversion` (the `stats` computation of `components/Calculator.tsx`): grams, kilograms, the amount and `isValid`. JavaScript numbers are `real`. A text field is its parse, `Option<real>`. `None` stands for empty or unparsable text, and `parseFloat(..) || 0` turns it into 0.
- `Storage`: the two keys of browser storage, `calc_history` and `theme`, each a cell that may be absent.
- `History` (`components/History.tsx` and the list update of the save handler): the bounded prepend, runs of saves, and the component's load, reload and clear.
- `Calculator` (`components/Calculator.tsx`): input edits, unit toggles, reset, and the guarded save. The save is modelled as a begin/finish pair (`BeginSave`, `FinishSave`). The finish step builds the record from the state captured at the click. It is also modelled as one atomic step (`Save`).
- `Theme` (`App.tsx`): initial resolution, toggle, persist effect, the system-change handler, and runs of events after mount.

Two behaviours of the code are worth stating:

- Malformed history text makes `JSON.parse` throw, and nothing catches it. `LoadHistory` returns `Failure`. A save that meets malformed text writes nothing, dispatches nothing and leaves `isSaving` raised. After that the save guard refuses every later save (`Calculator.MalformedHistoryLocksSave`).
- The persist effect runs on mount and always writes `"dark"` or `"light"`. The system-change handler acts only while no theme is stored, so it can never change anything after mount (`Theme.SystemChangeIgnoredAfterMount`).

## Model

| member | source | states |
|---|---|---|
| Types.Flip | components/Calculator.tsx:118 | a unit toggle always changes the unit (kg and g swap) |
| Types.FlipTwice | components/Calculator.tsx:153 | toggling a unit twice gives the same unit back |
| Types.UnitIsKgOrG | types.ts:2 | a unit is kg or g and nothing else, so every two-way unit branch is exhaustive |
| Conversion.NumberOrZero | components/Calculator.tsx:17-18 | a field counts as 0 exactly when it is empty, unparsable or 0; any other value is the parsed number |
| Conversion.ComputeStats | components/Calculator.tsx:16-44 | grams are the weight times the grams in the weight unit; grams are 1000 times kilograms; the amount is the weight in price units times the price; `isValid` holds iff both inputs parsed to numbers greater than 0 |
| Conversion.KgWeightNormalised | components/Calculator.tsx:23-25 | a kg weight w gives w kilograms and 1000·w grams |
| Conversion.GramWeightNormalised | components/Calculator.tsx:26-29 | a gram weight w gives w grams and w/1000 kilograms |
| Conversion.AmountByPriceUnit | components/Calculator.tsx:31-36 | the amount is kilograms times price for a per-kg price and grams times price for a per-gram price |
| Conversion.UnitInvariance | components/Calculator.tsx:23-36 | w kg and 1000·w g give the same amount and the same kilograms, whatever the price unit |
| Conversion.WorkedExamples | components/Calculator.tsx:16-44 | 2 kg at 150/kg gives 2000 g, 2 kg and 300; 500 g at 2/g gives 0.5 kg and 1000; both are valid |
| Conversion.NonPositiveInputInvalid | components/Calculator.tsx:17-42 | an empty, unparsable, zero or negative weight or price is never valid |
| Conversion.EmptyInputsGiveZero | components/Calculator.tsx:17-42 | empty fields give all-zero figures and an invalid state |
| Storage.LoadHistory | components/History.tsx:9 | an absent or empty key reads as the empty list; malformed text throws (and only it does); a stored list reads back as exactly that list |
| Storage.WriteHistory | components/Calculator.tsx:84 | after the write, loading gives back exactly the written list; the theme key is untouched |
| Storage.RemoveHistory | components/History.tsx:20 | after removing the key, loading gives the empty list; the theme key is untouched |
| Storage.WriteTheme | App.tsx:35-38 | the theme key holds the written name; it is set iff the name is non-empty; the history key is untouched |
| Storage.ThemeIsSet | App.tsx:23 | a theme counts as stored only when the key is present; "dark" and "light" count, and the empty string does not |
| Storage.WriteThenLoad | components/Calculator.tsx:82-84 | write-then-load is the identity on lists, and a second write replaces the first entirely |
| History.Prepend | components/Calculator.tsx:83 | the new list has min(n+1, 5) entries, the new record first, then the old entries in their old order |
| History.PrefixOfConcat | components/Calculator.tsx:83 | cutting the old list before prepending does not change what the final cut keeps |
| History.SaveAll | components/Calculator.tsx:82-84 | a run of saves never touches the theme key; a run on malformed history changes nothing; a non-empty run on readable history leaves a readable, non-empty list |
| History.SaveAllKeepsNewest | components/Calculator.tsx:82-84 | a non-empty run of saves on any readable list (also one longer than 5), or an empty run on a list of at most 5, leaves the newest 5 of the run and the old list together, newest first |
| History.SavesFromEmpty | components/Calculator.tsx:82-84 | from an empty store, any run of saves leaves min(n, 5) records, newest first, with the last saved at the head |
| History.ReverseHead | components/Calculator.tsx:83 | the newest record of a run is the head of the newest-first order |
| History.Reload | components/History.tsx:8-11 | a reload succeeds iff the stored text parses, and then the list is exactly the stored list |
| History.Mount | components/History.tsx:13-17 | mounting succeeds iff the stored text parses, and the list is then what storage holds (empty when the key is absent); a failed mount registers no reload listener |
| History.Clear | components/History.tsx:19-22 | clearing empties the in-memory list and removes the stored list, leaving the theme |
| History.RendersNothing | components/History.tsx:24 | the component renders nothing exactly when its list is empty |
| History.ClearThenReload | components/History.tsx:19-24 | after a clear the component renders nothing, and a later reload still finds nothing |
| Calculator.InitialStateCannotSave | components/Calculator.tsx:6-11 | the calculator starts with both units in kilograms, all figures zero, and saving refused |
| Calculator.EditWeight | components/Calculator.tsx:110-113 | typing sets the weight input and hides the success badge; nothing else changes |
| Calculator.EditPrice | components/Calculator.tsx:145-148 | typing sets the price input and hides the success badge; nothing else changes |
| Calculator.ToggleWeightUnit | components/Calculator.tsx:118 | the weight unit changes and nothing else does |
| Calculator.TogglePriceUnit | components/Calculator.tsx:153 | the price unit changes and nothing else does |
| Calculator.ToggleTwiceRestores | components/Calculator.tsx:118-153 | pressing either unit button twice restores the whole state |
| Calculator.Reset | components/Calculator.tsx:56-60 | reset empties both fields, so every figure is zero and the state is invalid; both units and the saving flag are kept; the badge is hidden |
| Calculator.CanSave | components/Calculator.tsx:63 | saving is allowed exactly when both fields parse to numbers greater than 0 and no save is in progress |
| Calculator.BeginSave | components/Calculator.tsx:62-65 | the handler returns without effect iff the inputs are invalid or a save is in progress; otherwise only `isSaving` is raised |
| Calculator.NewRecord | components/Calculator.tsx:70-80 | the record carries the given id and timestamp and the clicked inputs and units, and it is well formed: positive weight and price, grams = 1000·kilograms, amount consistent with its units |
| Calculator.FinishSave | components/Calculator.tsx:82-90 | on readable storage the list becomes the new record prepended to the stored list, the update is broadcast, `isSaving` is cleared and success is shown; on malformed storage nothing is written or broadcast and the state is left as it is |
| Calculator.Save | components/Calculator.tsx:62-94 | a refused save changes nothing; a save on malformed storage only raises `isSaving`; a successful save broadcasts, clears `isSaving`, shows success, keeps the inputs and units and the theme |
| Calculator.SaveUpdatesHistory | components/Calculator.tsx:82-84 | after a successful save the list has min(n+1, 5) entries, the well-formed new record first, then a prefix of the old list in order |
| Calculator.SaveKeepsHistoryWellFormed | components/Calculator.tsx:70-84 | a stored list of well-formed records stays well formed after a save |
| Calculator.RecordAgreesWithConversion | components/Calculator.tsx:70-80 | a saved record's figures are what the conversion gives for the record's own weight, units and price |
| Calculator.SaveIsOneStoreStep | components/Calculator.tsx:82-84 | the storage effect of a save is one step of a run of saves, so the run properties apply to it |
| Calculator.BroadcastSyncsHistory | components/Calculator.tsx:84-87 | after the broadcast of a save, the History reload shows exactly the stored list, which is non-empty and headed by the new record |
| Calculator.MalformedHistoryLocksSave | components/Calculator.tsx:63-82 | with malformed stored history a save leaves `isSaving` raised and storage unchanged, every later save is refused, and reset does not lower the flag |
| Theme.ThemeName | App.tsx:33-39 | the persisted name is "dark" exactly for the dark theme and "light" exactly for the light one, never empty |
| Theme.InitialDarkMode | App.tsx:10-17 | without a window the theme is light; a non-empty stored value decides (dark iff it is "dark"); otherwise the system preference decides |
| Theme.ToggleTheme | App.tsx:42-44 | a toggle always changes the theme |
| Theme.ToggleTwice | App.tsx:43 | toggling twice restores the theme |
| Theme.PersistTheme | App.tsx:32-40 | after the effect a theme is stored; it is "dark" iff the theme is dark and "light" iff it is light; the history key is untouched |
| Theme.OnSystemChange | App.tsx:22-26 | the system event sets the theme to its value only while no theme is stored; otherwise the theme is unchanged |
| Theme.OtherStoredValuesAreLight | App.tsx:13 | any stored non-empty value other than "dark", including "light" and garbage, resolves to light |
| Theme.PersistThenResolve | App.tsx:13-38 | resolving the initial theme from what the persist effect stored gives back the same theme, whatever the system preference |
| Theme.MountApp | App.tsx:10-40 | after mount the stored theme is the persisted form of the resolved one, and the history is untouched |
| Theme.Step | App.tsx:20-44 | each event keeps the stored theme in step with the current one and leaves the history alone; a toggle negates the theme; a system change follows the handler and is a no-op while a theme is stored |
| Theme.RunFromPinned | App.tsx:20-44 | from a persisted state, any run of events ends dark iff the start was dark and the number of toggles is even or the start was light and it is odd; system changes count for nothing |
| Theme.SystemChangeIgnoredAfterMount | App.tsx:20-40 | once mounted, after any events, a system colour-scheme change never alters the state |

## Left out

- Rendering, styling and layout (all JSX) are presentation only. The `disabled` attributes on the Reset and Save buttons are part of that. `Calculator.Reset` models `handleReset` itself, which has no guard.
- The pop animation effect (`components/Calculator.tsx:47-54`), the 600 ms delay and the 2400 ms success timer are left out. They are timers for pacing. The delay is the gap between `BeginSave` and `FinishSave`, and `Save` runs both with no time in between. The success badge is raised on save and is never lowered by a timer.
- Number formatting (`toLocaleString`, `toFixed`) depends on the locale and on floating point.
- IEEE-754 rounding, NaN, infinities and negative zero are not modelled: numbers are exact `real`s. Identities such as grams = 1000·kilograms hold exactly in the model only.
- The prefix parsing rules of `parseFloat` are left out. Each field is taken as already parsed, `Option<real>`.
- JSON serialisation is not modelled. The history cell holds one of three things: a list of records, the empty string, or text that does not parse. Parsed JSON that is not a list of records is not modelled.
- `Math.random` ids and `Date.now` timestamps are parameters of the save.
- DOM `classList` changes, `matchMedia`, and the adding and removing of event listeners are browser plumbing. The system preference is a parameter. The `storage_update` event is the `broadcast` flag of a save step, consumed by `History.Reload`.
- The `useTheme` context check (`App.tsx:90-94`) is React wiring.
- Concurrent saves from one render (two clicks before `isSaving` is re-read) are not modelled: a save reads the current `isSaving`.
