/** The bounded, most-recent-first history list and the `History` component
    that displays it. */
module History {
  import opened Wrappers
  import opened Types
  import opened Storage

  /** How many records the list keeps (`.slice(0, 5)`). */
  const Capacity: nat := 5

  function Min(a: nat, b: nat): nat {
    if a <= b then a else b
  }

  /** `[newCalc, ...savedHistory].slice(0, 5)`: the new record first, followed by the
      oldest-dropping prefix of the old list. */
  function Prepend(r: CalculationResult, prior: seq<CalculationResult>): (h: seq<CalculationResult>)
    ensures |h| == Min(|prior| + 1, Capacity)
    ensures h[0] == r
    ensures forall i :: 1 <= i < |h| ==> h[i] == prior[i - 1]
  {
    ([r] + prior)[..Min(|prior| + 1, Capacity)]
  }

  function Reverse<T>(s: seq<T>): (r: seq<T>)
    ensures |r| == |s|
    ensures forall i :: 0 <= i < |s| ==> r[i] == s[|s| - 1 - i]
  {
    if s == [] then [] else Reverse(s[1..]) + [s[0]]
  }

  /** What a run of saves should leave, for a run `rs` (oldest first) on top of
      the list `h`: everything, newest first, cut to the capacity. */
  function NewestFirst(rs: seq<CalculationResult>, h: seq<CalculationResult>): seq<CalculationResult> {
    (Reverse(rs) + h)[..Min(|rs| + |h|, Capacity)]
  }

  /** The storage effect of saving the records `rs` one after the other, each
      step reading the list, prepending and writing it back. A read that
      throws stops the run with the storage untouched. */
  function SaveAll(s: Store, rs: seq<CalculationResult>): (r: Store)
    ensures r.theme == s.theme
    ensures LoadHistory(s).Failure? ==> r == s
    ensures rs != [] && LoadHistory(s).Success? ==> LoadHistory(r).Success? && LoadHistory(r).value != []
    decreases |rs|
  {
    if rs == [] then s
    else match LoadHistory(s)
      case Failure(_) => s
      case Success(h) => SaveAll(WriteHistory(s, Prepend(rs[0], h)), rs[1..])
  }

  /** Prepending after a cut list is the same as cutting after prepending,
      as long as the cut kept everything the outer cut can reach. */
  lemma PrefixOfConcat(a: seq<CalculationResult>, b: seq<CalculationResult>, k: nat, m: nat)
    requires k <= |b|
    requires m <= |a| + k
    ensures (a + b[..k])[..m] == (a + b)[..m]
  {
  }

  /** Saving a run of records on a readable list leaves exactly the newest
      `Capacity` records of the run and the old list together, most recent
      first. A stored list longer than `Capacity` is cut by the first save,
      so only an empty run needs the list to be within the bound. */
  lemma {:induction false} SaveAllKeepsNewest(s: Store, h: seq<CalculationResult>, rs: seq<CalculationResult>)
    requires LoadHistory(s) == Success(h)
    requires |h| <= Capacity || rs != []
    ensures LoadHistory(SaveAll(s, rs)) == Success(NewestFirst(rs, h))
    decreases |rs|
  {
    if rs == [] {
      assert Reverse(rs) == [];
      assert Reverse(rs) + h == h;
      assert NewestFirst(rs, h) == h[..|h|] == h;
    } else {
      var h1 := Prepend(rs[0], h);
      var s1 := WriteHistory(s, h1);
      SaveAllKeepsNewest(s1, h1, rs[1..]);
      var a := Reverse(rs[1..]);
      assert Reverse(rs) + h == a + ([rs[0]] + h);
      assert h1 == ([rs[0]] + h)[..Min(|h| + 1, Capacity)];
      PrefixOfConcat(a, [rs[0]] + h, Min(|h| + 1, Capacity), Min(|rs[1..]| + |h1|, Capacity));
    }
  }

  /** From an empty store, any run of saves leaves at most `Capacity`
      records, the newest first, the last saved at the head. */
  lemma {:induction false} SavesFromEmpty(rs: seq<CalculationResult>)
    ensures LoadHistory(SaveAll(Empty, rs)) == Success(NewestFirst(rs, []))
    ensures |NewestFirst(rs, [])| == Min(|rs|, Capacity)
    ensures rs != [] ==> NewestFirst(rs, [])[0] == rs[|rs| - 1]
  {
    SaveAllKeepsNewest(Empty, [], rs);
    if rs != [] {
      ReverseHead(rs);
    }
  }

  lemma ReverseHead(s: seq<CalculationResult>)
    requires s != []
    ensures Reverse(s)[0] == s[|s| - 1]
  {
  }

  /** What the `History` component holds: the list it renders. */
  datatype HistoryView = HistoryView(entries: seq<CalculationResult>)

  /** `loadHistory`: replace the list with what storage holds; when parsing
      throws, the state is left as it was and the error escapes. */
  function Reload(v: HistoryView, s: Store): (r: Result<HistoryView, LoadError>)
    ensures r.Success? <==> LoadHistory(s).Success?
    ensures r.Success? ==> r.value.entries == LoadHistory(s).value
  {
    match LoadHistory(s)
    case Failure(e) => Failure(e)
    case Success(h) => Success(HistoryView(h))
  }

  /** Mounting: the list starts empty and the mount effect loads it. A
      `Failure` is the throw of that first load, which leaves the effect
      before it registers the `storage_update` listener, so after a failed
      mount no broadcast reloads the list. */
  function Mount(s: Store): (r: Result<HistoryView, LoadError>)
    ensures r.Success? <==> LoadHistory(s).Success?
    ensures s.history.None? ==> r == Success(HistoryView([]))
    ensures r.Success? ==> Success(r.value.entries) == LoadHistory(s)
  {
    Reload(HistoryView([]), s)
  }

  /** `clearHistory`: remove the key and empty the list. */
  function Clear(v: HistoryView, s: Store): (r: (HistoryView, Store))
    ensures r.0.entries == []
    ensures LoadHistory(r.1) == Success([])
    ensures r.1.theme == s.theme
  {
    (HistoryView([]), RemoveHistory(s))
  }

  /** The component renders nothing exactly when its list is empty. */
  predicate RendersNothing(v: HistoryView)
    ensures RendersNothing(v) <==> v.entries == []
  {
    |v.entries| == 0
  }

  /** After clearing, the component renders nothing and a reload (for
      instance a later mount) still finds nothing. */
  lemma ClearThenReload(v: HistoryView, s: Store)
    ensures RendersNothing(Clear(v, s).0)
    ensures Reload(Clear(v, s).0, Clear(v, s).1) == Success(HistoryView([]))
  {
  }
}
