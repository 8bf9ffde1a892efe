/**
 * The filter panel (src/components/PropertyFilters.js): eight text inputs,
 * the cleaning that turns them into the filter map handed to the list, the
 * reset, and whether any filter is active.
 *
 * `parse` stands for `parseFloat`: `Some(n)` for a string it reads as the
 * number `n`, `None` for NaN.
 */
module FilterPanel {
  import opened Js
  import opened Model

  /** The text held by the eight inputs, in the order the panel declares them. */
  datatype FilterInputs = FilterInputs(
    minPrice: string, maxPrice: string, city: string, name: string, address: string,
    minAreaSquareMeters: string, maxAreaSquareMeters: string, propertyType: string)

  const EmptyInputs := FilterInputs("", "", "", "", "", "", "", "")

  function InputOf(fi: FilterInputs, k: FilterKey): string {
    match k
    case MinPrice => fi.minPrice
    case MaxPrice => fi.maxPrice
    case City => fi.city
    case Name => fi.name
    case Address => fi.address
    case MinAreaSquareMeters => fi.minAreaSquareMeters
    case MaxAreaSquareMeters => fi.maxAreaSquareMeters
    case Type => fi.propertyType
  }

  /** `{...prev, [name]: value}`: one input replaced, the others kept. */
  function WithInput(fi: FilterInputs, k: FilterKey, value: string): (r: FilterInputs)
    ensures InputOf(r, k) == value
    ensures forall k' :: k' != k ==> InputOf(r, k') == InputOf(fi, k')
  {
    match k
    case MinPrice => fi.(minPrice := value)
    case MaxPrice => fi.(maxPrice := value)
    case City => fi.(city := value)
    case Name => fi.(name := value)
    case Address => fi.(address := value)
    case MinAreaSquareMeters => fi.(minAreaSquareMeters := value)
    case MaxAreaSquareMeters => fi.(maxAreaSquareMeters := value)
    case Type => fi.(propertyType := value)
  }

  /** The four keys whose value is kept only as a parsed number. */
  predicate IsNumericKey(k: FilterKey) {
    k == MinPrice || k == MaxPrice || k == MinAreaSquareMeters || k == MaxAreaSquareMeters
  }

  /** What one input contributes to the cleaned map. */
  function CleanEntry(fi: FilterInputs, k: FilterKey, parse: string -> Option<int>): (r: seq<(string, Value)>)
    ensures |r| <= 1
    ensures forall q :: q in r ==> q.0 == FilterKeyName(k)
  {
    var raw := InputOf(fi, k);
    if raw == "" then []
    else if IsNumericKey(k) then
      match parse(raw)
      case Some(n) => [(FilterKeyName(k), Num(n))]
      case None => []
    else [(FilterKeyName(k), Str(raw))]
  }

  /** The entries the keys in `keys` contribute, in the order of `keys`. */
  function CleanOver(fi: FilterInputs, keys: seq<FilterKey>, parse: string -> Option<int>): seq<(string, Value)>
    decreases |keys|
  {
    if keys == [] then []
    else CleanOver(fi, keys[..|keys| - 1], parse) + CleanEntry(fi, keys[|keys| - 1], parse)
  }

  /** The map `handleApplyFilters` hands to `onFilterChange`: at most eight entries, no key twice. */
  function CleanFilters(fi: FilterInputs, parse: string -> Option<int>): (c: seq<(string, Value)>)
    ensures |c| <= |FilterKeys|
    ensures forall i, j :: 0 <= i < j < |c| ==> c[i].0 != c[j].0
  {
    FilterKeysEnumeration();
    CleanOverKeys(fi, FilterKeys, parse);
    CleanOver(fi, FilterKeys, parse)
  }

  /** `Object.values(filters).some(value => value !== '')`: some input is not empty. */
  predicate HasActive(fi: FilterInputs): (active: bool)
    ensures active <==> exists k :: InputOf(fi, k) != ""
  {
    SomeInputNonEmpty(fi);
    exists i :: 0 <= i < |FilterKeys| && InputOf(fi, FilterKeys[i]) != ""
  }

  /** Looking through the keys in declaration order finds every non-empty input. */
  lemma SomeInputNonEmpty(fi: FilterInputs)
    ensures (exists i :: 0 <= i < |FilterKeys| && InputOf(fi, FilterKeys[i]) != "")
      <==> exists k :: InputOf(fi, k) != ""
  {
    if exists k :: InputOf(fi, k) != "" {
      var k :| InputOf(fi, k) != "";
      assert FilterKeys[KeyIndex(k)] == k;
    }
  }

  /** The panel's state: the `filters` object it updates in place. */
  class PropertyFilters {
    var filters: FilterInputs

    constructor ()
      ensures filters == EmptyInputs
    {
      filters := EmptyInputs;
    }

    predicate HasActiveFilters()
      reads this
    {
      HasActive(filters)
    }

    /** `handleInputChange`: the named input takes the new text. */
    method HandleInputChange(k: FilterKey, value: string)
      modifies this
      ensures filters == WithInput(old(filters), k, value)
      ensures InputOf(filters, k) == value
      ensures forall k' :: k' != k ==> InputOf(filters, k') == InputOf(old(filters), k')
    {
      filters := WithInput(filters, k, value);
    }

    /** `handleApplyFilters`: the loop that builds the map handed to `onFilterChange`. */
    method HandleApplyFilters(parse: string -> Option<int>) returns (clean: seq<(string, Value)>)
      ensures clean == CleanFilters(filters, parse)
    {
      clean := [];
      var i := 0;
      while i < |FilterKeys|
        invariant 0 <= i <= |FilterKeys|
        invariant clean == CleanOver(filters, FilterKeys[..i], parse)
      {
        var key := FilterKeys[i];
        var value := InputOf(filters, key);
        if value != "" {
          if IsNumericKey(key) {
            var numValue := parse(value);
            if numValue.Some? {
              clean := clean + [(FilterKeyName(key), Num(numValue.value))];
            }
          } else {
            clean := clean + [(FilterKeyName(key), Str(value))];
          }
        }
        assert FilterKeys[..i + 1][..i] == FilterKeys[..i];
        i := i + 1;
      }
      assert FilterKeys[..i] == FilterKeys;
    }

    /** `handleClearFilters`: every input emptied; the caller is then notified through `onClear`. */
    method HandleClearFilters()
      modifies this
      ensures filters == EmptyInputs
      ensures !HasActiveFilters()
    {
      filters := EmptyInputs;
    }
  }

  // ---------------------------------------------------------------------------
  // What the cleaned map contains
  // ---------------------------------------------------------------------------

  lemma FilterKeyNameInjective(a: FilterKey, b: FilterKey)
    ensures FilterKeyName(a) == FilterKeyName(b) ==> a == b
  {
  }

  function Names(keys: seq<FilterKey>): seq<string> {
    seq(|keys|, i requires 0 <= i < |keys| => FilterKeyName(keys[i]))
  }

  /** An entry is in the cleaned map exactly when one of the keys contributes it. */
  lemma {:induction false} CleanOverMembership(fi: FilterInputs, keys: seq<FilterKey>, parse: string -> Option<int>, p: (string, Value))
    ensures p in CleanOver(fi, keys, parse) <==> exists k :: k in keys && p in CleanEntry(fi, k, parse)
    decreases |keys|
  {
    if keys != [] {
      var init := keys[..|keys| - 1];
      CleanOverMembership(fi, init, parse, p);
      assert forall k :: k in keys <==> k in init || k == keys[|keys| - 1];
    }
  }

  /** The cleaned map has only keys from `keys`, each at most once, when their names differ. */
  lemma {:induction false} CleanOverKeys(fi: FilterInputs, keys: seq<FilterKey>, parse: string -> Option<int>)
    requires forall i, j :: 0 <= i < j < |keys| ==> FilterKeyName(keys[i]) != FilterKeyName(keys[j])
    ensures var c := CleanOver(fi, keys, parse);
      && |c| <= |keys|
      && (forall i :: 0 <= i < |c| ==> exists j :: 0 <= j < |keys| && c[i].0 == FilterKeyName(keys[j]))
      && (forall i, j :: 0 <= i < j < |c| ==> c[i].0 != c[j].0)
    decreases |keys|
  {
    if keys != [] {
      var n := |keys| - 1;
      var init := keys[..n];
      CleanOverKeys(fi, init, parse);
      var c0 := CleanOver(fi, init, parse);
      var e := CleanEntry(fi, keys[n], parse);
      var c := c0 + e;
      assert forall i :: |c0| <= i < |c| ==> c[i] in e;
      forall i | 0 <= i < |c0|
        ensures c[i].0 != FilterKeyName(keys[n])
        ensures exists j :: 0 <= j < |keys| && c[i].0 == FilterKeyName(keys[j])
      {
        var j :| 0 <= j < |init| && c0[i].0 == FilterKeyName(init[j]);
        assert init[j] == keys[j];
      }
    }
  }

  /**
   * A key is in the applied map exactly when its input is non-empty and, for
   * the four numeric keys, parses; numeric values are stored as the parsed
   * number, the others as the text typed.
   */
  lemma CleanFiltersMembership(fi: FilterInputs, parse: string -> Option<int>, k: FilterKey, v: Value)
    ensures (FilterKeyName(k), v) in CleanFilters(fi, parse) <==>
      && InputOf(fi, k) != ""
      && (IsNumericKey(k) ==> v.Num? && parse(InputOf(fi, k)) == Some(v.n))
      && (!IsNumericKey(k) ==> v == Str(InputOf(fi, k)))
  {
    var p := (FilterKeyName(k), v);
    CleanOverMembership(fi, FilterKeys, parse, p);
    FilterKeysEnumeration();
    CleanEntryContents(fi, k, parse, v);
    if p in CleanFilters(fi, parse) {
      var k' :| k' in FilterKeys && p in CleanEntry(fi, k', parse);
      FilterKeyNameInjective(k, k');
    } else {
      assert p !in CleanEntry(fi, k, parse);
    }
  }

  lemma CleanEntryContents(fi: FilterInputs, k: FilterKey, parse: string -> Option<int>, v: Value)
    ensures (FilterKeyName(k), v) in CleanEntry(fi, k, parse) <==>
      && InputOf(fi, k) != ""
      && (IsNumericKey(k) ==> v.Num? && parse(InputOf(fi, k)) == Some(v.n))
      && (!IsNumericKey(k) ==> v == Str(InputOf(fi, k)))
  {
    if InputOf(fi, k) != "" && IsNumericKey(k) {
      match parse(InputOf(fi, k))
      case Some(n) =>
      case None =>
    }
  }

  /** The applied map uses only the eight filter names. */
  lemma CleanFiltersKeys(fi: FilterInputs, parse: string -> Option<int>)
    ensures var c := CleanFilters(fi, parse);
      forall i :: 0 <= i < |c| ==> c[i].0 in Names(FilterKeys)
  {
    FilterKeysEnumeration();
    CleanOverKeys(fi, FilterKeys, parse);
    var c := CleanFilters(fi, parse);
    forall i | 0 <= i < |c| ensures c[i].0 in Names(FilterKeys) {
      var j :| 0 <= j < |FilterKeys| && c[i].0 == FilterKeyName(FilterKeys[j]);
      assert Names(FilterKeys)[j] == c[i].0;
    }
  }

  /** Only when some input is non-empty can the applied map have an entry. */
  lemma InactiveFiltersApplyNothing(fi: FilterInputs, parse: string -> Option<int>)
    requires !HasActive(fi)
    ensures CleanFilters(fi, parse) == []
  {
    EmptyInputsCleanToNothing(fi, FilterKeys, parse);
  }

  lemma {:induction false} EmptyInputsCleanToNothing(fi: FilterInputs, keys: seq<FilterKey>, parse: string -> Option<int>)
    requires forall i :: 0 <= i < |keys| ==> InputOf(fi, keys[i]) == ""
    ensures CleanOver(fi, keys, parse) == []
    decreases |keys|
  {
    if keys != [] {
      EmptyInputsCleanToNothing(fi, keys[..|keys| - 1], parse);
    }
  }
}
