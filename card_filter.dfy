/**
 * `CardFilter`: a card whose filter panel edits a map from field keys to strings. The map
 * starts from the current filters restricted to the declared fields, one key changes per edit,
 * and clearing resets every declared key to ''.
 */
module CardFilter {
  import opened Wrappers
  import opened Seqs

  datatype FieldType = TextField | DateField | SelectField

  datatype FilterField = FilterField(key: string, fieldLabel: string, fieldType: FieldType, show: Option<bool>)

  /** The callbacks the card calls, in order. */
  datatype Callback = FiltersChanged(filters: map<string, string>) | Cleared

  /** The keys of the declared fields. */
  function FieldKeys(fields: seq<FilterField>): (keys: set<string>)
    ensures forall i :: 0 <= i < |fields| ==> fields[i].key in keys
    ensures forall k :: k in keys ==> exists i :: 0 <= i < |fields| && fields[i].key == k
  {
    set i | 0 <= i < |fields| :: fields[i].key
  }

  lemma FieldKeysSnoc(fields: seq<FilterField>, i: nat)
    requires i < |fields|
    ensures FieldKeys(fields[..i + 1]) == FieldKeys(fields[..i]) + {fields[i].key}
  {
    assert fields[..i + 1][i] == fields[i];
    forall k | k in FieldKeys(fields[..i + 1]) ensures k in FieldKeys(fields[..i]) + {fields[i].key} {
      var j :| 0 <= j < i + 1 && fields[..i + 1][j].key == k;
      if j < i {
        assert fields[..i][j] == fields[j];
      }
    }
  }

  /** `currentFilters[key] || ''`: a missing or empty value reads as ''. */
  function CurrentValue(current: map<string, string>, key: string): (v: string)
    ensures key in current ==> v == current[key]
    ensures key !in current ==> v == ""
  {
    if key in current then current[key] else ""
  }

  /** The map `initialFilters` computes. */
  function InitialFilters(fields: seq<FilterField>, current: map<string, string>): (m: map<string, string>)
    ensures m.Keys == FieldKeys(fields)
    ensures forall k :: k in m ==> m[k] == CurrentValue(current, k)
  {
    map k | k in FieldKeys(fields) :: CurrentValue(current, k)
  }

  /** The map `clearFilters` computes. */
  function ClearedFilters(fields: seq<FilterField>): (m: map<string, string>)
    ensures m.Keys == FieldKeys(fields)
    ensures forall k :: k in m ==> m[k] == ""
  {
    map k | k in FieldKeys(fields) :: ""
  }

  /** The `forEach` of `initialFilters`. */
  method BuildInitialFilters(fields: seq<FilterField>, current: map<string, string>) returns (m: map<string, string>)
    ensures m == InitialFilters(fields, current)
  {
    m := map[];
    var i := 0;
    while i < |fields|
      invariant 0 <= i <= |fields|
      invariant m == InitialFilters(fields[..i], current)
    {
      FieldKeysSnoc(fields, i);
      m := m[fields[i].key := CurrentValue(current, fields[i].key)];
      i := i + 1;
    }
    assert fields[..i] == fields;
  }

  /** The `forEach` of `clearFilters`. */
  method BuildClearedFilters(fields: seq<FilterField>) returns (m: map<string, string>)
    ensures m == ClearedFilters(fields)
  {
    m := map[];
    var i := 0;
    while i < |fields|
      invariant 0 <= i <= |fields|
      invariant m == ClearedFilters(fields[..i])
    {
      FieldKeysSnoc(fields, i);
      m := m[fields[i].key := ""];
      i := i + 1;
    }
    assert fields[..i] == fields;
  }

  /** `field.show !== false`. */
  predicate Visible(field: FilterField) {
    field.show != Some(false)
  }

  /** The fields `renderFilterFields` renders, in their original order. */
  function VisibleFields(fields: seq<FilterField>): (r: seq<FilterField>)
    ensures Subsequence(r, fields)
    ensures forall f :: f in r ==> f.show != Some(false)
    ensures forall f :: f in fields && f.show != Some(false) ==> f in r
  {
    FilterSubsequence(fields, (f: FilterField) => Visible(f));
    Filter(fields, (f: FilterField) => Visible(f))
  }

  class Card {
    const fields: seq<FilterField>
    const hasOnFiltersChange: bool
    const hasOnClear: bool
    var filters: map<string, string>
    var showFilters: bool

    /** The first render: `useState(initialFilters)` with the panel closed. */
    constructor(fields: seq<FilterField>, current: map<string, string>, hasOnFiltersChange: bool, hasOnClear: bool)
      ensures this.fields == fields && this.hasOnFiltersChange == hasOnFiltersChange && this.hasOnClear == hasOnClear
      ensures filters == InitialFilters(fields, current) && !showFilters
    {
      this.fields := fields;
      this.hasOnFiltersChange := hasOnFiltersChange;
      this.hasOnClear := hasOnClear;
      var initial := BuildInitialFilters(fields, current);
      filters := initial;
      showFilters := false;
    }

    /** `handleFilterChange(key, value)`: the new map goes to `onFiltersChange` when given. */
    method FilterChange(key: string, value: string) returns (calls: seq<Callback>)
      modifies this`filters
      ensures filters == old(filters)[key := value]
      ensures key in filters && filters[key] == value
      ensures forall k :: k != key ==>
        (k in filters <==> k in old(filters)) && (k in filters ==> filters[k] == old(filters)[k])
      ensures calls == if hasOnFiltersChange then [FiltersChanged(filters)] else []
    {
      filters := filters[key := value];
      calls := if hasOnFiltersChange then [FiltersChanged(filters)] else [];
    }

    /** `clearFilters`: `onFiltersChange` with the cleared map, then `onClear`. */
    method ClearFilters() returns (calls: seq<Callback>)
      modifies this`filters
      ensures filters == ClearedFilters(fields)
      ensures calls == (if hasOnFiltersChange then [FiltersChanged(filters)] else []) +
        (if hasOnClear then [Cleared] else [])
    {
      filters := BuildClearedFilters(fields);
      calls := [];
      if hasOnFiltersChange {
        calls := calls + [FiltersChanged(filters)];
      }
      if hasOnClear {
        calls := calls + [Cleared];
      }
    }

    /** The filter button: `setShowFilters(!showFilters)`. */
    method ToggleFilters()
      modifies this`showFilters
      ensures showFilters == !old(showFilters)
    {
      showFilters := !showFilters;
    }
  }

  /** Clearing gives the filters a card starts with when no current filters are passed in. */
  lemma ClearedIsFreshStart(fields: seq<FilterField>)
    ensures ClearedFilters(fields) == InitialFilters(fields, map[])
  {
  }

  /**
   * Feeding the card's own filters back in as `currentFilters` (as a parent that stores what
   * `onFiltersChange` reports does) starts the card on exactly those filters again.
   */
  lemma InitialFiltersFixpoint(fields: seq<FilterField>, current: map<string, string>)
    ensures InitialFilters(fields, InitialFilters(fields, current)) == InitialFilters(fields, current)
  {
  }
}
