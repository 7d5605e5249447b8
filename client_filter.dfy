/**
 * The browser client's filter state and the `filteredRobotEvents` view over
 * the fetched robot events (app/bd-robots-app/src/App.jsx).
 *
 * The filter state is a JavaScript object. It is modelled as its list of
 * properties in property order, because `handleFilterChange` accepts any key:
 * FilterControls.jsx sends the key `name` for the search box, which adds a
 * sixth property that the filter never reads (it reads `robot`), and it offers
 * the status option `all`, which the filter compares literally.
 */
module ClientFilter {
  import opened Wrappers
  import opened Strings
  import opened Seqs

  /** A robot event as the list endpoint hands it to the browser; `createdAt` is its JSON text. */
  datatype RobotEvent = RobotEvent(id: string, robot: string, status: string, description: string, createdAt: string)

  /** The `filters` object: its (key, value) properties in property order. */
  type FilterSpec = seq<(string, string)>

  /** The keys of the initial filter object, in declaration order. */
  const FilterKeys: seq<string> := ["robot", "dateFrom", "dateTo", "status", "description"]

  /** The initial filter object, which `handleClearFilters` also restores. */
  const EmptyFilters: FilterSpec :=
    [("robot", ""), ("dateFrom", ""), ("dateTo", ""), ("status", ""), ("description", "")]

  function Keys(f: FilterSpec): (ks: seq<string>)
    ensures |ks| == |f|
    ensures forall i :: 0 <= i < |f| ==> ks[i] == f[i].0
  {
    seq(|f|, i requires 0 <= i < |f| => f[i].0)
  }

  /** No key occurs twice, as in any JavaScript object. */
  predicate DistinctKeys(f: FilterSpec) {
    var ks := Keys(f);
    forall i, j :: 0 <= i < j < |ks| ==> ks[i] != ks[j]
  }

  /** The filter objects the app can reach: distinct keys, the five declared keys first and in order. */
  ghost predicate WellFormed(f: FilterSpec) {
    DistinctKeys(f) && |f| >= 5 && Keys(f)[..5] == FilterKeys
  }

  /** The property read `filters[key]`; None is `undefined`. */
  function Lookup(f: FilterSpec, key: string): (r: Option<string>)
    ensures r.None? <==> key !in Keys(f)
    ensures r.Some? ==> (key, r.value) in f
    decreases |f|
  {
    if |f| == 0 then None
    else if f[0].0 == key then Some(f[0].1)
    else
      assert Keys(f) == [f[0].0] + Keys(f[1..]);
      Lookup(f[1..], key)
  }

  /** A key's value as the filter's truthiness tests see it: `undefined` is falsy like `''`. */
  function Field(f: FilterSpec, key: string): string {
    Lookup(f, key).GetOr("")
  }

  /** In an object with distinct keys, reading the key of an entry gives that entry's value. */
  lemma {:induction false} LookupEntry(f: FilterSpec, i: int)
    requires DistinctKeys(f)
    requires 0 <= i < |f|
    ensures Lookup(f, f[i].0) == Some(f[i].1)
    decreases |f|
  {
    if i > 0 {
      var ks := Keys(f);
      assert ks[0] == f[0].0 && ks[i] == f[i].0;
      var tail := f[1..];
      assert DistinctKeys(tail) by {
        var ts := Keys(tail);
        forall a, b | 0 <= a < b < |ts| ensures ts[a] != ts[b] {
          assert ts[a] == ks[a + 1] && ts[b] == ks[b + 1];
        }
      }
      assert tail[i - 1] == f[i];
      LookupEntry(tail, i - 1);
    }
  }

  /**
   * `handleFilterChange(key, value)`: `{...prev, [key]: value}`. An existing
   * property keeps its place and takes the new value; a new key is appended.
   */
  function SetFilter(f: FilterSpec, key: string, value: string): (r: FilterSpec)
    ensures Lookup(r, key) == Some(value)
    ensures forall k :: k != key ==> Lookup(r, k) == Lookup(f, k)
    decreases |f|
  {
    if |f| == 0 then [(key, value)]
    else if f[0].0 == key then [(key, value)] + f[1..]
    else [f[0]] + SetFilter(f[1..], key, value)
  }

  lemma KeysCons(x: (string, string), f: FilterSpec)
    ensures Keys([x] + f) == [x.0] + Keys(f)
  {
  }

  /** Where the changed key sits: in place when the object already has it, appended otherwise. */
  lemma {:induction false} SetFilterKeys(f: FilterSpec, key: string, value: string)
    ensures key in Keys(f) ==> Keys(SetFilter(f, key, value)) == Keys(f)
    ensures key !in Keys(f) ==> Keys(SetFilter(f, key, value)) == Keys(f) + [key]
    decreases |f|
  {
    if |f| > 0 {
      KeysCons(f[0], f[1..]);
      assert [f[0]] + f[1..] == f;
      if f[0].0 == key {
        KeysCons((key, value), f[1..]);
      } else {
        SetFilterKeys(f[1..], key, value);
        KeysCons(f[0], SetFilter(f[1..], key, value));
      }
    }
  }

  /** Changing a filter keeps the object well formed, whatever the key. */
  lemma SetFilterWellFormed(f: FilterSpec, key: string, value: string)
    requires WellFormed(f)
    ensures WellFormed(SetFilter(f, key, value))
  {
    var r := SetFilter(f, key, value);
    SetFilterKeys(f, key, value);
    if key !in Keys(f) {
      AppendedKeyDistinct(f, r, key);
    }
  }

  /** Appending a key the object lacks keeps the keys distinct and the existing ones in front. */
  lemma AppendedKeyDistinct(f: FilterSpec, r: FilterSpec, key: string)
    requires DistinctKeys(f) && key !in Keys(f)
    requires Keys(r) == Keys(f) + [key]
    ensures DistinctKeys(r) && Keys(r)[..|f|] == Keys(f)
  {
    var ks, rs := Keys(f), Keys(r);
    forall i, j | 0 <= i < j < |rs| ensures rs[i] != rs[j] {
      assert rs[i] == ks[i];
      if j < |ks| {
        assert rs[j] == ks[j];
      }
    }
  }

  /**
   * A key that JavaScript treats as an array index: the canonical decimal
   * text of a number below 2^32 - 1. Such keys are listed before every other
   * key, which `SetFilter` does not model.
   */
  predicate IsArrayIndex(key: string) {
    && |key| > 0
    && (forall i :: 0 <= i < |key| ==> IsDigit(key[i]))
    && (key[0] != '0' || |key| == 1)
    && ParseNat(key) < 0xFFFF_FFFF
  }

  /** The keys FilterControls.jsx passes to `handleFilterChange`. */
  const ControlKeys: seq<string> := ["name", "dateFrom", "dateTo", "status"]

  /** None of the keys the filter controls send is an array index, so each is placed as `SetFilter` places it. */
  lemma ControlKeysAreNotArrayIndices()
    ensures forall i :: 0 <= i < |ControlKeys| ==> !IsArrayIndex(ControlKeys[i])
  {
    forall i | 0 <= i < |ControlKeys| ensures !IsArrayIndex(ControlKeys[i]) {
      assert !IsDigit(ControlKeys[i][0]);
    }
  }

  /** JavaScript `a >= b` on two Dates: false when either is an Invalid Date (None). */
  predicate AtOrAfter(a: Option<int>, b: Option<int>) {
    a.Some? && b.Some? && a.value >= b.value
  }

  /** `matchesName`: lower-cased robot name includes the lower-cased query (not guarded by emptiness). */
  predicate MatchesName(e: RobotEvent, f: FilterSpec) {
    Contains(Lower(e.robot), Lower(Field(f, "robot")))
  }

  /** `matchesDateFrom`, with `parseDate` standing for `new Date(...)`. */
  predicate MatchesDateFrom(e: RobotEvent, f: FilterSpec, parseDate: string -> Option<int>) {
    Field(f, "dateFrom") == "" || AtOrAfter(parseDate(e.createdAt), parseDate(Field(f, "dateFrom")))
  }

  /** `matchesDateTo`. */
  predicate MatchesDateTo(e: RobotEvent, f: FilterSpec, parseDate: string -> Option<int>) {
    Field(f, "dateTo") == "" || AtOrAfter(parseDate(Field(f, "dateTo")), parseDate(e.createdAt))
  }

  /** `matchesStatus`: strict equality unless the status filter is empty. */
  predicate MatchesStatus(e: RobotEvent, f: FilterSpec) {
    Field(f, "status") == "" || e.status == Field(f, "status")
  }

  /** `matchesDescription`: case-sensitive `includes` unless the description filter is empty. */
  predicate MatchesDescription(e: RobotEvent, f: FilterSpec) {
    Field(f, "description") == "" || Contains(e.description, Field(f, "description"))
  }

  /** The callback given to `.filter`: the conjunction of the five tests. */
  predicate Matches(e: RobotEvent, f: FilterSpec, parseDate: string -> Option<int>) {
    && MatchesName(e, f)
    && MatchesDateFrom(e, f, parseDate)
    && MatchesDateTo(e, f, parseDate)
    && MatchesStatus(e, f)
    && MatchesDescription(e, f)
  }

  /**
   * `filteredRobotEvents`. `filters.robot.toLowerCase()` throws when the
   * object has no `robot` property, hence the precondition.
   */
  function FilteredRobotEvents(events: seq<RobotEvent>, f: FilterSpec, parseDate: string -> Option<int>)
    : (r: seq<RobotEvent>)
    requires Lookup(f, "robot").Some?
    ensures |r| <= |events|
    ensures forall e :: e in r <==> e in events && Matches(e, f, parseDate)
    decreases |events|
  {
    if |events| == 0 then []
    else
      var rest := FilteredRobotEvents(events[1..], f, parseDate);
      assert forall e :: e in events <==> e == events[0] || e in events[1..];
      if Matches(events[0], f, parseDate) then [events[0]] + rest else rest
  }

  /** The filtered list keeps the fetched order: it is a subsequence of `robotEvents`. */
  lemma {:induction false} FilteredIsSubsequence(events: seq<RobotEvent>, f: FilterSpec, parseDate: string -> Option<int>)
    requires Lookup(f, "robot").Some?
    ensures IsSubsequence(FilteredRobotEvents(events, f, parseDate), events)
    decreases |events|
  {
    if |events| > 0 {
      FilteredIsSubsequence(events[1..], f, parseDate);
      var r := FilteredRobotEvents(events, f, parseDate);
      if Matches(events[0], f, parseDate) {
        assert r[1..] == FilteredRobotEvents(events[1..], f, parseDate);
      }
    }
  }

  /** No copy of a passing event is dropped: each occurs as often as in the fetched list. */
  lemma {:induction false} FilteredMultiplicity(events: seq<RobotEvent>, f: FilterSpec, parseDate: string -> Option<int>)
    requires Lookup(f, "robot").Some?
    ensures forall e :: multiset(FilteredRobotEvents(events, f, parseDate))[e] ==
                        if Matches(e, f, parseDate) then multiset(events)[e] else 0
    decreases |events|
  {
    if |events| > 0 {
      FilteredMultiplicity(events[1..], f, parseDate);
      assert events == [events[0]] + events[1..];
      assert multiset(events) == multiset([events[0]]) + multiset(events[1..]);
    }
  }

  /** Filtering an already filtered list with the same filters changes nothing. */
  lemma {:induction false} FilteredIdempotent(events: seq<RobotEvent>, f: FilterSpec, parseDate: string -> Option<int>)
    requires Lookup(f, "robot").Some?
    ensures var once := FilteredRobotEvents(events, f, parseDate);
            FilteredRobotEvents(once, f, parseDate) == once
    decreases |events|
  {
    if |events| > 0 {
      FilteredIdempotent(events[1..], f, parseDate);
      var once := FilteredRobotEvents(events, f, parseDate);
      if Matches(events[0], f, parseDate) {
        assert once[1..] == FilteredRobotEvents(events[1..], f, parseDate);
      }
    }
  }

  /** Every filter field is empty, as after `handleClearFilters`. */
  predicate IsCleared(f: FilterSpec) {
    && Lookup(f, "robot") == Some("")
    && Field(f, "dateFrom") == ""
    && Field(f, "dateTo") == ""
    && Field(f, "status") == ""
    && Field(f, "description") == ""
  }

  /** With every field empty, every event passes and the filtered list is the fetched list. */
  lemma {:induction false} ClearedFiltersKeepAll(events: seq<RobotEvent>, f: FilterSpec, parseDate: string -> Option<int>)
    requires IsCleared(f)
    ensures FilteredRobotEvents(events, f, parseDate) == events
    decreases |events|
  {
    if |events| > 0 {
      ContainsEmpty(Lower(events[0].robot));
      ClearedFiltersKeepAll(events[1..], f, parseDate);
      assert [events[0]] + events[1..] == events;
    }
  }

  /** The initial filter object has every field empty. */
  lemma EmptyFiltersCleared()
    ensures IsCleared(EmptyFilters)
  {
  }

  /** The initial filter object declares the five keys once each, in order. */
  lemma EmptyFiltersWellFormed()
    ensures WellFormed(EmptyFilters)
  {
    assert Keys(EmptyFilters) == FilterKeys;
  }

  /** The filter reads only the five declared keys: objects that agree on them filter alike. */
  lemma {:induction false} FilteredReadsDeclaredKeys(events: seq<RobotEvent>, f: FilterSpec, g: FilterSpec,
                                                     parseDate: string -> Option<int>)
    requires Lookup(f, "robot").Some? && Lookup(g, "robot") == Lookup(f, "robot")
    requires forall k :: k in FilterKeys ==> Field(f, k) == Field(g, k)
    ensures FilteredRobotEvents(events, f, parseDate) == FilteredRobotEvents(events, g, parseDate)
    decreases |events|
  {
    if |events| > 0 {
      assert Field(f, "robot") == Field(g, "robot");
      assert Field(f, "dateFrom") == Field(g, "dateFrom");
      assert Field(f, "dateTo") == Field(g, "dateTo");
      assert Field(f, "status") == Field(g, "status");
      assert Field(f, "description") == Field(g, "description");
      assert Matches(events[0], f, parseDate) == Matches(events[0], g, parseDate);
      FilteredReadsDeclaredKeys(events[1..], f, g, parseDate);
    }
  }

  /**
   * The search box of FilterControls.jsx calls `handleFilterChange('name', v)`;
   * the filter reads `robot`, so typing in it never changes the filtered list.
   */
  lemma NameKeyIgnored(events: seq<RobotEvent>, f: FilterSpec, v: string, parseDate: string -> Option<int>)
    requires Lookup(f, "robot").Some?
    ensures FilteredRobotEvents(events, SetFilter(f, "name", v), parseDate) == FilteredRobotEvents(events, f, parseDate)
  {
    var g := SetFilter(f, "name", v);
    forall k | k in FilterKeys ensures Field(f, k) == Field(g, k) {
      assert k != "name";
    }
    FilteredReadsDeclaredKeys(events, f, g, parseDate);
  }

  /**
   * The status value `all` offered by FilterControls.jsx is compared literally:
   * only events whose status is the text `all` pass, so none of the seeded statuses do.
   */
  lemma StatusAllIsLiteral(events: seq<RobotEvent>, f: FilterSpec, parseDate: string -> Option<int>)
    requires Lookup(f, "robot").Some? && Field(f, "status") == "all"
    requires forall i :: 0 <= i < |events| ==> events[i].status != "all"
    ensures FilteredRobotEvents(events, f, parseDate) == []
  {
  }

  /** The robot test is substring containment after lower-casing both sides. */
  lemma NameTestIsCaseInsensitiveSubstring(e: RobotEvent, f: FilterSpec)
    ensures MatchesName(e, f) <==> exists i :: OccursAt(Lower(e.robot), Lower(Field(f, "robot")), i)
    ensures MatchesName(e, f) <==> MatchesName(e.(robot := Lower(e.robot)), f)
  {
    ContainsIff(Lower(e.robot), Lower(Field(f, "robot")));
    LowerIdempotent(e.robot);
  }

  /** The description test is case-sensitive substring containment, skipped when the field is empty. */
  lemma DescriptionTestIsSubstring(e: RobotEvent, f: FilterSpec)
    ensures MatchesDescription(e, f) <==>
              Field(f, "description") == "" || exists i :: OccursAt(e.description, Field(f, "description"), i)
  {
    ContainsIff(e.description, Field(f, "description"));
  }

  /**
   * Both date bounds are inclusive and each is skipped when its field is empty;
   * an event date or a bound that does not parse fails every non-empty bound.
   */
  lemma DateBoundsInclusive(e: RobotEvent, f: FilterSpec, parseDate: string -> Option<int>)
    ensures Field(f, "dateFrom") != "" && parseDate(e.createdAt).Some? && parseDate(Field(f, "dateFrom")).Some? ==>
              (MatchesDateFrom(e, f, parseDate) <==> parseDate(e.createdAt).value >= parseDate(Field(f, "dateFrom")).value)
    ensures Field(f, "dateTo") != "" && parseDate(e.createdAt).Some? && parseDate(Field(f, "dateTo")).Some? ==>
              (MatchesDateTo(e, f, parseDate) <==> parseDate(e.createdAt).value <= parseDate(Field(f, "dateTo")).value)
    ensures Field(f, "dateFrom") == "" ==> MatchesDateFrom(e, f, parseDate)
    ensures Field(f, "dateTo") == "" ==> MatchesDateTo(e, f, parseDate)
    ensures parseDate(e.createdAt).None? ==>
              (MatchesDateFrom(e, f, parseDate) <==> Field(f, "dateFrom") == "") &&
              (MatchesDateTo(e, f, parseDate) <==> Field(f, "dateTo") == "")
    ensures Field(f, "dateFrom") != "" && parseDate(Field(f, "dateFrom")).None? ==> !MatchesDateFrom(e, f, parseDate)
    ensures Field(f, "dateTo") != "" && parseDate(Field(f, "dateTo")).None? ==> !MatchesDateTo(e, f, parseDate)
  {
  }
}
