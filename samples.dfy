/**
 * The rows of bdapi/populate_robot_event.js as test data for the browser-side
 * filter. Timestamps are seconds since the Unix epoch (UTC).
 */
module ClientSamples {
  import opened Wrappers
  import opened Strings
  import opened ClientFilter

  /**
   * The first two seeded events as the list endpoint sends them: the stored
   * date comes back naive, so `createdAt` has no zone designator, and `new
   * Date` reads it in the browser's time zone. The ids stand for the text of
   * the ObjectIds.
   */
  const ActiveKnight: RobotEvent := RobotEvent("1", "blackknight", "active", "None Shall Pass.", "2025-07-09T10:29:05")
  const ErrorKnight: RobotEvent := RobotEvent("2", "blackknight", "error", "Your arm's off!", "2025-07-09T10:30:00")

  /** In the browser, the status filter `active` keeps exactly the active event of the pair. */
  lemma ClientStatusActive(parseDate: string -> Option<int>)
    ensures FilteredRobotEvents([ActiveKnight, ErrorKnight], SetFilter(EmptyFilters, "status", "active"), parseDate)
            == [ActiveKnight]
  {
    var f := SetFilter(EmptyFilters, "status", "active");
    EmptyFiltersCleared();
    assert Lookup(f, "robot") == Some("");
    assert Field(f, "status") == "active";
    assert Field(f, "dateFrom") == "" && Field(f, "dateTo") == "" && Field(f, "description") == "";
    ContainsEmpty(Lower(ActiveKnight.robot));
    assert Matches(ActiveKnight, f, parseDate);
    StatusMismatch(ErrorKnight, f);
    FilterPair(ActiveKnight, ErrorKnight, f, parseDate);
  }

  /** Filtering a pair keeps each of the two exactly when it passes, in order. */
  lemma FilterPair(a: RobotEvent, b: RobotEvent, f: FilterSpec, parseDate: string -> Option<int>)
    requires Lookup(f, "robot").Some?
    ensures FilteredRobotEvents([a, b], f, parseDate) ==
              (if Matches(a, f, parseDate) then [a] else []) + (if Matches(b, f, parseDate) then [b] else [])
  {
    assert [a, b][1..] == [b];
  }

  /** An event whose status differs in length from the filter's fails the strict status test. */
  lemma StatusMismatch(e: RobotEvent, f: FilterSpec)
    requires Field(f, "status") != ""
    requires |e.status| != |Field(f, "status")|
    ensures !MatchesStatus(e, f)
  {
  }

  /**
   * In a browser on UTC, the `dateFrom` bound is inclusive: with the bound at
   * the second seeded event's time, that event passes and the first one,
   * 55 seconds earlier, does not.
   */
  lemma ClientDateFromInclusive(parseDate: string -> Option<int>, bound: string)
    requires bound != ""
    requires parseDate(bound) == Some(1752057000)
    requires parseDate(ActiveKnight.createdAt) == Some(1752056945)
    requires parseDate(ErrorKnight.createdAt) == Some(1752057000)
    ensures FilteredRobotEvents([ActiveKnight, ErrorKnight], SetFilter(EmptyFilters, "dateFrom", bound), parseDate)
            == [ErrorKnight]
  {
    var f := SetFilter(EmptyFilters, "dateFrom", bound);
    EmptyFiltersCleared();
    assert Lookup(f, "robot") == Some("");
    assert Field(f, "dateFrom") == bound;
    assert Field(f, "status") == "" && Field(f, "dateTo") == "" && Field(f, "description") == "";
    ContainsEmpty(Lower(ErrorKnight.robot));
    assert Matches(ErrorKnight, f, parseDate);
    assert !MatchesDateFrom(ActiveKnight, f, parseDate);
    FilterPair(ActiveKnight, ErrorKnight, f, parseDate);
  }
}

/** The rows of bdapi/populate_robot_event.js as a collection for the API's queries. */
module ServerSamples {
  import opened Wrappers
  import opened Mongo
  import opened Api

  const Seed: seq<Doc> := [
    Doc("1", "blackknight", "active", "None Shall Pass.", 1752056945),
    Doc("2", "blackknight", "error", "Your arm's off!", 1752057000),
    Doc("3", "blackknight", "active", "It's a flesh wound", 1752057005),
    Doc("4", "blackknight", "maintenance", "I'll bite your legs off!", 1752057015),
    Doc("5", "patsy", "active", "Come along, Patsy", 1751981415),
    Doc("6", "patsy", "active", "coconut noises", 1751967015),
    Doc("7", "patsy", "inactive", "And they ate their minstrels, and there was much rejoicing.", 1752154215),
    Doc("8", "Zoot", "active", "Oh, sh*t.", 1752067815),
    Doc("9", "bridgekeeper", "active", "What is your name?", 1752247815),
    Doc("10", "bridgekeeper", "active", "What is your quest?", 1752247820),
    Doc("11", "bridgekeeper", "active", "What is your favorite color?", 1752247825),
    Doc("12", "bridgekeeper", "active", "What is your name?", 1752247875),
    Doc("13", "bridgekeeper", "active", "What is your quest?", 1752247880),
    Doc("14", "bridgekeeper", "active", "What is the capital of Assyria?", 1752247885),
    Doc("15", "bridgekeeper", "active", "What is your name?", 1752247995),
    Doc("16", "bridgekeeper", "active", "What is your quest?", 1752248000),
    Doc("17", "bridgekeeper", "active", "What is the airspeed velocity of an unladen swallow?", 1752248005),
    Doc("18", "bridgekeeper", "inactive", "I don't know that.", 1752248015)
  ]

  /** Midnight UTC at the start of 2025-07-11. */
  const July11: int := 1752192000

  /**
   * On the server, exporting with only `dateTo=2025-07-11` keeps the events
   * from that day on (the ten bridgekeeper rows), not the eight before it.
   */
  lemma ExportLoneDateToOnSeed(fromIso: string -> Option<int>)
    requires fromIso("2025-07-11") == Some(July11)
    ensures var r := ExportFilter(Params(None, None, None, None, Some("2025-07-11")), fromIso);
            r.Success? && Find(r.value, Seed) == Seed[8..]
  {
    var q := Params(None, None, None, None, Some("2025-07-11"));
    var r := ExportFilter(q, fromIso);
    forall i | 0 <= i < |Seed|
      ensures Matches(r.value, Seed[i]) <==> i >= 8
    {
      ExportFilterMeaning(q, fromIso, Seed[i]);
    }
    FindSuffix(r.value, Seed, 8);
  }

  /** When exactly the documents from index `n` on match, `find` returns that suffix. */
  lemma {:induction false} FindSuffix(q: Query, s: seq<Doc>, n: nat)
    requires n <= |s|
    requires forall i :: 0 <= i < |s| ==> (Matches(q, s[i]) <==> i >= n)
    ensures Find(q, s) == s[n..]
    decreases |s|
  {
    if |s| > 0 {
      FindSuffix(q, s[1..], if n > 0 then n - 1 else 0);
      if n == 0 {
        assert [s[0]] + s[1..] == s;
      }
    }
  }

  /** When exactly the documents before index `n` match, `find` returns that prefix. */
  lemma {:induction false} FindPrefix(q: Query, s: seq<Doc>, n: nat)
    requires n <= |s|
    requires forall i :: 0 <= i < |s| ==> (Matches(q, s[i]) <==> i < n)
    ensures Find(q, s) == s[..n]
    decreases |s|
  {
    if |s| > 0 {
      FindPrefix(q, s[1..], if n > 0 then n - 1 else 0);
      if n > 0 {
        assert [s[0]] + s[1..][..n - 1] == s[..n];
      } else {
        assert Find(q, s[1..]) == [];
      }
    }
  }

  /** On the server, `robot=patsy&status=active` exports the two active patsy rows, in order. */
  lemma ExportPatsyActive(fromIso: string -> Option<int>)
    ensures var r := ExportFilter(Params(Some("patsy"), Some("active"), None, None, None), fromIso);
            r.Success? && ExportedAll(Find(r.value, Seed[4..8])) ==
              [Exported("patsy", "active", "Come along, Patsy", 1751981415),
               Exported("patsy", "active", "coconut noises", 1751967015)]
  {
    var q := Params(Some("patsy"), Some("active"), None, None, None);
    var r := ExportFilter(q, fromIso);
    var s := Seed[4..8];
    forall i | 0 <= i < 4 ensures Matches(r.value, s[i]) <==> i < 2 {
      ExportFilterMeaning(q, fromIso, s[i]);
      assert i == 2 ==> s[i].status[0] != "active"[0];
      assert i == 3 ==> s[i].robot[0] != "patsy"[0];
    }
    FindPrefix(r.value, s, 2);
    assert ExportedAll(s[..2])[0] == Exported("patsy", "active", "Come along, Patsy", 1751981415);
  }
}
