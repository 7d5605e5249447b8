/**
 * The URL that `handleExportJSON` and `handleExportCSV` navigate to
 * (app/bd-robots-app/src/App.jsx): the export endpoint, `?`, the filter object
 * serialised by `URLSearchParams`, then `&format=json` or `&format=csv`.
 * The percent-encoding of one key or value is the parameter `encode`.
 */
module ExportUrl {
  import opened Strings
  import opened ClientFilter

  const ApiBaseUrl: string := "http://127.0.0.1:8000/v1"
  const ExportEndpoint: string := ApiBaseUrl + "/export_robot_event"

  datatype ExportFormat = Json | Csv

  function FormatName(fmt: ExportFormat): string {
    match fmt
    case Json => "json"
    case Csv => "csv"
  }

  /** The form-urlencoded serializer escapes `&` and `=`, so neither appears in its output. */
  ghost predicate SafeEncoder(encode: string -> string) {
    forall s :: '&' !in encode(s) && '=' !in encode(s)
  }

  /** One `key=value` pair per property of the filter object, in property order. */
  function QueryPairs(f: FilterSpec, encode: string -> string): (ps: seq<string>)
    ensures |ps| == |f|
  {
    seq(|f|, i requires 0 <= i < |f| => encode(f[i].0) + "=" + encode(f[i].1))
  }

  /** `new URLSearchParams(filters).toString()`. */
  function QueryString(f: FilterSpec, encode: string -> string): string {
    JoinWith(QueryPairs(f, encode), '&')
  }

  /** The URL built by the two export handlers. */
  function ExportUrl(f: FilterSpec, fmt: ExportFormat, encode: string -> string): string {
    ExportEndpoint + "?" + QueryString(f, encode) + "&format=" + FormatName(fmt)
  }

  lemma {:induction false} JoinSnoc(parts: seq<string>, x: string, sep: char)
    requires |parts| >= 1
    ensures JoinWith(parts + [x], sep) == JoinWith(parts, sep) + [sep] + x
    decreases |parts|
  {
    if |parts| > 1 {
      JoinSnoc(parts[1..], x, sep);
      assert (parts + [x])[1..] == parts[1..] + [x];
    }
  }

  /**
   * Reading the export URL back: after the endpoint and `?`, splitting at `&`
   * gives one pair per filter property in property order followed by the
   * format pair, and each pair splits at `=` into its encoded key and value.
   */
  lemma ExportUrlParts(f: FilterSpec, fmt: ExportFormat, encode: string -> string)
    requires SafeEncoder(encode)
    requires |f| >= 1
    ensures var url := ExportUrl(f, fmt, encode);
            var n := |ExportEndpoint| + 1;
            && |url| >= n
            && url[..n] == ExportEndpoint + "?"
            && SplitOn(url[n..], '&') == QueryPairs(f, encode) + ["format=" + FormatName(fmt)]
    ensures forall i :: 0 <= i < |f| ==>
              SplitOn(QueryPairs(f, encode)[i], '=') == [encode(f[i].0), encode(f[i].1)]
  {
    var ps := QueryPairs(f, encode);
    var url := ExportUrl(f, fmt, encode);
    var n := |ExportEndpoint| + 1;
    var tail := "format=" + FormatName(fmt);
    JoinSnoc(ps, tail, '&');
    assert url == (ExportEndpoint + "?") + (JoinWith(ps, '&') + "&" + tail);
    assert url[n..] == JoinWith(ps + [tail], '&');
    forall i | 0 <= i < |ps + [tail]| ensures '&' !in (ps + [tail])[i] {
      if i < |ps| {
        assert '&' !in encode(f[i].0) && '&' !in encode(f[i].1);
      }
    }
    SplitJoin(ps + [tail], '&');
    forall i | 0 <= i < |f|
      ensures SplitOn(ps[i], '=') == [encode(f[i].0), encode(f[i].1)]
    {
      SplitAtSep(encode(f[i].0), '=', encode(f[i].1));
      SplitNoSep(encode(f[i].1), '=');
    }
  }

  /** In every reachable filter object the first five pairs are the declared keys, in declaration order. */
  lemma DeclaredKeysFirst(f: FilterSpec, encode: string -> string)
    requires WellFormed(f)
    ensures forall i :: 0 <= i < 5 ==>
              QueryPairs(f, encode)[i] == encode(FilterKeys[i]) + "=" + encode(Field(f, FilterKeys[i]))
  {
    forall i | 0 <= i < 5
      ensures QueryPairs(f, encode)[i] == encode(FilterKeys[i]) + "=" + encode(Field(f, FilterKeys[i]))
    {
      assert Keys(f)[..5][i] == FilterKeys[i];
      LookupEntry(f, i);
    }
  }

  lemma JoinFive(a: string, b: string, c: string, d: string, e: string, sep: char)
    ensures JoinWith([a, b, c, d, e], sep) == a + [sep] + b + [sep] + c + [sep] + d + [sep] + e
  {
    assert [d, e][1..] == [e];
    assert JoinWith([d, e], sep) == d + [sep] + e;
    assert [c, d, e][1..] == [d, e];
    assert JoinWith([c, d, e], sep) == c + [sep] + (d + [sep] + e);
    assert [b, c, d, e][1..] == [c, d, e];
    assert JoinWith([b, c, d, e], sep) == b + [sep] + (c + [sep] + (d + [sep] + e));
    assert [a, b, c, d, e][1..] == [b, c, d, e];
  }

  /**
   * With the initial filters the empty values are still sent: every key is
   * present with nothing after its `=`.
   */
  lemma EmptyFiltersQuery(encode: string -> string)
    requires encode("") == ""
    requires forall i :: 0 <= i < |FilterKeys| ==> encode(FilterKeys[i]) == FilterKeys[i]
    ensures QueryString(EmptyFilters, encode) ==
            "robot=" + "&" + "dateFrom=" + "&" + "dateTo=" + "&" + "status=" + "&" + "description="
  {
    var ps := QueryPairs(EmptyFilters, encode);
    assert encode(FilterKeys[0]) == "robot";
    assert encode(FilterKeys[1]) == "dateFrom";
    assert encode(FilterKeys[2]) == "dateTo";
    assert encode(FilterKeys[3]) == "status";
    assert encode(FilterKeys[4]) == "description";
    assert ps[0] == "robot=" by { assert EmptyFilters[0] == ("robot", ""); }
    assert ps[1] == "dateFrom=" by { assert EmptyFilters[1] == ("dateFrom", ""); }
    assert ps[2] == "dateTo=" by { assert EmptyFilters[2] == ("dateTo", ""); }
    assert ps[3] == "status=" by { assert EmptyFilters[3] == ("status", ""); }
    assert ps[4] == "description=" by { assert EmptyFilters[4] == ("description", ""); }
    assert ps == ["robot=", "dateFrom=", "dateTo=", "status=", "description="];
    JoinFive("robot=", "dateFrom=", "dateTo=", "status=", "description=", '&');
  }
}
