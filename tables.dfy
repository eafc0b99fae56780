/** The table listing tool (tools/list_tables.go): filtering a listing by a
    regular expression on table names, and the `ListTables` handler, which
    cuts the listing to `max_results` entries, records whether it did, and
    then filters what is left.

    The regular expression engine is not modelled: an `Engine` says for
    each pattern whether it compiles (and with which error) and for each
    compiled pattern which names it matches. */
module Tables {
  import opened Base
  import opened Mcp
  import opened Common

  /** A `catalog.TableInfo`, reduced to the fields the tools look at or echo. */
  datatype Table = Table(name: string, catalogName: string, schemaName: string)

  /** `regexp.Compile` and `MatchString`: the compile error of a pattern,
      if any, and whether a compiled pattern matches a name. */
  datatype Engine = Engine(compileError: string -> Option<string>, matches: (string, string) -> bool)

  predicate Compiles(e: Engine, pattern: string) {
    e.compileError(pattern).None?
  }

  /** The tables whose name the pattern matches, in listing order. */
  function Matching(tables: seq<Table>, pattern: string, e: Engine): seq<Table>
  {
    if tables == [] then []
    else
      var last := tables[|tables| - 1];
      Matching(tables[..|tables| - 1], pattern, e) + (if e.matches(pattern, last.name) then [last] else [])
  }

  /** `filterTables`: the compile error for a pattern that does not
      compile (and no tables), otherwise the matching tables in order. */
  method FilterTables(tables: seq<Table>, pattern: string, e: Engine) returns (r: Result<seq<Table>>)
    ensures !Compiles(e, pattern) ==> r == Err(e.compileError(pattern).value)
    ensures Compiles(e, pattern) ==> r == Ok(Matching(tables, pattern, e))
  {
    var err := e.compileError(pattern);
    if err.Some? {
      return Err(err.value);
    }
    var filtered: seq<Table> := [];
    for i := 0 to |tables|
      invariant filtered == Matching(tables[..i], pattern, e)
    {
      assert tables[..i + 1][..i] == tables[..i];
      if e.matches(pattern, tables[i].name) {
        filtered := filtered + [tables[i]];
      }
    }
    assert tables[..|tables|] == tables;
    r := Ok(filtered);
  }

  /** Filtering keeps only tables of the listing whose name matches, and
      keeps every one of them. */
  lemma {:induction false} MatchingExact(tables: seq<Table>, pattern: string, e: Engine)
    ensures forall t :: t in Matching(tables, pattern, e) <==> t in tables && e.matches(pattern, t.name)
    decreases |tables|
  {
    if tables != [] {
      var init := tables[..|tables| - 1];
      MatchingExact(init, pattern, e);
      assert tables == init + [tables[|tables| - 1]];
    }
  }

  /** Filtering keeps the tables in listing order: the result is a
      subsequence of the listing. */
  lemma {:induction false} MatchingIsSubsequence(tables: seq<Table>, pattern: string, e: Engine)
    ensures Subsequence(Matching(tables, pattern, e), tables)
    decreases |tables|
  {
    if tables != [] {
      var init := tables[..|tables| - 1];
      var last := tables[|tables| - 1];
      var m := Matching(tables, pattern, e);
      MatchingIsSubsequence(init, pattern, e);
      if e.matches(pattern, last.name) {
        assert m == Matching(init, pattern, e) + [last];
        assert m[..|m| - 1] == Matching(init, pattern, e);
      } else {
        assert m == Matching(init, pattern, e);
        if m != [] {
          assert Subsequence(m, init);
        }
      }
    }
  }

  /** Filtering a concatenation filters each part. */
  lemma {:induction false} MatchingAppend(a: seq<Table>, b: seq<Table>, pattern: string, e: Engine)
    ensures Matching(a + b, pattern, e) == Matching(a, pattern, e) + Matching(b, pattern, e)
    decreases |b|
  {
    if b == [] {
      assert a + b == a;
    } else {
      var init := b[..|b| - 1];
      MatchingAppend(a, init, pattern, e);
      assert (a + b)[..|a + b| - 1] == a + init;
    }
  }

  /** Filtering twice by the same pattern is filtering once. */
  lemma {:induction false} MatchingIdempotent(tables: seq<Table>, pattern: string, e: Engine)
    ensures Matching(Matching(tables, pattern, e), pattern, e) == Matching(tables, pattern, e)
    decreases |tables|
  {
    if tables != [] {
      var init := tables[..|tables| - 1];
      var last := tables[|tables| - 1];
      MatchingIdempotent(init, pattern, e);
      if e.matches(pattern, last.name) {
        MatchingAppend(Matching(init, pattern, e), [last], pattern, e);
        assert [last][..0] == [];
        assert Matching([last], pattern, e) == [last];
      } else {
        var m := Matching(tables, pattern, e);
        assert m == Matching(init, pattern, e) + [];
        assert m == Matching(init, pattern, e);
        assert Matching(m, pattern, e) == Matching(Matching(init, pattern, e), pattern, e);
      }
    }
  }

  /** A pattern that matches every name keeps the whole listing. */
  lemma {:induction false} MatchingEverything(tables: seq<Table>, pattern: string, e: Engine)
    requires forall t :: t in tables ==> e.matches(pattern, t.name)
    ensures Matching(tables, pattern, e) == tables
    decreases |tables|
  {
    if tables != [] {
      var init := tables[..|tables| - 1];
      MatchingEverything(init, pattern, e);
      assert tables == init + [tables[|tables| - 1]];
    }
  }

  /** The parameters of the `Tables.List` call. */
  datatype TablesRequest = TablesRequest(catalogName: string, schemaName: string, omitProperties: bool, omitColumns: bool, maxResults: int)

  /** The handler's response: the tables, their count, and whether the listing was cut. */
  datatype TableListing = TableListing(tables: seq<Table>, totalCount: int, truncated: bool)

  const CatalogNotString := "catalog argument is not a string"
  const SchemaNotString := "schema argument is not a string"
  const SliceOutOfRange := "slice bounds out of range"
  const ListError := "Error listing tables"
  const FilterError := "Error filtering tables using pattern"
  const DefaultMaxResults := 10

  /** The string argument `name` is present. */
  predicate StringArg(request: CallToolRequest, name: string) {
    name in request.arguments && request.arguments[name].JString?
  }

  /** Patterns under which the handlers skip filtering. */
  predicate SkipsFilter(pattern: string) {
    pattern == "" || pattern == ".*"
  }

  /** `max_results` as the handler reads it, with a type assertion to Go's
      `int`. Decoded JSON arguments hold numbers as float64, never as `int`,
      so the assertion fails for every request and the default is used. */
  function MaxResultsAsWritten(request: CallToolRequest): (n: int)
    ensures n == DefaultMaxResults
  {
    match Field(request.arguments, "max_results")
    case _ => DefaultMaxResults
  }

  /** `max_results` read as a JSON number, as the other tools read their numeric arguments. */
  function MaxResultsCorrected(request: CallToolRequest): int {
    ExtractIntParam(request, "max_results", DefaultMaxResults)
  }

  /** The limit the corrected handler applies: none for `max_results` 0
      ("0 for all"), otherwise the number given. */
  function CorrectedLimit(request: CallToolRequest): (limit: Option<int>)
    ensures limit.None? <==> MaxResultsCorrected(request) == 0
    ensures limit.Some? ==> limit.value == MaxResultsCorrected(request)
  {
    var max := MaxResultsCorrected(request);
    if max == 0 then None else Some(max)
  }

  /** The listing request the handler sends: one more entry than the limit,
      or 0 (the service's own page size) when there is none. */
  function ListingRequest(request: CallToolRequest, limit: Option<int>): TablesRequest {
    TablesRequest(ExtractStringParam(request, "catalog", ""), ExtractStringParam(request, "schema", ""),
                  ExtractBoolParam(request, "omit_properties", false), ExtractBoolParam(request, "omit_columns", false),
                  if limit.Some? then limit.value + 1 else 0)
  }

  /** The handler's answer for a limit (`None` for no limit), given the
      listing service `list` (the `Tables.List` iterator drained by
      `listing.ToSliceN`). */
  function ListOutcome(request: CallToolRequest, limit: Option<int>, list: TablesRequest -> Result<seq<Table>>, e: Engine)
    : Outcome<ToolResult<TableListing>>
  {
    if !StringArg(request, "catalog") then Panicked(CatalogNotString)
    else if !StringArg(request, "schema") then Panicked(SchemaNotString)
    else
      match list(ListingRequest(request, limit))
      case Err(cause) => Done(ErrorResult(ListError, Some(cause)))
      case Ok(listing) =>
        if limit.Some? && |listing| > limit.value && limit.value < 0 then Panicked(SliceOutOfRange)
        else
          var truncated := limit.Some? && |listing| > limit.value;
          var kept := if truncated then listing[..limit.value] else listing;
          var pattern := ExtractStringParam(request, "filter_pattern", "");
          if SkipsFilter(pattern) then Done(TextResult(TableListing(kept, |kept|, truncated)))
          else if !Compiles(e, pattern) then Done(ErrorResult(FilterError, e.compileError(pattern)))
          else
            var tables := Matching(kept, pattern, e);
            Done(TextResult(TableListing(tables, |tables|, truncated)))
  }

  /** The body of `ListTables` for a limit (`None` for no limit). */
  method ListWithLimit(request: CallToolRequest, limit: Option<int>, list: TablesRequest -> Result<seq<Table>>, e: Engine)
    returns (out: Outcome<ToolResult<TableListing>>)
    ensures out == ListOutcome(request, limit, list, e)
  {
    var args := request.arguments;
    if !StringArg(request, "catalog") {
      return Panicked(CatalogNotString);
    }
    if !StringArg(request, "schema") {
      return Panicked(SchemaNotString);
    }
    var pattern := ExtractStringParam(request, "filter_pattern", "");
    var fetched := list(ListingRequest(request, limit));
    if fetched.Err? {
      return Done(ErrorResult(ListError, Some(fetched.cause)));
    }
    var tables := fetched.value;
    var truncated := false;
    if limit.Some? && |tables| > limit.value {
      if limit.value < 0 {
        return Panicked(SliceOutOfRange);
      }
      tables := tables[..limit.value];
      truncated := true;
    }
    if !SkipsFilter(pattern) {
      var filtered := FilterTables(tables, pattern, e);
      if filtered.Err? {
        return Done(ErrorResult(FilterError, Some(filtered.cause)));
      }
      tables := filtered.value;
    }
    out := Done(TextResult(TableListing(tables, |tables|, truncated)));
  }

  /** `ListTables` as written: the limit is always the default 10. */
  method ListTables(request: CallToolRequest, list: TablesRequest -> Result<seq<Table>>, e: Engine)
    returns (out: Outcome<ToolResult<TableListing>>)
    ensures out == ListOutcome(request, Some(DefaultMaxResults), list, e)
  {
    out := ListWithLimit(request, Some(MaxResultsAsWritten(request)), list, e);
  }

  /** `ListTables` reading `max_results` as a JSON number, with 0 meaning
      the whole listing. */
  method ListTablesCorrected(request: CallToolRequest, list: TablesRequest -> Result<seq<Table>>, e: Engine)
    returns (out: Outcome<ToolResult<TableListing>>)
    ensures out == ListOutcome(request, CorrectedLimit(request), list, e)
  {
    out := ListWithLimit(request, CorrectedLimit(request), list, e);
  }

  /** The first `max` tables of a listing when it is longer, else all of it. */
  function Kept(listing: seq<Table>, max: nat): (kept: seq<Table>)
    ensures |kept| <= max || kept == listing
  {
    if |listing| > max then listing[..max] else listing
  }

  /** A listed response: the count is the number of tables returned; the
      listing was cut exactly when it was longer than the limit, and never
      beyond it; the tables returned are the kept prefix when the pattern is
      "" or ".*", and otherwise its matching tables in order, so always a
      subsequence of it. */
  lemma ListedResponse(request: CallToolRequest, max: nat, list: TablesRequest -> Result<seq<Table>>, e: Engine)
    requires ListOutcome(request, Some(max), list, e).Done? && ListOutcome(request, Some(max), list, e).value.TextResult?
    ensures var l := ListOutcome(request, Some(max), list, e).value.payload;
      var listing := list(ListingRequest(request, Some(max)));
      var pattern := ExtractStringParam(request, "filter_pattern", "");
      && listing.Ok?
      && l.totalCount == |l.tables| <= max
      && (l.truncated <==> |listing.value| > max)
      && (SkipsFilter(pattern) ==> l.tables == Kept(listing.value, max))
      && (!SkipsFilter(pattern) ==> Compiles(e, pattern) && l.tables == Matching(Kept(listing.value, max), pattern, e))
      && Subsequence(l.tables, Kept(listing.value, max))
  {
    var listing := list(ListingRequest(request, Some(max))).value;
    var pattern := ExtractStringParam(request, "filter_pattern", "");
    var kept := Kept(listing, max);
    if SkipsFilter(pattern) {
      SubsequenceOfSelf(kept);
    } else {
      MatchingIsSubsequence(kept, pattern, e);
    }
    assert |kept| <= max || |listing| <= max;
    SubsequenceLength(ListOutcome(request, Some(max), list, e).value.payload.tables, kept);
  }

  /** Without a limit nothing is cut: a listed response holds the whole
      listing when the pattern is "" or ".*", and otherwise its matching
      tables in order, and says it was not truncated. */
  lemma UnlimitedResponse(request: CallToolRequest, list: TablesRequest -> Result<seq<Table>>, e: Engine)
    requires ListOutcome(request, None, list, e).Done? && ListOutcome(request, None, list, e).value.TextResult?
    ensures var l := ListOutcome(request, None, list, e).value.payload;
      var listing := list(ListingRequest(request, None));
      var pattern := ExtractStringParam(request, "filter_pattern", "");
      && listing.Ok?
      && ListingRequest(request, None).maxResults == 0
      && l.totalCount == |l.tables| && !l.truncated
      && (SkipsFilter(pattern) ==> l.tables == listing.value)
      && (!SkipsFilter(pattern) ==> Compiles(e, pattern) && l.tables == Matching(listing.value, pattern, e))
  {
  }

  /** The error answers: a missing string catalog or schema panics before
      anything is listed; a listing error is reported with its cause and
      nothing is filtered; a pattern that does not compile is reported with
      the compile error once the listing arrived. */
  lemma ListErrors(request: CallToolRequest, max: nat, list: TablesRequest -> Result<seq<Table>>, e: Engine)
    ensures !StringArg(request, "catalog") ==> ListOutcome(request, Some(max), list, e) == Panicked(CatalogNotString)
    ensures StringArg(request, "catalog") && StringArg(request, "schema") && list(ListingRequest(request, Some(max))).Err? ==>
      ListOutcome(request, Some(max), list, e) == Done(ErrorResult(ListError, Some(list(ListingRequest(request, Some(max))).cause)))
    ensures var pattern := ExtractStringParam(request, "filter_pattern", "");
      StringArg(request, "catalog") && StringArg(request, "schema") && list(ListingRequest(request, Some(max))).Ok? &&
      !SkipsFilter(pattern) && !Compiles(e, pattern) ==>
        ListOutcome(request, Some(max), list, e) == Done(ErrorResult(FilterError, Some(e.compileError(pattern).value)))
  {
  }

  /** The listing request: the catalog and schema named, the omit flags
      false unless given as booleans, and one more entry than the limit. */
  lemma ListingRequestDefaults(request: CallToolRequest, max: int)
    requires StringArg(request, "catalog") && StringArg(request, "schema")
    ensures var r := ListingRequest(request, Some(max));
      && r.catalogName == request.arguments["catalog"].s && r.schemaName == request.arguments["schema"].s
      && r.maxResults == max + 1
      && (!("omit_properties" in request.arguments && request.arguments["omit_properties"].JBool?) ==> !r.omitProperties)
      && (!("omit_columns" in request.arguments && request.arguments["omit_columns"].JBool?) ==> !r.omitColumns)
  {
  }

  /** As written, `max_results` has no effect: with `max_results` 2 and a
      listing of five tables, all five are returned and the response says
      it was not cut. */
  lemma MaxResultsIgnored(request: CallToolRequest, list: TablesRequest -> Result<seq<Table>>, e: Engine, ts: seq<Table>)
    requires request.arguments == map["catalog" := JString("c"), "schema" := JString("s"), "max_results" := JNumber(2.0)]
    requires |ts| == 5 && list(ListingRequest(request, Some(DefaultMaxResults))) == Ok(ts)
    ensures ListOutcome(request, Some(DefaultMaxResults), list, e) == Done(TextResult(TableListing(ts, 5, false)))
  {
    assert ExtractStringParam(request, "filter_pattern", "") == "";
  }

  /** With `max_results` read as a number, a non-negative limit is honoured:
      the same request over five tables returns the first two and says the
      listing was cut. */
  lemma CorrectedHonoursMaxResults(request: CallToolRequest, list: TablesRequest -> Result<seq<Table>>, e: Engine, ts: seq<Table>)
    requires request.arguments == map["catalog" := JString("c"), "schema" := JString("s"), "max_results" := JNumber(2.0)]
    requires |ts| == 5 && list(ListingRequest(request, Some(2))) == Ok(ts)
    ensures CorrectedLimit(request) == Some(2)
    ensures ListOutcome(request, CorrectedLimit(request), list, e) == Done(TextResult(TableListing(ts[..2], 2, true)))
  {
    assert Truncate(2.0) == 2;
    assert ExtractStringParam(request, "filter_pattern", "") == "";
  }

  /** With `max_results` read as a number `x`, a response that lists tables
      never holds more than a positive limit and says it was cut exactly
      when the listing was longer; a limit of 0 lists everything and never
      says it was cut; a negative limit panics on any listing (the slice
      bound is out of range). */
  lemma CorrectedRespectsLimit(request: CallToolRequest, list: TablesRequest -> Result<seq<Table>>, e: Engine)
    requires "max_results" in request.arguments && request.arguments["max_results"].JNumber?
    ensures var max := MaxResultsCorrected(request);
      var limit := CorrectedLimit(request);
      var out := ListOutcome(request, limit, list, e);
      var listing := list(ListingRequest(request, limit));
      && max == Truncate(request.arguments["max_results"].x)
      && (0 < max && out.Done? && out.value.TextResult? ==>
            && |out.value.payload.tables| <= max
            && (out.value.payload.truncated <==> |listing.value| > max))
      && (max == 0 && out.Done? && out.value.TextResult? ==>
            && !out.value.payload.truncated
            && (SkipsFilter(ExtractStringParam(request, "filter_pattern", "")) ==> out.value.payload.tables == listing.value))
      && (max < 0 && StringArg(request, "catalog") && StringArg(request, "schema") && listing.Ok? ==>
            out == Panicked(SliceOutOfRange))
  {
    var max := MaxResultsCorrected(request);
    var out := ListOutcome(request, Some(max), list, e);
    if 0 < max && out.Done? && out.value.TextResult? {
      ListedResponse(request, max, list, e);
    }
    if max == 0 && ListOutcome(request, None, list, e).Done? && ListOutcome(request, None, list, e).value.TextResult? {
      UnlimitedResponse(request, list, e);
    }
  }

  /** As written, a limit of 0 cuts a non-empty listing to nothing and
      says it was truncated, although `max_results` is documented as
      "0 for all". */
  lemma ZeroLimitCutsAll(request: CallToolRequest, list: TablesRequest -> Result<seq<Table>>, e: Engine)
    requires StringArg(request, "catalog") && StringArg(request, "schema")
    requires SkipsFilter(ExtractStringParam(request, "filter_pattern", ""))
    requires list(ListingRequest(request, Some(0))).Ok? && list(ListingRequest(request, Some(0))).value != []
    ensures ListOutcome(request, Some(0), list, e) == Done(TextResult(TableListing([], 0, true)))
  {
  }

  /** Corrected, `max_results` 0 returns the whole listing and says it was
      not truncated: with three tables listed, all three come back. */
  lemma CorrectedZeroListsAll(request: CallToolRequest, list: TablesRequest -> Result<seq<Table>>, e: Engine, ts: seq<Table>)
    requires request.arguments == map["catalog" := JString("c"), "schema" := JString("s"), "max_results" := JNumber(0.0)]
    requires |ts| == 3 && list(ListingRequest(request, None)) == Ok(ts)
    ensures CorrectedLimit(request) == None
    ensures ListOutcome(request, CorrectedLimit(request), list, e) == Done(TextResult(TableListing(ts, 3, false)))
  {
    assert Truncate(0.0) == 0;
    assert ExtractStringParam(request, "filter_pattern", "") == "";
  }
}
