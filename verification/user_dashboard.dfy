/** The user dashboard's member search: the blank-query guard, the `or`
    filter built from the raw query, the row limit, and the mapping of the
    returned rows. */
module UserDashboard {
  import opened Values
  import opened Text

  /** The joined `packages(name)` of a member row. */
  datatype PackageRef = PackageRef(name: Option<string>)

  /** A `members` row as the search selects it. */
  datatype MemberRow = MemberRow(
    id: string, name: string, email: string, phone: Option<string>, joinDate: string, status: string,
    package: Option<PackageRef>)

  /** A search result as the page shows it. */
  datatype SearchRecord = SearchRecord(
    id: string, name: string, email: string, phone: Option<string>, joinDate: string, status: string,
    packageName: string)

  const SearchLimit := 10
  const NoPackage := "No Package"

  /** One `ilike` clause on `column` for the raw query `q`. */
  function Clause(column: string, q: string): string {
    column + ".ilike.%" + q + "%"
  }

  /** A clause holds exactly the commas of the query. */
  lemma ClauseCommas(column: string, q: string)
    requires ',' !in column
    ensures multiset(Clause(column, q))[','] == multiset(q)[',']
  {
    var infix := ".ilike.%";
    assert ',' !in infix;
    assert ',' !in "%";
    assert Clause(column, q) == column + infix + q + "%";
  }

  /** A clause built from a comma-free query has no comma. */
  lemma ClauseWithoutCommas(column: string, q: string)
    requires ',' !in column && ',' !in q
    ensures ',' !in Clause(column, q)
  {
    var infix := ".ilike.%";
    assert ',' !in infix;
    assert ',' !in "%";
    assert Clause(column, q) == column + infix + q + "%";
  }

  /** The argument of `.or(...)`: the three clauses joined by commas, with
      the query embedded as typed, neither trimmed nor escaped. */
  function OrFilter(q: string): string {
    Clause("name", q) + "," + Clause("email", q) + "," + Clause("phone", q)
  }

  /** The query appears in the filter exactly as typed, surrounding white
      space included, right after `name.ilike.%`. */
  lemma QueryEmbeddedVerbatim(q: string)
    ensures |OrFilter(q)| == 3 * |q| + 43
    ensures OrFilter(q)[..12] == "name.ilike.%"
    ensures OrFilter(q)[12..12 + |q|] == q
  {
    var rest := "%" + "," + Clause("email", q) + "," + Clause("phone", q);
    assert OrFilter(q) == "name.ilike.%" + q + rest;
  }

  /** Three clauses joined by two commas hold their own commas and two more. */
  lemma JoinedCommas(q: string, n: string, e: string, p: string)
    requires multiset(n)[','] == multiset(q)[',']
    requires multiset(e)[','] == multiset(q)[',']
    requires multiset(p)[','] == multiset(q)[',']
    ensures multiset(n + [','] + e + [','] + p)[','] == 2 + 3 * multiset(q)[',']
  {
    assert multiset(n + [','] + e + [','] + p) ==
           multiset(n) + multiset{','} + multiset(e) + multiset{','} + multiset(p);
  }

  /** The filter holds two commas of its own and three per comma of the query. */
  lemma OrFilterCommas(q: string)
    ensures multiset(OrFilter(q))[','] == 2 + 3 * multiset(q)[',']
  {
    var n, e, p := Clause("name", q), Clause("email", q), Clause("phone", q);
    ColumnsHaveNoComma();
    ClauseCommas("name", q);
    ClauseCommas("email", q);
    ClauseCommas("phone", q);
    OrFilterJoins(q);
    JoinedCommasOf(OrFilter(q), q, n, e, p);
  }

  /** The searched column names hold no comma. */
  lemma ColumnsHaveNoComma()
    ensures ',' !in "name" && ',' !in "email" && ',' !in "phone"
  {
  }

  /** `JoinedCommas`, for a string known to be that join. */
  lemma JoinedCommasOf(j: string, q: string, n: string, e: string, p: string)
    requires j == n + [','] + e + [','] + p
    requires multiset(n)[','] == multiset(q)[','] && multiset(e)[','] == multiset(q)[',']
    requires multiset(p)[','] == multiset(q)[',']
    ensures multiset(j)[','] == 2 + 3 * multiset(q)[',']
  {
    JoinedCommas(q, n, e, p);
  }

  /** The filter is the three clauses joined by single commas. */
  lemma OrFilterJoins(q: string)
    ensures OrFilter(q) == Clause("name", q) + [','] + Clause("email", q) + [','] + Clause("phone", q)
  {
  }

  /** A query without commas yields exactly the three intended clauses. */
  lemma OrFilterClauses(q: string)
    requires ',' !in q
    ensures Split(OrFilter(q), ',') == [Clause("name", q), Clause("email", q), Clause("phone", q)]
  {
    var n, e, p := Clause("name", q), Clause("email", q), Clause("phone", q);
    ClauseWithoutCommas("name", q);
    ClauseWithoutCommas("email", q);
    ClauseWithoutCommas("phone", q);
    var rest := e + [','] + p;
    assert OrFilter(q) == n + [','] + rest;
    SplitAt(n, ',', rest);
    SplitAt(e, ',', p);
  }

  /** Each comma in the query adds three more clauses to the filter. */
  lemma OrFilterPieceCount(q: string)
    ensures |Split(OrFilter(q), ',')| == 3 + 3 * multiset(q)[',']
  {
    OrFilterCommas(q);
    SplitCount(OrFilter(q), ',');
  }

  /** `member.packages?.name || 'No Package'`. */
  function PackageName(p: Option<PackageRef>): (name: string)
    ensures p.Some? && Truthy(p.value.name) ==> name == p.value.name.value
    ensures !(p.Some? && Truthy(p.value.name)) ==> name == NoPackage
  {
    if p.Some? then OrElse(p.value.name, NoPackage) else NoPackage
  }

  /** The result mapping: every row in order, its fields copied. */
  function ToRecords(rows: seq<MemberRow>): (rs: seq<SearchRecord>)
    ensures |rs| == |rows|
    ensures forall i :: 0 <= i < |rows| ==>
              && rs[i].id == rows[i].id && rs[i].name == rows[i].name && rs[i].email == rows[i].email
              && rs[i].phone == rows[i].phone && rs[i].joinDate == rows[i].joinDate
              && rs[i].status == rows[i].status && rs[i].packageName == PackageName(rows[i].package)
  {
    seq(|rows|, i requires 0 <= i < |rows| =>
      var r := rows[i];
      SearchRecord(r.id, r.name, r.email, r.phone, r.joinDate, r.status, PackageName(r.package)))
  }

  /** The mapping is row by row: mapping two result pages one after the other
      is mapping their concatenation, and a row's record depends on that row
      alone. */
  lemma ToRecordsAppend(a: seq<MemberRow>, b: seq<MemberRow>)
    ensures ToRecords(a + b) == ToRecords(a) + ToRecords(b)
  {
    assert forall i :: 0 <= i < |a| ==> (a + b)[i] == a[i];
    assert forall i :: |a| <= i < |a| + |b| ==> (a + b)[i] == b[i - |a|];
  }

  /** The request a search sends. */
  datatype SearchRequest = SearchRequest(orFilter: string, limit: nat)

  /** The page's search state. */
  datatype SearchPage = SearchPage(results: seq<SearchRecord>, loading: bool)

  /** How the query settles. */
  datatype SearchOutcome = Rows(rows: seq<MemberRow>) | SearchFailed

  /** What `handleSearch` does: the page after it and the request it sent. */
  datatype SearchStep = SearchStep(page: SearchPage, request: Option<SearchRequest>)

  /** `handleSearch`. */
  function HandleSearch(page: SearchPage, query: string, outcome: SearchOutcome): (s: SearchStep)
    ensures Trim(query) == "" ==> s == SearchStep(page, None)
    ensures Trim(query) != "" ==> s.request == Some(SearchRequest(OrFilter(query), SearchLimit))
    ensures Trim(query) != "" ==> !s.page.loading
    ensures Trim(query) != "" && outcome.Rows? ==> s.page.results == ToRecords(outcome.rows)
    ensures Trim(query) != "" && outcome.SearchFailed? ==> s.page.results == page.results
  {
    if Trim(query) == "" then SearchStep(page, None)
    else
      var request := Some(SearchRequest(OrFilter(query), SearchLimit));
      match outcome
      case Rows(rows) => SearchStep(SearchPage(ToRecords(rows), false), request)
      case SearchFailed => SearchStep(page.(loading := false), request)
  }

  /** A blank query sends nothing and leaves the page as it was. */
  lemma BlankQuerySendsNothing(page: SearchPage, query: string, outcome: SearchOutcome)
    ensures HandleSearch(page, query, outcome).request.None? <==> IsBlank(query)
    ensures IsBlank(query) ==> HandleSearch(page, query, outcome).page == page
  {
    TrimEmptyIffBlank(query);
  }
}
