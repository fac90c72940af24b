/** The charge listing of `GET /api/charges`: the SQL text and the parameter
    list the handler builds from the optional `status`, `from`, `to` and `q`
    query-string filters. Running the query is not part of the model; what
    is proved is the shape of the text and how its `$n` placeholders line up
    with the parameters. */
module ChargeQuery {
  import opened Common

  /** The query-string filters; a missing or empty one is skipped. */
  datatype ListFilters = ListFilters(
    status: Option<string>, from: Option<string>, to: Option<string>, q: Option<string>)

  /** One present filter, in the order the handler tests them. */
  datatype Filter = ByStatus(status: string) | CreatedFrom(from: string) | CreatedTo(to: string) | Search(q: string)

  /** A bound query parameter: plain text, or a date the handler builds
      with `new Date(text)` (kept as its source text). */
  datatype Param = Text(s: string) | Timestamp(raw: string)

  /** The fixed SQL text the listing is assembled from: the head, the text
      before the placeholder of each single-placeholder clause, the three
      pieces around the two placeholders of the search clause, and the
      ordering tail. */
  datatype SqlText = SqlText(
    select: string,
    statusOp: string,
    fromOp: string,
    toOp: string,
    searchOpen: string,
    searchMiddle: string,
    searchClose: string,
    orderBy: string)

  /** The text the handler uses. */
  const Listing := SqlText(
    "SELECT * FROM charges WHERE 1=1",
    " AND status = ",
    " AND created_at >= ",
    " AND created_at <= ",
    " AND (description ILIKE ",
    " OR order_id ILIKE ",
    ")",
    " ORDER BY created_at DESC")

  predicate NoDollar(s: string)
  {
    forall i :: 0 <= i < |s| ==> s[i] != '$'
  }

  predicate StartsWithSpace(s: string)
  {
    |s| > 0 && s[0] == ' '
  }

  /** What the placeholder reading relies on: no piece contains a `$`, every
      clause and the tail start with a space, and the text after the last
      placeholder of the search clause does not start with a digit. */
  predicate WellFormed(t: SqlText)
  {
    && NoDollar(t.select) && NoDollar(t.orderBy)
    && NoDollar(t.statusOp) && NoDollar(t.fromOp) && NoDollar(t.toOp)
    && NoDollar(t.searchOpen) && NoDollar(t.searchMiddle) && NoDollar(t.searchClose)
    && StartsWithSpace(t.statusOp) && StartsWithSpace(t.fromOp) && StartsWithSpace(t.toOp)
    && StartsWithSpace(t.searchOpen) && StartsWithSpace(t.searchMiddle) && StartsWithSpace(t.orderBy)
    && |t.searchClose| > 0 && !IsDigit(t.searchClose[0])
  }

  lemma ListingWellFormed()
    ensures WellFormed(Listing)
  {
    ListingHeadPlain();
    ListingTailPlain();
    ListingOperatorsPlain();
    ListingSearchPlain();
  }

  lemma ListingHeadPlain()
    ensures NoDollar(Listing.select)
  {
  }

  lemma ListingTailPlain()
    ensures NoDollar(Listing.orderBy)
  {
  }

  lemma ListingOperatorsPlain()
    ensures NoDollar(Listing.statusOp) && NoDollar(Listing.fromOp) && NoDollar(Listing.toOp)
  {
  }

  lemma ListingSearchPlain()
    ensures NoDollar(Listing.searchOpen) && NoDollar(Listing.searchMiddle) && NoDollar(Listing.searchClose)
  {
  }

  /** The filters the handler has taken after testing `status`. */
  function FiltersToStatus(f: ListFilters): seq<Filter>
  {
    if Present(f.status) then [ByStatus(f.status.value)] else []
  }

  /** ... after testing `from`. */
  function FiltersToFrom(f: ListFilters): seq<Filter>
  {
    if Present(f.from) then FiltersToStatus(f) + [CreatedFrom(f.from.value)] else FiltersToStatus(f)
  }

  /** ... after testing `to`. */
  function FiltersToTo(f: ListFilters): seq<Filter>
  {
    if Present(f.to) then FiltersToFrom(f) + [CreatedTo(f.to.value)] else FiltersToFrom(f)
  }

  /** The filters that take part in the query, in the fixed clause order
      status, from, to, q. */
  function PresentFilters(f: ListFilters): seq<Filter>
  {
    if Present(f.q) then FiltersToTo(f) + [Search(f.q.value)] else FiltersToTo(f)
  }

  /** `$${n}`. */
  function Placeholder(n: nat): string
  {
    "$" + NatToString(n)
  }

  /** The ` AND ...` clause a filter adds when its placeholder number is `n`. */
  function ClauseText(t: SqlText, flt: Filter, n: nat): string
  {
    match flt
    case ByStatus(_) => t.statusOp + Placeholder(n)
    case CreatedFrom(_) => t.fromOp + Placeholder(n)
    case CreatedTo(_) => t.toOp + Placeholder(n)
    case Search(_) => t.searchOpen + Placeholder(n) + t.searchMiddle + Placeholder(n) + t.searchClose
  }

  /** The parameter a filter pushes; the search text is wrapped in `%`. */
  function ParamOf(flt: Filter): Param
  {
    match flt
    case ByStatus(s) => Text(s)
    case CreatedFrom(s) => Timestamp(s)
    case CreatedTo(s) => Timestamp(s)
    case Search(q) => Text("%" + q + "%")
  }

  function ParamsOf(fs: seq<Filter>): (ps: seq<Param>)
    ensures |ps| == |fs|
  {
    seq(|fs|, i requires 0 <= i < |fs| => ParamOf(fs[i]))
  }

  /** The clauses of `fs`, numbered from `start`. */
  function RenderClauses(t: SqlText, fs: seq<Filter>, start: nat): string
    decreases |fs|
  {
    if fs == [] then "" else ClauseText(t, fs[0], start) + RenderClauses(t, fs[1..], start + 1)
  }

  /** The placeholder numbers one clause mentions, left to right. */
  function ClauseUses(flt: Filter, n: nat): seq<nat>
  {
    if flt.Search? then [n, n] else [n]
  }

  function Uses(fs: seq<Filter>, start: nat): seq<nat>
    decreases |fs|
  {
    if fs == [] then [] else ClauseUses(fs[0], start) + Uses(fs[1..], start + 1)
  }

  /** Reference reading of a SQL text: the numbers of its `$n` placeholders,
      left to right (a `$` not followed by a digit is not a placeholder). */
  function Placeholders(s: string): seq<nat>
    decreases |s|
  {
    if s == [] then []
    else if s[0] == '$' then
      var d := LeadingDigits(s[1..]);
      if d == [] then Placeholders(s[1..]) else [DigitsValue(d)] + Placeholders(s[1 + |d|..])
    else Placeholders(s[1..])
  }

  predicate NonDecreasing(s: seq<nat>)
  {
    forall i, j :: 0 <= i < j < |s| ==> s[i] <= s[j]
  }

  lemma {:induction false} PlaceholdersAfterPlainText(a: string, b: string)
    requires NoDollar(a)
    ensures Placeholders(a + b) == Placeholders(b)
    decreases |a|
  {
    if a != [] {
      var s := a + b;
      assert s[0] == a[0] && s[0] != '$';
      assert s[1..] == a[1..] + b;
      assert Placeholders(s) == Placeholders(s[1..]);
      PlaceholdersAfterPlainText(a[1..], b);
    } else {
      assert a + b == b;
    }
  }

  lemma PlaceholdersOfMarker(n: nat, b: string)
    requires b == [] || !IsDigit(b[0])
    ensures Placeholders(Placeholder(n) + b) == [n] + Placeholders(b)
  {
    var num := NatToString(n);
    PlaceholdersOfDigits(num, b);
    DigitsValueOfNatToString(n);
  }

  /** A `$`, a run of digits, then text that does not start with a digit:
      the scanner reads the run's number and goes on after it. */
  lemma PlaceholdersOfDigits(num: string, b: string)
    requires num != [] && AllDigits(num)
    requires b == [] || !IsDigit(b[0])
    ensures Placeholders("$" + num + b) == [DigitsValue(num)] + Placeholders(b)
  {
    var s := "$" + num + b;
    assert s[0] == '$' && s[1..] == num + b;
    LeadingDigitsOfNumber(num, b);
    assert s[1 + |num|..] == b;
  }

  /** Plain text, one placeholder, then text that does not start with a digit. */
  lemma PlaceholdersOfSegment(a: string, n: nat, rest: string)
    requires NoDollar(a)
    requires rest == [] || !IsDigit(rest[0])
    ensures Placeholders(a + Placeholder(n) + rest) == [n] + Placeholders(rest)
  {
    assert a + Placeholder(n) + rest == a + (Placeholder(n) + rest);
    PlaceholdersAfterPlainText(a, Placeholder(n) + rest);
    PlaceholdersOfMarker(n, rest);
  }

  /** The search clause shape: two placeholders between plain pieces. */
  lemma PlaceholdersOfTwoSegments(a: string, b: string, c: string, n: nat, rest: string)
    requires NoDollar(a) && NoDollar(b) && NoDollar(c)
    requires StartsWithSpace(b) && |c| > 0 && !IsDigit(c[0])
    ensures Placeholders(a + Placeholder(n) + b + Placeholder(n) + c + rest) == [n, n] + Placeholders(rest)
  {
    var p := Placeholder(n);
    var tail := b + p + (c + rest);
    assert a + p + b + p + c + rest == a + p + tail;
    assert b + p + c + rest == tail;
    PlaceholdersAfterPlainText(c, rest);
    PlaceholdersOfSegment(b, n, c + rest);
    PlaceholdersOfSegment(a, n, tail);
  }

  /** One clause contributes exactly its own placeholder numbers. */
  lemma PlaceholdersOfClause(t: SqlText, flt: Filter, n: nat, rest: string)
    requires WellFormed(t)
    requires rest == [] || rest[0] == ' '
    ensures Placeholders(ClauseText(t, flt, n) + rest) == ClauseUses(flt, n) + Placeholders(rest)
  {
    match flt
    case ByStatus(_) => PlaceholdersOfSegment(t.statusOp, n, rest);
    case CreatedFrom(_) => PlaceholdersOfSegment(t.fromOp, n, rest);
    case CreatedTo(_) => PlaceholdersOfSegment(t.toOp, n, rest);
    case Search(_) => PlaceholdersOfTwoSegments(t.searchOpen, t.searchMiddle, t.searchClose, n, rest);
  }

  /** A rendered clause list is empty or starts with a space. */
  lemma RenderClausesStart(t: SqlText, fs: seq<Filter>, start: nat)
    requires WellFormed(t)
    ensures var r := RenderClauses(t, fs, start); r == [] || r[0] == ' '
  {
    if fs != [] {
      var c := ClauseText(t, fs[0], start);
      assert StartsWithSpace(c) by {
        match fs[0]
        case ByStatus(_) =>
        case CreatedFrom(_) =>
        case CreatedTo(_) =>
        case Search(_) =>
          assert c == t.searchOpen + (Placeholder(start) + t.searchMiddle + Placeholder(start) + t.searchClose);
      }
      assert RenderClauses(t, fs, start)[0] == c[0];
    }
  }

  lemma {:induction false} PlaceholdersOfClauses(t: SqlText, fs: seq<Filter>, start: nat, tail: string)
    requires WellFormed(t)
    requires tail == [] || tail[0] == ' '
    ensures Placeholders(RenderClauses(t, fs, start) + tail) == Uses(fs, start) + Placeholders(tail)
    decreases |fs|
  {
    if fs == [] {
      assert RenderClauses(t, fs, start) + tail == tail;
    } else {
      var c := ClauseText(t, fs[0], start);
      var later := RenderClauses(t, fs[1..], start + 1);
      RenderClausesStart(t, fs[1..], start + 1);
      SpaceFirst(later, tail);
      Concat3(c, later, tail);
      PlaceholdersOfClause(t, fs[0], start, later + tail);
      PlaceholdersOfClauses(t, fs[1..], start + 1, tail);
      Concat3(ClauseUses(fs[0], start), Uses(fs[1..], start + 1), Placeholders(tail));
    }
  }

  lemma SpaceFirst(a: string, b: string)
    requires a == [] || a[0] == ' '
    requires b == [] || b[0] == ' '
    ensures a + b == [] || (a + b)[0] == ' '
  {
    if a == [] { assert a + b == b; }
  }

  /** Clauses numbered from `start` mention exactly the numbers
      `start .. start + |fs| - 1`, in non-decreasing order. */
  lemma {:induction false} UsesRange(fs: seq<Filter>, start: nat)
    ensures forall u :: u in Uses(fs, start) <==> start <= u < start + |fs|
    ensures NonDecreasing(Uses(fs, start))
    decreases |fs|
  {
    if fs != [] {
      UsesRange(fs[1..], start + 1);
      var head, tl := ClauseUses(fs[0], start), Uses(fs[1..], start + 1);
      var s := Uses(fs, start);
      assert s == head + tl;
      forall u | start <= u < start + |fs| ensures u in s {
        if u == start { assert head[0] == u; } else { assert u in tl; }
      }
      forall i, j | 0 <= i < j < |s| ensures s[i] <= s[j] {
        if j >= |head| {
          assert s[j] == tl[j - |head|] && tl[j - |head|] in tl;
          if i >= |head| { assert s[i] == tl[i - |head|]; }
        }
      }
    }
  }

  lemma {:induction false} RenderClausesAppend(t: SqlText, fs: seq<Filter>, x: Filter, start: nat)
    ensures RenderClauses(t, fs + [x], start) == RenderClauses(t, fs, start) + ClauseText(t, x, start + |fs|)
    decreases |fs|
  {
    if fs == [] {
      assert fs + [x] == [x];
      assert RenderClauses(t, [x], start) == ClauseText(t, x, start) + "";
    } else {
      var c := ClauseText(t, fs[0], start);
      assert (fs + [x])[1..] == fs[1..] + [x];
      RenderClausesAppend(t, fs[1..], x, start + 1);
      Concat3(c, RenderClauses(t, fs[1..], start + 1), ClauseText(t, x, start + |fs|));
    }
  }

  lemma UsesOfLastSearch(fs: seq<Filter>, q: string, start: nat)
    ensures |Uses(fs + [Search(q)], start)| >= 2
    ensures Uses(fs + [Search(q)], start)[|Uses(fs + [Search(q)], start)| - 2..] == [start + |fs|, start + |fs|]
    decreases |fs|
  {
    if fs != [] {
      assert (fs + [Search(q)])[1..] == fs[1..] + [Search(q)];
      UsesOfLastSearch(fs[1..], q, start + 1);
    }
  }

  /** Between the head and the tail only the clauses' numbers are read. */
  lemma QueryPlaceholders(t: SqlText, fs: seq<Filter>)
    requires WellFormed(t)
    ensures Placeholders(t.select + RenderClauses(t, fs, 1) + t.orderBy) == Uses(fs, 1)
  {
    var body := RenderClauses(t, fs, 1);
    assert t.orderBy + [] == t.orderBy;
    PlaceholdersAfterPlainText(t.orderBy, []);
    PlaceholdersOfClauses(t, fs, 1, t.orderBy);
    Concat3(t.select, body, t.orderBy);
    PlaceholdersAfterPlainText(t.select, body + t.orderBy);
  }

  /** The SQL text the listing runs for filters `f`. */
  function QueryText(t: SqlText, f: ListFilters): string
  {
    t.select + RenderClauses(t, PresentFilters(f), 1) + t.orderBy
  }

  /** The parameters bound to that text, in placeholder order. */
  function QueryParams(f: ListFilters): (ps: seq<Param>)
    ensures |ps| == |PresentFilters(f)|
  {
    ParamsOf(PresentFilters(f))
  }

  /** With no filter the query is the bare listing with no parameters; it
      always ends with the newest-first ordering. */
  lemma ListQueryShape(f: ListFilters)
    ensures PresentFilters(f) == [] ==>
      QueryText(Listing, f) == "SELECT * FROM charges WHERE 1=1" + " ORDER BY created_at DESC" && QueryParams(f) == []
    ensures var s := QueryText(Listing, f);
      |s| >= 25 && s[|s| - 25..] == " ORDER BY created_at DESC"
  {
    var t := Listing;
    var front := t.select + RenderClauses(t, PresentFilters(f), 1);
    EndsWith(front, t.orderBy);
    if PresentFilters(f) == [] {
      assert front == t.select + "";
    }
  }

  lemma EndsWith(a: string, b: string)
    ensures (a + b)[|a + b| - |b|..] == b
  {
  }

  /** The placeholders the text mentions are exactly `$1 .. $n` for the `n`
      parameters, in clause order, and a search clause, always last, reads
      the last number twice and binds `%q%`. */
  lemma ListQueryPlaceholders(f: ListFilters)
    ensures Placeholders(QueryText(Listing, f)) == Uses(PresentFilters(f), 1)
    ensures forall k :: k in Placeholders(QueryText(Listing, f)) <==> 1 <= k <= |QueryParams(f)|
    ensures NonDecreasing(Placeholders(QueryText(Listing, f)))
    ensures Present(f.q) ==>
      && QueryParams(f)[|QueryParams(f)| - 1] == Text("%" + f.q.value + "%")
      && |Placeholders(QueryText(Listing, f))| >= 2
      && Placeholders(QueryText(Listing, f))[|Placeholders(QueryText(Listing, f))| - 2..]
           == [|QueryParams(f)|, |QueryParams(f)|]
  {
    var fs := PresentFilters(f);
    ListingWellFormed();
    QueryPlaceholders(Listing, fs);
    UsesRange(fs, 1);
    if Present(f.q) {
      UsesOfLastSearch(FiltersToTo(f), f.q.value, 1);
    }
  }

  /** One `if` block of the builder keeps the query text in step with the
      filters taken so far. */
  lemma ClauseStep(t: SqlText, query: string, paramIndex: nat, fs: seq<Filter>, flt: Filter)
    requires query == t.select + RenderClauses(t, fs, 1) && paramIndex == |fs| + 1
    ensures query + ClauseText(t, flt, paramIndex) == t.select + RenderClauses(t, fs + [flt], 1)
  {
    var r, c := RenderClauses(t, fs, 1), ClauseText(t, flt, paramIndex);
    RenderClausesAppend(t, fs, flt, 1);
    Concat3(t.select, r, c);
  }

  lemma ParamsStep(params: seq<Param>, fs: seq<Filter>, flt: Filter)
    requires params == ParamsOf(fs)
    ensures params + [ParamOf(flt)] == ParamsOf(fs + [flt])
  {
  }

  lemma Concat3<T>(a: seq<T>, b: seq<T>, c: seq<T>)
    ensures a + b + c == a + (b + c)
  {
  }

  /** Builds a listing query over the text pieces `t` the way the handler
      does: one clause per present filter, each taking the next placeholder
      number, except that the search clause uses its number twice and does
      not advance it. */
  method BuildQuery(t: SqlText, f: ListFilters) returns (query: string, params: seq<Param>)
    ensures query == QueryText(t, f)
    ensures params == QueryParams(f)
  {
    query := t.select;
    params := [];
    var paramIndex: nat := 1;
    ghost var fs: seq<Filter> := [];

    if Present(f.status) {
      var flt := ByStatus(f.status.value);
      ClauseStep(t, query, paramIndex, fs, flt);
      ParamsStep(params, fs, flt);
      query := query + ClauseText(t, flt, paramIndex);
      paramIndex := paramIndex + 1;
      params := params + [Text(f.status.value)];
      fs := fs + [flt];
    }
    assert fs == FiltersToStatus(f);
    if Present(f.from) {
      var flt := CreatedFrom(f.from.value);
      ClauseStep(t, query, paramIndex, fs, flt);
      ParamsStep(params, fs, flt);
      query := query + ClauseText(t, flt, paramIndex);
      paramIndex := paramIndex + 1;
      params := params + [Timestamp(f.from.value)];
      fs := fs + [flt];
    }
    assert fs == FiltersToFrom(f);
    if Present(f.to) {
      var flt := CreatedTo(f.to.value);
      ClauseStep(t, query, paramIndex, fs, flt);
      ParamsStep(params, fs, flt);
      query := query + ClauseText(t, flt, paramIndex);
      paramIndex := paramIndex + 1;
      params := params + [Timestamp(f.to.value)];
      fs := fs + [flt];
    }
    assert fs == FiltersToTo(f);
    if Present(f.q) {
      var flt := Search(f.q.value);
      ClauseStep(t, query, paramIndex, fs, flt);
      ParamsStep(params, fs, flt);
      query := query + ClauseText(t, flt, paramIndex);
      params := params + [Text("%" + f.q.value + "%")];
      fs := fs + [flt];
    }
    assert fs == PresentFilters(f);

    query := query + t.orderBy;
  }

  /** The handler's builder, over the listing's own text. */
  method BuildListQuery(f: ListFilters) returns (query: string, params: seq<Param>)
    ensures query == QueryText(Listing, f)
    ensures params == QueryParams(f)
  {
    query, params := BuildQuery(Listing, f);
  }
}
