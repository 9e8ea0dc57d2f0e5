/**
 * utils/sql_utils.py: pulling fenced SQL out of a model's answer, the text
 * `save_sql_queries` writes, and the grouping of schema rows by table.
 *
 * The pattern ```sql\s*(.*?)\s*``` (DOTALL) is modelled by where it matches:
 * a match starts at the first "```sql" at or after the scan point and ends at
 * the first "```" at or after the end of that opener; the whitespace the two
 * `\s*` consume is exactly what `strip()` would remove, so the body of a match
 * is the stripped text between opener and closing fence. Scanning resumes
 * right after the closing fence. An opener with no later fence matches
 * nothing, and then no later opener can match either.
 */
module SqlUtils {
  import opened Wrappers
  import opened Text

  const Opener := "```sql"
  const Fence := "```"
  const Separator := "\n\n"

  /** One match of the block pattern: its opener starts at `open`, its closing fence at `close`. */
  datatype Span = Span(open: nat, close: nat)

  /**
   * `m` is a non-greedy match in `s`: an opener, then a closing fence that is
   * the first fence after the opener.
   */
  predicate IsMatch(s: string, m: Span) {
    && OccursAt(s, Opener, m.open)
    && m.open + |Opener| <= m.close
    && OccursAt(s, Fence, m.close)
    && forall j :: m.open + |Opener| <= j < m.close ==> !OccursAt(s, Fence, j)
  }

  /** No opener starts in `[lo, hi)`. */
  predicate NoOpenerBetween(s: string, lo: nat, hi: nat) {
    forall j :: lo <= j < hi ==> !OccursAt(s, Opener, j)
  }

  /**
   * Match `k` starts after match `k - 1` has closed, and no opener lies
   * between them.
   */
  predicate FollowsOn(s: string, ms: seq<Span>, k: nat)
    requires 0 < k < |ms|
  {
    ms[k - 1].close + |Fence| <= ms[k].open && NoOpenerBetween(s, ms[k - 1].close + |Fence|, ms[k].open)
  }

  /** No match can start at or after `from`: every opener there lacks a later closing fence. */
  ghost predicate NoMatchFrom(s: string, from: nat) {
    forall j, c :: from <= j && j + |Opener| <= c && OccursAt(s, Opener, j) ==> !OccursAt(s, Fence, c)
  }

  /**
   * `ms` is what a scan of `s` from `from` must yield: non-greedy matches, in
   * order of appearance, never overlapping, no opener skipped before or
   * between them, and nothing left to match after the last one.
   */
  ghost predicate ScannedFrom(s: string, from: nat, ms: seq<Span>) {
    && (forall k :: 0 <= k < |ms| ==> IsMatch(s, ms[k]) && from <= ms[k].open)
    && (ms != [] ==> NoOpenerBetween(s, from, ms[0].open))
    && (forall k :: 0 < k < |ms| ==> FollowsOn(s, ms, k))
    && (ms == [] ==> NoMatchFrom(s, from))
    && (ms != [] ==> NoMatchFrom(s, ms[|ms| - 1].close + |Fence|))
  }

  /**
   * The next match at or after `from`: the first opener there and the first
   * closing fence after it, or None when either is missing.
   */
  function NextMatch(s: string, from: nat): (r: Option<Span>)
    ensures r.Some? ==> from <= r.value.open && r.value.open + |Opener| <= r.value.close
    ensures r.Some? ==> r.value.close + |Fence| <= |s|
  {
    var p := Find(s, Opener, from);
    if p.None? then None
    else
      var c := Find(s, Fence, p.value + |Opener|);
      if c.None? then None else Some(Span(p.value, c.value))
  }

  /** The matches `re.finditer` yields when it scans `s` from `from` (see `SpansScan`). */
  function Spans(s: string, from: nat): (ms: seq<Span>)
    requires from <= |s|
    decreases |s| - from
  {
    match NextMatch(s, from)
    case None => []
    case Some(m) => [m] + Spans(s, m.close + |Fence|)
  }

  /**
   * The scan finds exactly the pattern's matches: each non-greedy, in order of
   * appearance, never overlapping, none skipped, none after the last.
   */
  lemma {:induction false} SpansScan(s: string, from: nat)
    requires from <= |s|
    ensures ScannedFrom(s, from, Spans(s, from))
    decreases |s| - from
  {
    var p := Find(s, Opener, from);
    if p.None? {
      assert NextMatch(s, from).None?;
      assert Spans(s, from) == [];
      NoOpenerNoMatch(s, from);
    } else {
      var c := Find(s, Fence, p.value + |Opener|);
      if c.None? {
        assert NextMatch(s, from).None?;
        assert Spans(s, from) == [];
        UnclosedOpenerEndsScan(s, from, p.value);
      } else {
        var m := Span(p.value, c.value);
        assert NextMatch(s, from) == Some(m);
        var rest := Spans(s, m.close + |Fence|);
        assert Spans(s, from) == [m] + rest;
        assert IsMatch(s, m);
        assert NoOpenerBetween(s, from, m.open);
        SpansScan(s, m.close + |Fence|);
        ScannedCons(s, from, m, rest);
      }
    }
  }

  /** With no opener at or after `from`, the empty scan is the right one. */
  lemma NoOpenerNoMatch(s: string, from: nat)
    requires forall j :: from <= j ==> !OccursAt(s, Opener, j)
    ensures ScannedFrom(s, from, [])
  {
  }

  /** A first match followed by a scan from its closing fence is a scan from `from`. */
  lemma ScannedCons(s: string, from: nat, m: Span, rest: seq<Span>)
    requires IsMatch(s, m) && from <= m.open && NoOpenerBetween(s, from, m.open)
    requires ScannedFrom(s, m.close + |Fence|, rest)
    ensures ScannedFrom(s, from, [m] + rest)
  {
    var ms := [m] + rest;
    forall k | 0 < k < |ms|
      ensures FollowsOn(s, ms, k)
    {
      if k > 1 {
        assert FollowsOn(s, rest, k - 1);
      }
    }
  }

  /**
   * When the first opener at or after `from` has no closing fence after it, no
   * later opener has one either: nothing matches from `from` on.
   */
  lemma UnclosedOpenerEndsScan(s: string, from: nat, p: nat)
    requires from <= p && OccursAt(s, Opener, p)
    requires forall j :: from <= j < p ==> !OccursAt(s, Opener, j)
    requires forall c :: p + |Opener| <= c ==> !OccursAt(s, Fence, c)
    ensures ScannedFrom(s, from, [])
  {
    forall j, c | from <= j && j + |Opener| <= c && OccursAt(s, Opener, j)
      ensures !OccursAt(s, Fence, c)
    {
      assert p <= j;
    }
  }

  /** `query.group(1).strip()`: the stripped text between the opener and the closing fence. */
  function Body(s: string, m: Span): (b: string)
    ensures IsStripped(b)
  {
    if m.open + |Opener| <= m.close <= |s| then Strip(s[m.open + |Opener|..m.close]) else ""
  }

  /** The stripped bodies of all blocks of `s`, in order of appearance. */
  function Blocks(s: string): seq<string> {
    var ms := Spans(s, 0);
    seq(|ms|, k requires 0 <= k < |ms| => Body(s, ms[k]))
  }

  /** There is one body per match, in the order of the matches, and each is stripped. */
  lemma BlocksAreStrippedBodies(s: string)
    ensures |Blocks(s)| == |Spans(s, 0)|
    ensures forall k :: 0 <= k < |Blocks(s)| ==> Blocks(s)[k] == Body(s, Spans(s, 0)[k])
    ensures forall k :: 0 <= k < |Blocks(s)| ==> IsStripped(Blocks(s)[k])
  {
  }

  /** `"\n\n".join(parts)`. */
  function JoinQueries(parts: seq<string>): string {
    if parts == [] then ""
    else if |parts| == 1 then parts[0]
    else parts[0] + Separator + JoinQueries(parts[1..])
  }

  /** The value `extract_sql_queries(content)` returns. */
  function Extracted(content: string): string {
    JoinQueries(Blocks(content))
  }

  /**
   * extract_sql_queries: collect each match's stripped body, in order, then
   * join them with a blank line.
   */
  method ExtractSqlQueries(content: string) returns (joined: string)
    ensures joined == JoinQueries(Blocks(content))
  {
    var matches := Spans(content, 0);
    var extracted: seq<string> := [];
    for k := 0 to |matches|
      invariant extracted == Blocks(content)[..k]
    {
      extracted := extracted + [Body(content, matches[k])];
    }
    assert extracted == Blocks(content);
    joined := JoinQueries(extracted);
  }

  /** Text without an opener has no block, so extraction yields "". */
  lemma NoOpenerNoBlocks(s: string)
    requires forall j :: !OccursAt(s, Opener, j)
    ensures Blocks(s) == [] && Extracted(s) == ""
  {
    assert Find(s, Opener, 0).None?;
  }

  /** An opener with no closing fence after it ends the scan: text with one such opener and no other yields "". */
  lemma UnclosedOpenerNoBlocks(s: string, p: nat)
    requires OccursAt(s, Opener, p)
    requires forall j :: j != p ==> !OccursAt(s, Opener, j)
    requires forall c :: p + |Opener| <= c ==> !OccursAt(s, Fence, c)
    ensures Blocks(s) == [] && Extracted(s) == ""
  {
    assert Find(s, Opener, 0) == Some(p);
    assert Find(s, Fence, p + |Opener|).None?;
  }

  /**
   * The joined string is empty exactly when there is no block or a single
   * empty one; two empty blocks already join to the non-empty "\n\n".
   */
  lemma {:induction false} JoinQueriesEmptyIff(parts: seq<string>)
    ensures JoinQueries(parts) == "" <==> parts == [] || parts == [""]
  {
    if |parts| > 1 {
      assert |JoinQueries(parts)| >= |Separator|;
    }
  }

  /** extract_sql_queries gives a falsy result exactly when it found no block or one empty block. */
  lemma ExtractedEmptyIff(content: string)
    ensures Extracted(content) == "" <==> Blocks(content) == [] || Blocks(content) == [""]
  {
    JoinQueriesEmptyIff(Blocks(content));
  }

  /** The lines `save_sql_queries` writes for the block numbered `i`. */
  function Section(i: nat, body: string): string {
    "-- Query " + Decimal(i) + "\n" + body + "\n\n"
  }

  /** The sections for `bodies`, numbered consecutively from `first`. */
  function Rendered(bodies: seq<string>, first: nat): string
    decreases |bodies|
  {
    if bodies == [] then "" else Section(first, bodies[0]) + Rendered(bodies[1..], first + 1)
  }

  /** The file `save_sql_queries(content)` writes. */
  function Saved(content: string): string {
    Rendered(Blocks(content), 1)
  }

  /** Appending a block appends one section, numbered right after the ones before it. */
  lemma {:induction false} RenderedSnoc(bodies: seq<string>, body: string, first: nat)
    ensures Rendered(bodies + [body], first) == Rendered(bodies, first) + Section(first + |bodies|, body)
    decreases |bodies|
  {
    if bodies == [] {
      assert Rendered([body], first) == Section(first, body) + Rendered([], first + 1);
    } else {
      assert (bodies + [body])[1..] == bodies[1..] + [body];
      RenderedSnoc(bodies[1..], body, first + 1);
    }
  }

  /** Section `k` of the rendering is numbered `first + k`, between the sections before it and those after it. */
  lemma {:induction false} RenderedSplit(bodies: seq<string>, first: nat, k: nat)
    requires k < |bodies|
    ensures Rendered(bodies, first)
            == Rendered(bodies[..k], first) + Section(first + k, bodies[k]) + Rendered(bodies[k + 1..], first + k + 1)
    decreases k
  {
    if k == 0 {
      assert bodies[..0] == [];
      assert bodies[1..] == bodies[k + 1..];
    } else {
      RenderedSplit(bodies[1..], first + 1, k - 1);
      assert bodies[1..][..k - 1] == bodies[1..k];
      assert bodies[1..][k - 1] == bodies[k];
      assert bodies[1..][k..] == bodies[k + 1..];
      assert bodies[..k][1..] == bodies[1..k];
      assert Rendered(bodies[..k], first) == Section(first, bodies[0]) + Rendered(bodies[1..k], first + 1);
    }
  }

  /** The rendered text is empty exactly when there is nothing to render. */
  lemma RenderedEmptyIff(bodies: seq<string>, first: nat)
    ensures Rendered(bodies, first) == "" <==> bodies == []
  {
    if bodies != [] {
      assert |Section(first, bodies[0])| > 0;
    }
  }

  /**
   * save_sql_queries writes nothing exactly when extraction finds no block;
   * a single empty block still gets its "-- Query 1" header.
   */
  lemma SavedEmptyIff(content: string)
    ensures Saved(content) == "" <==> Blocks(content) == []
    ensures Blocks(content) == [""] ==> Extracted(content) == "" && Saved(content) == "-- Query 1\n\n\n"
  {
    RenderedEmptyIff(Blocks(content), 1);
    if Blocks(content) == [""] {
      assert Decimal(1) == "1";
      assert Rendered([""], 1) == Section(1, "") + Rendered([], 2);
    }
  }

  /**
   * save_sql_queries: `enumerate(matches, 1)`, writing for the i-th match the
   * header "-- Query i" and its stripped body followed by a blank line.
   */
  method SaveSqlQueries(content: string) returns (written: string)
    ensures written == Rendered(Blocks(content), 1)
  {
    var matches := Spans(content, 0);
    ghost var bodies := Blocks(content);
    written := "";
    for k := 0 to |matches|
      invariant written == Rendered(bodies[..k], 1)
    {
      var queryContent := Body(content, matches[k]);
      assert bodies[..k + 1] == bodies[..k] + [queryContent];
      RenderedSnoc(bodies[..k], queryContent, 1);
      written := written + Section(k + 1, queryContent);
    }
    assert bodies[..|matches|] == bodies;
  }

  /** The columns of the rows naming `table`, in row order. */
  function ColumnsOf(rows: seq<(string, string)>, table: string): seq<string>
    decreases |rows|
  {
    if rows == [] then []
    else
      var last := rows[|rows| - 1];
      ColumnsOf(rows[..|rows| - 1], table) + (if last.0 == table then [last.1] else [])
  }

  /** The tables named by some row. */
  function TablesOf(rows: seq<(string, string)>): set<string> {
    set r | r in rows :: r.0
  }

  /** A column is listed under a table exactly when some row pairs them. */
  lemma {:induction false} ColumnsOfMembership(rows: seq<(string, string)>, table: string, column: string)
    ensures column in ColumnsOf(rows, table) <==> (table, column) in rows
    decreases |rows|
  {
    if rows != [] {
      var init := rows[..|rows| - 1];
      assert rows == init + [rows[|rows| - 1]];
      ColumnsOfMembership(init, table, column);
    }
  }

  /** A table has at least one column exactly when some row names it. */
  lemma {:induction false} ColumnsOfNonEmptyIff(rows: seq<(string, string)>, table: string)
    ensures ColumnsOf(rows, table) != [] <==> table in TablesOf(rows)
    decreases |rows|
  {
    if rows != [] {
      var init := rows[..|rows| - 1];
      assert rows == init + [rows[|rows| - 1]];
      assert TablesOf(rows) == TablesOf(init) + {rows[|rows| - 1].0};
      ColumnsOfNonEmptyIff(init, table);
    }
  }

  /** Grouping distributes over concatenation: earlier rows' columns come first. */
  lemma {:induction false} ColumnsOfAppend(a: seq<(string, string)>, b: seq<(string, string)>, table: string)
    ensures ColumnsOf(a + b, table) == ColumnsOf(a, table) + ColumnsOf(b, table)
    decreases |b|
  {
    if b == [] {
      assert a + b == a;
    } else {
      var init := b[..|b| - 1];
      assert (a + b)[..|a + b| - 1] == a + init;
      ColumnsOfAppend(a, init, table);
    }
  }

  /**
   * get_schema_info: for each `(table, column)` row create the table's list on
   * first sight, then append the column. A failed connection or query is
   * re-raised; it is modelled as the error `fetched` carries.
   */
  method GetSchemaInfo(fetched: Result<seq<(string, string)>, string>) returns (r: Result<map<string, seq<string>>, string>)
    ensures fetched.Err? ==> r == Err(fetched.error)
    ensures fetched.Ok? ==> r.Ok?
    ensures fetched.Ok? ==> r.value.Keys == TablesOf(fetched.value)
    ensures fetched.Ok? ==> forall t :: t in r.value ==> r.value[t] == ColumnsOf(fetched.value, t)
  {
    if fetched.Err? {
      return Err(fetched.error);
    }
    var rows := fetched.value;
    var schema: map<string, seq<string>> := map[];
    for i := 0 to |rows|
      invariant schema.Keys == TablesOf(rows[..i])
      invariant forall t :: t in schema ==> schema[t] == ColumnsOf(rows[..i], t)
    {
      var (table, column) := rows[i];
      assert rows[..i + 1][..i] == rows[..i];
      assert TablesOf(rows[..i + 1]) == TablesOf(rows[..i]) + {table};
      if table !in schema {
        ColumnsOfNonEmptyIff(rows[..i], table);
        schema := schema[table := []];
      }
      schema := schema[table := schema[table] + [column]];
    }
    assert rows[..|rows|] == rows;
    return Ok(schema);
  }
}
