/**
 * The mock store: MockHttpTransactionDatabaseRepository over an in-memory
 * stand-in for its Room DAO (a sequence of rows in table order).
 */
module MockRepository {
  import opened Wrappers
  import opened Text
  import opened Transactions

  // ---------------------------------------------------------------------
  // Filter patterns handed to the DAO, and what SQL LIKE makes of them
  // ---------------------------------------------------------------------

  /** The three LIKE patterns of `getFilteredTransactionTuples`. */
  datatype FilterQuery = FilterQuery(codeQuery: string, pathQuery: string, graphQlQuery: string)

  /** Builds the patterns: the code as a prefix, the path as a substring, and the
      GraphQL operation name matched with the very same pattern as the path. */
  function FilteredTransactionQuery(code: string, path: string): (q: FilterQuery)
    ensures q.codeQuery == code + "%"
    ensures path == "" ==> q.pathQuery == "%"
    ensures path != "" ==> q.pathQuery == "%" + path + "%"
    ensures q.graphQlQuery == q.pathQuery
  {
    var pathQuery := if path != "" then "%" + path + "%" else "%";
    FilterQuery(code + "%", pathQuery, pathQuery)
  }

  predicate IsLikeWildcard(c: char) {
    c == '%' || c == '_'
  }

  predicate NoLikeWildcards(s: string) {
    forall i :: 0 <= i < |s| ==> !IsLikeWildcard(s[i])
  }

  /** SQLite's `s LIKE pattern` without an ESCAPE clause: `%` matches any run of
      characters, `_` any one character, and letters compare ASCII case-insensitively. */
  predicate Like(s: string, pattern: string)
    decreases |pattern|, |s|
  {
    if pattern == [] then s == []
    else if pattern[0] == '%' then Like(s, pattern[1..]) || (s != [] && Like(s[1..], pattern))
    else s != [] && (pattern[0] == '_' || SameIgnoringCase(s[0], pattern[0])) && Like(s[1..], pattern[1..])
  }

  /** The pattern "%" matches every string. */
  lemma {:induction false} PercentMatchesAll(s: string)
    ensures Like(s, "%")
  {
    if s != [] {
      PercentMatchesAll(s[1..]);
    }
  }

  /** A wildcard-free pattern head must match the start of the string literally. */
  lemma {:induction false} LiteralHead(s: string, q: string, rest: string)
    requires NoLikeWildcards(q)
    ensures Like(s, q + rest) <==>
            |q| <= |s| && EqualsIgnoreCase(s[..|q|], q) && Like(s[|q|..], rest)
  {
    if q == [] {
      assert q + rest == rest;
      assert s[|q|..] == s;
    } else {
      assert (q + rest)[0] == q[0];
      assert (q + rest)[1..] == q[1..] + rest;
      if s != [] {
        LiteralHead(s[1..], q[1..], rest);
        if |q| <= |s| {
          assert s[1..][|q| - 1..] == s[|q|..];
          assert s[1..][..|q| - 1] == s[1..|q|];
          assert EqualsIgnoreCase(s[..|q|], q) <==>
                 SameIgnoringCase(s[0], q[0]) && EqualsIgnoreCase(s[1..][..|q| - 1], q[1..]) by {
            if SameIgnoringCase(s[0], q[0]) && EqualsIgnoreCase(s[1..][..|q| - 1], q[1..]) {
              forall i | 0 <= i < |q| ensures SameIgnoringCase(s[..|q|][i], q[i]) {
                if i > 0 {
                  assert s[1..][..|q| - 1][i - 1] == s[i];
                }
              }
            }
            if EqualsIgnoreCase(s[..|q|], q) {
              forall i | 0 <= i < |q| - 1 ensures SameIgnoringCase(s[1..][..|q| - 1][i], q[1..][i]) {
                assert s[1..][..|q| - 1][i] == s[..|q|][i + 1];
              }
            }
          }
        }
      }
    }
  }

  /** A leading "%" lets the rest of the pattern match any suffix. */
  lemma {:induction false} LeadingPercent(s: string, rest: string)
    ensures Like(s, "%" + rest) <==> exists i :: 0 <= i <= |s| && Like(s[i..], rest)
  {
    assert ("%" + rest)[0] == '%';
    assert ("%" + rest)[1..] == rest;
    if s != [] {
      LeadingPercent(s[1..], rest);
    }
    if Like(s, "%" + rest) {
      if Like(s, rest) {
        assert s[0..] == s;
      } else {
        var j :| 0 <= j <= |s| - 1 && Like(s[1..][j..], rest);
        assert s[1..][j..] == s[j + 1..];
      }
    }
    if exists i :: 0 <= i <= |s| && Like(s[i..], rest) {
      var i :| 0 <= i <= |s| && Like(s[i..], rest);
      if i == 0 {
        assert s[0..] == s;
      } else {
        assert s[1..][i - 1..] == s[i..];
      }
    }
  }

  /** A wildcard-free text followed by "%" matches exactly the strings it starts. */
  lemma PrefixPattern(s: string, q: string)
    requires NoLikeWildcards(q)
    ensures Like(s, q + "%") <==> StartsWithIgnoreCase(s, q)
  {
    LiteralHead(s, q, "%");
    if |q| <= |s| {
      PercentMatchesAll(s[|q|..]);
    }
  }

  /** The code filter keeps exactly the codes that start with the typed text. */
  lemma CodeQueryMatchesPrefix(s: string, code: string, path: string)
    requires NoLikeWildcards(code)
    ensures Like(s, FilteredTransactionQuery(code, path).codeQuery) <==> StartsWithIgnoreCase(s, code)
  {
    PrefixPattern(s, code);
  }

  /** The typed code is not escaped: an underscore in it is a LIKE wildcard, so the
      code filter "_" keeps the code "200", which does not start with "_". */
  lemma UnderscoreInCodeIsWildcard()
    ensures Like("200", FilteredTransactionQuery("_", "").codeQuery)
    ensures !StartsWithIgnoreCase("200", "_")
  {
    assert FilteredTransactionQuery("_", "").codeQuery == "_%";
    PercentMatchesAll("00");
    assert "200"[1..] == "00";
    assert "_%"[1..] == "%";
    assert !SameIgnoringCase("200"[0], "_"[0]);
  }

  /** The path filter (and therefore the GraphQL filter) keeps exactly the texts that
      contain the typed path; an empty path keeps everything. */
  lemma PathQueryMatchesSubstring(s: string, code: string, path: string)
    requires NoLikeWildcards(path)
    ensures Like(s, FilteredTransactionQuery(code, path).pathQuery) <==> ContainsIgnoreCase(s, path)
    ensures Like(s, FilteredTransactionQuery(code, path).graphQlQuery) <==> ContainsIgnoreCase(s, path)
  {
    if path == "" {
      PercentMatchesAll(s);
      ContainsEmpty(s);
    } else {
      assert "%" + path + "%" == "%" + (path + "%");
      LeadingPercent(s, path + "%");
      forall i | 0 <= i <= |s|
        ensures Like(s[i..], path + "%") <==> StartsWithIgnoreCase(s[i..], path)
      {
        PrefixPattern(s[i..], path);
      }
    }
  }

  // ---------------------------------------------------------------------
  // Row queries of the DAO stand-in
  // ---------------------------------------------------------------------

  /** `getTransactionByUrl`: the rows stored for exactly this URL, in table order. */
  function RowsWithUrl(rows: seq<HttpTransaction>, url: string): (r: seq<HttpTransaction>)
    ensures forall x :: x in r <==> x in rows && x.url == Some(url)
  {
    if rows == [] then []
    else
      var tail := RowsWithUrl(rows[1..], url);
      assert forall i :: 1 <= i < |rows| ==> rows[i] == rows[1..][i - 1];
      if rows[0].url == Some(url) then [rows[0]] + tail else tail
  }

  /** Row `i` is the earliest row stored for `url`. */
  predicate FirstMatchAt(rows: seq<HttpTransaction>, url: string, i: int) {
    0 <= i < |rows| && rows[i].url == Some(url) &&
    forall j :: 0 <= j < i ==> rows[j].url != Some(url)
  }

  /** `getMockedTransactionByUrl`: the first row stored for the URL, or none. */
  function MockFor(rows: seq<HttpTransaction>, url: string): (r: Option<HttpTransaction>)
    ensures r.None? <==> forall i :: 0 <= i < |rows| ==> rows[i].url != Some(url)
    ensures r.Some? ==> r.value.url == Some(url) && r.value in rows
  {
    var matches := RowsWithUrl(rows, url);
    if matches == [] then None
    else
      assert matches[0] in matches;
      Some(matches[0])
  }

  /** The lookup yields the earliest matching row. */
  lemma {:induction false} MockForIsFirstMatch(rows: seq<HttpTransaction>, url: string, i: int)
    requires FirstMatchAt(rows, url, i)
    ensures MockFor(rows, url) == Some(rows[i])
  {
    if i > 0 {
      assert FirstMatchAt(rows[1..], url, i - 1);
      MockForIsFirstMatch(rows[1..], url, i - 1);
    }
  }

  /** When some row is stored for the URL, there is an earliest one. */
  lemma {:induction false} FirstMatchExists(rows: seq<HttpTransaction>, url: string) returns (i: int)
    requires exists k :: 0 <= k < |rows| && rows[k].url == Some(url)
    ensures FirstMatchAt(rows, url, i)
  {
    if rows[0].url == Some(url) {
      i := 0;
    } else {
      var k :| 0 <= k < |rows| && rows[k].url == Some(url);
      assert rows[1..][k - 1].url == Some(url);
      var j := FirstMatchExists(rows[1..], url);
      i := j + 1;
      forall m | 0 <= m < i ensures rows[m].url != Some(url) {
        if m > 0 {
          assert rows[m] == rows[1..][m - 1];
        }
      }
    }
  }

  /** Appending a row adds it at the end of every URL's match list. */
  lemma {:induction false} RowsWithUrlAppend(rows: seq<HttpTransaction>, t: HttpTransaction, url: string)
    ensures RowsWithUrl(rows + [t], url) ==
            RowsWithUrl(rows, url) + (if t.url == Some(url) then [t] else [])
  {
    if rows == [] {
      assert rows + [t] == [t];
    } else {
      assert (rows + [t])[1..] == rows[1..] + [t];
      RowsWithUrlAppend(rows[1..], t, url);
    }
  }

  /** After appending a row for a URL nothing was stored for, the lookup yields that row;
      lookups for every other URL are unchanged. */
  lemma LookupAfterAppend(rows: seq<HttpTransaction>, t: HttpTransaction, url: string)
    ensures t.url == Some(url) && MockFor(rows, url).None? ==> MockFor(rows + [t], url) == Some(t)
    ensures t.url != Some(url) ==> MockFor(rows + [t], url) == MockFor(rows, url)
  {
    RowsWithUrlAppend(rows, t, url);
  }

  /** Overwriting a row with another that keeps its URL leaves every other URL's
      match list alone. */
  lemma {:induction false} RowsWithUrlReplace(rows: seq<HttpTransaction>, i: int, m: HttpTransaction, url: string)
    requires 0 <= i < |rows| && m.url == rows[i].url && rows[i].url != Some(url)
    ensures RowsWithUrl(rows[i := m], url) == RowsWithUrl(rows, url)
  {
    if i > 0 {
      assert rows[i := m][1..] == rows[1..][i - 1 := m];
      RowsWithUrlReplace(rows[1..], i - 1, m, url);
    } else {
      assert rows[i := m][1..] == rows[1..];
    }
  }

  /** After overwriting the first row for a URL with a record of the same URL, the
      lookup for that URL yields the new record and every other lookup is unchanged. */
  lemma LookupAfterReplace(rows: seq<HttpTransaction>, url: string, i: int, m: HttpTransaction, other: string)
    requires FirstMatchAt(rows, url, i) && m.url == Some(url)
    ensures MockFor(rows[i := m], url) == Some(m)
    ensures other != url ==> MockFor(rows[i := m], other) == MockFor(rows, other)
  {
    assert FirstMatchAt(rows[i := m], url, i);
    MockForIsFirstMatch(rows[i := m], url, i);
    if other != url {
      RowsWithUrlReplace(rows, i, m, other);
    }
  }

  /** The request date lies at or after `timestamp`; a row without a date never does. */
  predicate StartedAtOrAfter(t: HttpTransaction, timestamp: int) {
    t.requestDate.Some? && t.requestDate.value >= timestamp
  }

  /** `getTransactionsInTimeRange` of the DAO: the rows dated at or after `timestamp`, in table order. */
  function RowsSince(rows: seq<HttpTransaction>, timestamp: int): (r: seq<HttpTransaction>)
    ensures forall x :: x in r <==> x in rows && StartedAtOrAfter(x, timestamp)
    ensures |r| <= |rows|
  {
    if rows == [] then []
    else
      var tail := RowsSince(rows[1..], timestamp);
      assert forall x :: x in rows <==> x == rows[0] || x in rows[1..];
      if StartedAtOrAfter(rows[0], timestamp) then [rows[0]] + tail else tail
  }

  /** The rows carry pairwise distinct ids. */
  predicate UniqueIds(rows: seq<HttpTransaction>) {
    forall i, j :: 0 <= i < j < |rows| ==> rows[i].id != rows[j].id
  }

  predicate HasId(rows: seq<HttpTransaction>, id: int) {
    exists i :: 0 <= i < |rows| && rows[i].id == id
  }

  /** Room's `@Update`: every row with the record's primary key takes the record's values. */
  function ReplaceById(rows: seq<HttpTransaction>, t: HttpTransaction): (r: seq<HttpTransaction>)
    ensures |r| == |rows|
    ensures forall i :: 0 <= i < |rows| ==> r[i] == (if rows[i].id == t.id then t else rows[i])
  {
    seq(|rows|, i requires 0 <= i < |rows| => if rows[i].id == t.id then t else rows[i])
  }

  /** With distinct ids, updating by the key of row `i` overwrites row `i` and nothing else. */
  lemma ReplaceByIdIsPointUpdate(rows: seq<HttpTransaction>, i: int, t: HttpTransaction)
    requires UniqueIds(rows) && 0 <= i < |rows| && rows[i].id == t.id
    ensures ReplaceById(rows, t) == rows[i := t]
  {
    forall j | 0 <= j < |rows|
      ensures ReplaceById(rows, t)[j] == rows[i := t][j]
    {
      if j < i {
        assert rows[j].id != rows[i].id;
      } else if j > i {
        assert rows[i].id != rows[j].id;
      }
    }
  }

  /** `getTransaction`'s change comparator: a new value counts as the same when the
      previous one is null, or when it has the same content as the previous one. */
  function IsSameTransaction(
    previous: Option<HttpTransaction>,
    next: Option<HttpTransaction>,
    hasTheSameContent: (HttpTransaction, Option<HttpTransaction>) -> bool): (same: bool)
    ensures previous.None? ==> same
    ensures previous.Some? ==> (same <==> hasTheSameContent(previous.value, next))
  {
    match previous
    case None => true
    case Some(p) => hasTheSameContent(p, next)
  }

  // ---------------------------------------------------------------------
  // The DAO stand-in and the repository
  // ---------------------------------------------------------------------

  /** In-memory stand-in for `HttpTransactionDao`: rows in table order, keys handed out
      from a counter. */
  class HttpTransactionDao {
    var rows: seq<HttpTransaction>
    var nextId: int

    ghost predicate Valid()
      reads this
    {
      1 <= nextId &&
      (forall i :: 0 <= i < |rows| ==> 1 <= rows[i].id < nextId) &&
      UniqueIds(rows)
    }

    constructor ()
      ensures Valid() && rows == []
    {
      rows := [];
      nextId := 1;
    }

    /** `insert`: stores the record under a new key and reports that key. The Kotlin
        signature is `Long?`, so the contract leaves room for a call that stores nothing
        and reports no key. */
    method Insert(t: HttpTransaction) returns (id: Option<int>)
      requires Valid()
      modifies this
      ensures Valid()
      ensures id.Some? ==> rows == old(rows) + [t.(id := id.value)] && !HasId(old(rows), id.value)
      ensures id.None? ==> rows == old(rows)
    {
      id := Some(nextId);
      rows := rows + [t.(id := nextId)];
      nextId := nextId + 1;
    }

    /** `update`: overwrites the row with the record's key and reports how many rows changed. */
    method Update(t: HttpTransaction) returns (count: int)
      requires Valid()
      modifies this
      ensures Valid()
      ensures rows == ReplaceById(old(rows), t)
      ensures count == (if HasId(old(rows), t.id) then 1 else 0)
    {
      count := if HasId(rows, t.id) then 1 else 0;
      rows := ReplaceById(rows, t);
      assert forall i :: 0 <= i < |rows| ==> rows[i].id == old(rows)[i].id;
    }

    method DeleteAll()
      requires Valid()
      modifies this
      ensures Valid() && rows == []
    {
      rows := [];
    }

  }

  class MockHttpTransactionDatabaseRepository {
    const dao: HttpTransactionDao

    ghost predicate Valid()
      reads this, dao
    {
      dao.Valid()
    }

    constructor (dao: HttpTransactionDao)
      ensures this.dao == dao
    {
      this.dao := dao;
    }

    /** `insertTransaction`: stores the record and gives it the key the DAO reported,
        or 0 when the DAO reported none. */
    method InsertTransaction(transaction: HttpTransaction) returns (stored: HttpTransaction)
      requires Valid()
      modifies dao
      ensures Valid()
      ensures stored == transaction.(id := stored.id)
      ensures (dao.rows == old(dao.rows) + [stored] && !HasId(old(dao.rows), stored.id)) ||
              (dao.rows == old(dao.rows) && stored.id == 0)
    {
      var id := dao.Insert(transaction);
      stored := transaction.(id := id.GetOr(0));
    }

    /** `updateTransaction`: the number of rows the DAO changed. */
    method UpdateTransaction(transaction: HttpTransaction) returns (count: int)
      requires Valid()
      modifies dao
      ensures Valid()
      ensures dao.rows == ReplaceById(old(dao.rows), transaction)
      ensures count == (if HasId(old(dao.rows), transaction.id) then 1 else 0)
    {
      count := dao.Update(transaction);
    }

    method DeleteAllTransactions()
      requires Valid()
      modifies dao
      ensures Valid() && dao.rows == []
    {
      dao.DeleteAll();
    }

    /** `getTransactionsInTimeRange`: a missing lower bound counts as 0. */
    function GetTransactionsInTimeRange(minTimestamp: Option<int>): (r: seq<HttpTransaction>)
      reads this, dao
      ensures forall x :: x in r <==>
        x in dao.rows && StartedAtOrAfter(x, if minTimestamp.Some? then minTimestamp.value else 0)
    {
      var timestamp := minTimestamp.GetOr(0);
      RowsSince(dao.rows, timestamp)
    }

    /** `getMockedTransactionByUrl`: the first stored row for the URL, or none. */
    function GetMockedTransactionByUrl(url: string): (mock: Option<HttpTransaction>)
      reads this, dao
      ensures mock.None? <==> forall i :: 0 <= i < |dao.rows| ==> dao.rows[i].url != Some(url)
      ensures forall i :: FirstMatchAt(dao.rows, url, i) ==> mock == Some(dao.rows[i])
    {
      assert forall i :: FirstMatchAt(dao.rows, url, i) ==> MockFor(dao.rows, url) == Some(dao.rows[i]) by {
        forall i | FirstMatchAt(dao.rows, url, i) ensures MockFor(dao.rows, url) == Some(dao.rows[i]) {
          MockForIsFirstMatch(dao.rows, url, i);
        }
      }
      MockFor(dao.rows, url)
    }
  }
}
