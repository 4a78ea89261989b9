/** The catalog store: the `movies`, `categories` and `users` tables, the
    statements that change them and the queries that read them.  Each table
    is a map (or set) keyed by its primary key; the statements are methods
    of `Database`, each stated through a pure function on the table, and
    the queries are pure functions of the tables. */
module Catalog {
  import opened Wrappers
  import opened Text
  import opened Order

  /** A `movies` row apart from its primary key `code`. */
  datatype Movie = Movie(fileId: string, title: string, category: string, views: nat)

  /** A `movies` row as a query returns it. */
  datatype Row = Row(code: string, movie: Movie)

  type Movies = map<string, Movie>

  /** `LIMIT` of the top-movies query when the caller gives none. */
  const DefaultTopLimit: nat := 10

  // ---------------------------------------------------------------------
  // The statements, as functions of the table they change

  /** `INSERT ... ON CONFLICT (code) DO UPDATE SET file_id, title, category`:
      a new code gets a row with no views; an existing code gets the three
      new fields and keeps its view counter; no other row changes. */
  function Upsert(m: Movies, code: string, fileId: string, title: string, category: string): (r: Movies)
    ensures r.Keys == m.Keys + {code}
    ensures r[code].fileId == fileId && r[code].title == title && r[code].category == category
    ensures code !in m ==> r[code].views == 0
    ensures code in m ==> r[code].views == m[code].views
    ensures forall c | c in m && c != code :: r[c] == m[c]
  {
    m[code := Movie(fileId, title, category, if code in m then m[code].views else 0)]
  }

  /** `DELETE ... WHERE code = :code`: that row goes, if it was there. */
  function Remove(m: Movies, code: string): (r: Movies)
    ensures r.Keys == m.Keys - {code}
    ensures forall c | c in r :: r[c] == m[c]
  {
    m - {code}
  }

  /** `UPDATE ... SET views = views + 1 WHERE code = :code`. */
  function Bump(m: Movies, code: string): (r: Movies)
    ensures r.Keys == m.Keys
    ensures code in m ==> r[code] == m[code].(views := m[code].views + 1)
    ensures forall c | c in m && c != code :: r[c] == m[c]
  {
    if code in m then m[code := m[code].(views := m[code].views + 1)] else m
  }

  /** The stored `username`: Python's `username or ""`, so a missing
      username is stored as the empty string. */
  function StoredName(username: Option<string>): (r: string)
    ensures username.Some? ==> r == username.value
    ensures r == "" <==> username.None? || username.value == ""
  {
    if username.Some? then username.value else ""
  }

  // ---------------------------------------------------------------------
  // Facts about the statements

  lemma UpsertNew(m: Movies, code: string, fileId: string, title: string, category: string)
    requires code !in m
    ensures Upsert(m, code, fileId, title, category)[code] == Movie(fileId, title, category, 0)
    ensures |Upsert(m, code, fileId, title, category)| == |m| + 1
  {
    assert Upsert(m, code, fileId, title, category).Keys == m.Keys + {code};
  }

  /** Deleting an absent code, or bumping one, leaves the table as it was. */
  lemma AbsentCodeIsNoOp(m: Movies, code: string)
    requires code !in m
    ensures Remove(m, code) == m && Bump(m, code) == m
  {
  }

  // ---------------------------------------------------------------------
  // Queries

  /** `SELECT ... WHERE code = :code`: an exact, case-sensitive key match. */
  function FindMovie(m: Movies, code: string): (r: Option<Movie>)
    ensures r.Some? <==> code in m
    ensures r.Some? ==> r.value == m[code]
  {
    if code in m then Some(m[code]) else None
  }

  /** Every row of `r` is a row of table `m`. */
  predicate FromTable(r: seq<Row>, m: Movies) {
    forall i | 0 <= i < |r| :: r[i].code in m && m[r[i].code] == r[i].movie
  }

  /** No code appears twice in `r`. */
  predicate DistinctCodes(r: seq<Row>) {
    forall i, j | 0 <= i < j < |r| :: r[i].code != r[j].code
  }

  /** The codes of `r` strictly ascend, so none appears twice. */
  predicate InCodeOrder(r: seq<Row>) {
    forall i, j | 0 <= i < j < |r| :: StrLe(r[i].code, r[j].code) && r[i].code != r[j].code
  }

  /** The whole table, one row per code, in ascending code order (the order
      in which the model lists rows a query does not sort). */
  function RowsOf(m: Movies): (r: seq<Row>)
    ensures |r| == |m|
    ensures FromTable(r, m)
    ensures forall c | c in m :: Row(c, m[c]) in r
    ensures InCodeOrder(r) && DistinctCodes(r)
  {
    var codes := SortedList(m.Keys);
    assert |m.Keys| == |m|;
    var r := seq(|codes|, i requires 0 <= i < |codes| => Row(codes[i], m[codes[i]]));
    RowsAt(codes, m, r);
    r
  }

  /** The rows of `m` at the codes of an ascending listing of its keys. */
  lemma RowsAt(codes: seq<string>, m: Movies, r: seq<Row>)
    requires forall k :: k in codes <==> k in m
    requires Ascending(codes)
    requires |r| == |codes|
    requires forall i | 0 <= i < |r| :: r[i] == Row(codes[i], m[codes[i]])
    ensures FromTable(r, m)
    ensures forall c | c in m :: Row(c, m[c]) in r
    ensures InCodeOrder(r) && DistinctCodes(r)
  {
    forall c | c in m ensures Row(c, m[c]) in r {
      var i :| 0 <= i < |codes| && codes[i] == c;
      assert r[i] == Row(c, m[c]);
    }
  }

  /** Two orderings of the same rows of `m` hold the same rows, all of
      them rows of `m`, and neither repeats a code the other does not. */
  lemma SameRows(a: seq<Row>, b: seq<Row>, m: Movies)
    requires multiset(a) == multiset(b)
    requires FromTable(b, m)
    ensures |a| == |b|
    ensures forall x :: x in a <==> x in b
    ensures FromTable(a, m)
    ensures DistinctCodes(b) ==> DistinctCodes(a)
  {
    assert |a| == |multiset(a)|;
    forall x ensures x in a <==> x in b {
      assert x in a <==> x in multiset(a);
      assert x in b <==> x in multiset(b);
    }
    forall i | 0 <= i < |a| ensures a[i].code in m && m[a[i].code] == a[i].movie {
      assert a[i] in b;
      var j :| 0 <= j < |b| && b[j] == a[i];
    }
    if DistinctCodes(b) {
      AtMostOnce(b);
      forall i, j | 0 <= i < j < |a| ensures a[i].code != a[j].code {
        Twice(a, i, j);
      }
    }
  }

  /** A row of a list with distinct codes occurs in it at most once. */
  lemma {:induction false} AtMostOnce(b: seq<Row>)
    requires DistinctCodes(b)
    ensures forall x :: multiset(b)[x] <= 1
  {
    if b != [] {
      assert b == [b[0]] + b[1..];
      AtMostOnce(b[1..]);
      assert b[0] !in b[1..];
    }
  }

  /** A row found at two positions of `a` is counted twice. */
  lemma Twice(a: seq<Row>, i: nat, j: nat)
    requires i < j < |a|
    ensures a[i] == a[j] ==> multiset(a)[a[i]] >= 2
  {
    assert a == a[..j] + a[j..];
    assert a[i] in a[..j] && a[j] in a[j..];
  }

  /** The two `ORDER BY` clauses of the queries. */
  datatype SortKey = ByTitle | ByViewsDesc

  predicate Before(key: SortKey, a: Row, b: Row) {
    match key
    case ByTitle => StrLe(a.movie.title, b.movie.title)
    case ByViewsDesc => a.movie.views >= b.movie.views
  }

  lemma BeforeTotal(key: SortKey, a: Row, b: Row)
    ensures Before(key, a, b) || Before(key, b, a)
  {
    if key == ByTitle {
      StrLeTotal(a.movie.title, b.movie.title);
    }
  }

  lemma BeforeTransitive(key: SortKey, a: Row, b: Row, c: Row)
    requires Before(key, a, b) && Before(key, b, c)
    ensures Before(key, a, c)
  {
    if key == ByTitle {
      StrLeTransitive(a.movie.title, b.movie.title, c.movie.title);
    }
  }

  predicate SortedBy(key: SortKey, r: seq<Row>) {
    forall i, j | 0 <= i < j < |r| :: Before(key, r[i], r[j])
  }

  /** A row that sorts before every row of a sorted list can go in front. */
  lemma ConsSorted(key: SortKey, x: Row, s: seq<Row>)
    requires SortedBy(key, s)
    requires forall j | 0 <= j < |s| :: Before(key, x, s[j])
    ensures SortedBy(key, [x] + s)
  {
    var r := [x] + s;
    forall i, j | 0 <= i < j < |r| ensures Before(key, r[i], r[j]) {
      assert r[j] == s[j - 1];
      if i > 0 {
        assert r[i] == s[i - 1];
      }
    }
  }

  /** `x` put into sorted `s` in front of the first row it sorts before. */
  function Insert(key: SortKey, x: Row, s: seq<Row>): (r: seq<Row>)
    requires SortedBy(key, s)
    ensures SortedBy(key, r)
    ensures multiset(r) == multiset(s) + multiset{x}
  {
    if s == [] then [x]
    else if Before(key, x, s[0]) then
      forall j | 0 <= j < |s| ensures Before(key, x, s[j]) {
        if j > 0 {
          BeforeTransitive(key, x, s[0], s[j]);
        }
      }
      ConsSorted(key, x, s);
      [x] + s
    else
      assert SortedBy(key, s[1..]);
      var rest := Insert(key, x, s[1..]);
      assert s == [s[0]] + s[1..];
      InsertBehind(key, x, s, rest);
      [s[0]] + rest
  }

  /** The head of a sorted list stays in front of `x` inserted into its tail,
      when `x` does not sort before it. */
  lemma InsertBehind(key: SortKey, x: Row, s: seq<Row>, rest: seq<Row>)
    requires s != [] && SortedBy(key, s) && !Before(key, x, s[0])
    requires SortedBy(key, rest) && multiset(rest) == multiset(s[1..]) + multiset{x}
    ensures SortedBy(key, [s[0]] + rest)
  {
    BeforeTotal(key, x, s[0]);
    forall j | 0 <= j < |rest| ensures Before(key, s[0], rest[j]) {
      assert rest[j] in multiset(rest);
      if rest[j] != x {
        assert rest[j] in multiset(s[1..]);
        var k :| 0 <= k < |s[1..]| && s[1..][k] == rest[j];
        assert s[k + 1] == rest[j];
      }
    }
    ConsSorted(key, s[0], rest);
  }

  /** Insertion sort: the same rows, ordered by `key`. */
  function Sort(key: SortKey, s: seq<Row>): (r: seq<Row>)
    ensures SortedBy(key, r)
    ensures multiset(r) == multiset(s)
  {
    if s == [] then []
    else
      assert s == [s[0]] + s[1..];
      Insert(key, s[0], Sort(key, s[1..]))
  }

  /** Python's `[x for x in rows if keep(x)]`: the rows `keep` accepts,
      in their order, so rows listed by ascending code stay so. */
  function Filter(rows: seq<Row>, keep: Row -> bool): (r: seq<Row>)
    ensures forall x :: x in r <==> x in rows && keep(x)
    ensures InCodeOrder(rows) ==> InCodeOrder(r)
  {
    if rows == [] then []
    else
      assert rows == [rows[0]] + rows[1..];
      var rest := Filter(rows[1..], keep);
      InOrderCons(rows, rest);
      if keep(rows[0]) then [rows[0]] + rest else rest
  }

  /** The first row of an ascending listing may head any list drawn from
      the rows after it. */
  lemma InOrderCons(rows: seq<Row>, rest: seq<Row>)
    requires rows != []
    requires forall x | x in rest :: x in rows[1..]
    ensures InCodeOrder(rows) ==> InCodeOrder(rows[1..])
    ensures InCodeOrder(rows) && InCodeOrder(rest) ==> InCodeOrder([rows[0]] + rest)
  {
    if InCodeOrder(rows) && InCodeOrder(rest) {
      var r := [rows[0]] + rest;
      forall i, j | 0 <= i < j < |r| ensures StrLe(r[i].code, r[j].code) && r[i].code != r[j].code {
        if i == 0 {
          assert r[j] in rows[1..];
          var k :| 0 <= k < |rows| - 1 && rows[1..][k] == r[j];
          assert rows[k + 1] == r[j];
        } else {
          assert r[i] == rest[i - 1] && r[j] == rest[j - 1];
        }
      }
    }
  }

  /** `get_all_movies`: every movie once, ordered by title. */
  function AllMovies(m: Movies): (r: seq<Row>)
    ensures |r| == |m|
    ensures FromTable(r, m)
    ensures forall c | c in m :: Row(c, m[c]) in r
    ensures DistinctCodes(r)
    ensures SortedBy(ByTitle, r)
  {
    var r := Sort(ByTitle, RowsOf(m));
    SameRows(r, RowsOf(m), m);
    r
  }

  /** The rows of the whole table that `keep` accepts are exactly the rows
      of `m` it accepts. */
  lemma Kept(rows: seq<Row>, keep: Row -> bool, m: Movies)
    requires FromTable(rows, m) && InCodeOrder(rows)
    requires forall c | c in m :: Row(c, m[c]) in rows
    ensures DistinctCodes(Filter(rows, keep))
    ensures FromTable(Filter(rows, keep), m)
    ensures forall i | 0 <= i < |Filter(rows, keep)| :: keep(Filter(rows, keep)[i])
    ensures forall c | c in m && keep(Row(c, m[c])) :: Row(c, m[c]) in Filter(rows, keep)
  {
    var r := Filter(rows, keep);
    forall i | 0 <= i < |r| ensures r[i].code in m && m[r[i].code] == r[i].movie && keep(r[i]) {
      assert r[i] in r;
      var j :| 0 <= j < |rows| && rows[j] == r[i];
    }
  }

  /** `get_movies_by_category`: exactly the movies whose category is `cat`. */
  function MoviesInCategory(m: Movies, cat: string): (r: seq<Row>)
    ensures FromTable(r, m)
    ensures DistinctCodes(r)
    ensures forall i | 0 <= i < |r| :: r[i].movie.category == cat
    ensures forall c | c in m && m[c].category == cat :: Row(c, m[c]) in r
  {
    var keep := (x: Row) => x.movie.category == cat;
    Kept(RowsOf(m), keep, m);
    Filter(RowsOf(m), keep)
  }

  /** `search_movies`: exactly the movies whose title contains `query`,
      ignoring case. */
  function SearchTitles(m: Movies, query: string): (r: seq<Row>)
    ensures FromTable(r, m)
    ensures DistinctCodes(r)
    ensures forall i | 0 <= i < |r| :: ContainsIgnoringCase(r[i].movie.title, query)
    ensures forall c | c in m && ContainsIgnoringCase(m[c].title, query) :: Row(c, m[c]) in r
  {
    var keep := (x: Row) => ContainsIgnoringCase(x.movie.title, query);
    Kept(RowsOf(m), keep, m);
    Filter(RowsOf(m), keep)
  }

  /** In a list sorted by views, a row beyond the first `n` has no more
      views than any of the first `n`. */
  lemma {:induction false} PrefixDominates(s: seq<Row>, n: nat, x: Row, i: nat)
    requires SortedBy(ByViewsDesc, s)
    requires n <= |s| && i < n
    requires x in s && x !in s[..n]
    ensures x.movie.views <= s[i].movie.views
  {
    assert forall k | 0 <= k < n :: s[..n][k] == s[k];
    var j :| 0 <= j < |s| && s[j] == x;
    assert j >= n;
    assert Before(ByViewsDesc, s[i], s[j]);
  }

  /** The first `n` rows of a by-views reordering `s` of the whole table
      `all`. */
  lemma TopPrefix(all: seq<Row>, s: seq<Row>, n: nat, r: seq<Row>, m: Movies)
    requires FromTable(all, m) && DistinctCodes(all)
    requires forall c | c in m :: Row(c, m[c]) in all
    requires SortedBy(ByViewsDesc, s) && multiset(s) == multiset(all)
    requires n <= |all| == |s| && r == s[..n]
    ensures FromTable(r, m) && SortedBy(ByViewsDesc, r)
    ensures DistinctCodes(r)
    ensures forall c, i | c in m && Row(c, m[c]) !in r && 0 <= i < |r| :: m[c].views <= r[i].movie.views
  {
    SameRows(s, all, m);
    assert forall i | 0 <= i < n :: r[i] == s[i];
    forall c, i | c in m && Row(c, m[c]) !in r && 0 <= i < n ensures m[c].views <= r[i].movie.views {
      PrefixDominates(s, n, Row(c, m[c]), i);
    }
  }

  /** `get_top_movies(limit)`: at most `limit` movies, most viewed first,
      and no movie left out has more views than one listed. */
  function TopMovies(m: Movies, limit: nat): (r: seq<Row>)
    ensures |r| == if limit < |m| then limit else |m|
    ensures FromTable(r, m)
    ensures DistinctCodes(r)
    ensures SortedBy(ByViewsDesc, r)
    ensures forall c, i | c in m && Row(c, m[c]) !in r && 0 <= i < |r| :: m[c].views <= r[i].movie.views
  {
    var all := RowsOf(m);
    var s := Sort(ByViewsDesc, all);
    assert |s| == |multiset(s)| == |multiset(all)| == |all|;
    var n := if limit < |m| then limit else |m|;
    var r := s[..n];
    TopPrefix(all, s, n, r, m);
    r
  }

  // ---------------------------------------------------------------------
  // The tables

  /** The three tables, changed in place by the bot's statements. */
  class Database {
    var movies: Movies
    var categories: set<string>
    /** `users`: `user_id` to `username`. */
    var users: map<string, string>

    constructor ()
      ensures movies == map[] && categories == {} && users == map[]
    {
      movies, categories, users := map[], {}, map[];
    }

    /** `add_movie`. */
    method AddMovie(code: string, fileId: string, title: string, category: string)
      modifies this
      ensures movies == Upsert(old(movies), code, fileId, title, category)
      ensures categories == old(categories) && users == old(users)
    {
      movies := Upsert(movies, code, fileId, title, category);
    }

    /** `delete_movie`. */
    method DeleteMovie(code: string)
      modifies this
      ensures movies == Remove(old(movies), code)
      ensures categories == old(categories) && users == old(users)
    {
      movies := Remove(movies, code);
    }

    /** `add_category`: `ON CONFLICT DO NOTHING`, so adding a present name
      changes nothing. */
    method AddCategory(name: string)
      modifies this
      ensures categories == old(categories) + {name}
      ensures name in old(categories) ==> categories == old(categories)
      ensures movies == old(movies) && users == old(users)
    {
      if name !in categories {
        categories := categories + {name};
      }
    }

    /** `delete_category`: no cascade, so every movie keeps its category. */
    method DeleteCategory(name: string)
      modifies this
      ensures categories == old(categories) - {name}
      ensures movies == old(movies) && users == old(users)
    {
      categories := categories - {name};
    }

    /** `update_movie_views`. */
    method UpdateMovieViews(code: string)
      modifies this
      ensures movies == Bump(old(movies), code)
      ensures categories == old(categories) && users == old(users)
    {
      movies := Bump(movies, code);
    }

    /** `add_user`: insert or overwrite the user's row. */
    method AddUser(userId: string, username: Option<string>)
      modifies this
      ensures users == old(users)[userId := StoredName(username)]
      ensures movies == old(movies) && categories == old(categories)
    {
      users := users[userId := StoredName(username)];
    }
  }
}
