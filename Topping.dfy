/**
 * The top-selection stage (`topping` command): from each prediction table
 * keep the best-scored rows, twice the requested fraction of them, caching
 * that per-table set; merge the sets, sort again and keep the better half
 * as the final selection.
 *
 * The stage only reads and writes whole tables, so it is modelled as
 * functions from the filesystem before the call to the result and the
 * filesystem after it. pandas' `sort_values` does not keep the order of
 * equal scores; the model sorts in one particular way and promises nothing
 * about the order among equal scores.
 */
module Topping {
  import opened Paths
  import opened Files

  /** The outcome of `top` for one table: its rows, and the filesystem afterwards. */
  datatype TopRun = TopRun(rows: seq<Scored>, files: map<Path, Content>)

  /** The outcome of `main`: the final selection (None when the stage was skipped), and the filesystem afterwards. */
  datatype Selection = Selection(selected: Option<seq<Scored>>, files: map<Path, Content>)

  const PredictionTail := ".predict.smiles.score.csv"

  /** The per-table cache: `top.smiles.csv` in the table's directory, whatever the table is called. */
  function CachePath(table: Path): (p: Path)
    ensures p.dir == table.dir && p.name == "top.smiles.csv"
  {
    Join(table.dir, "top.smiles.csv")
  }

  /** The final selection: `<wd>/top.smiles`. */
  function OutputPath(wd: string): Path
  {
    Join(wd, "top.smiles")
  }

  // ----- sorting and heading -----

  predicate SortedByScore(s: seq<Scored>)
  {
    forall i, j :: 0 <= i < j < |s| ==> s[i].score <= s[j].score
  }

  /** Put `x` before the first row that scores at least as well as it. */
  function Insert(x: Scored, s: seq<Scored>): (r: seq<Scored>)
    ensures multiset(r) == multiset(s) + multiset{x}
    ensures |r| == |s| + 1
  {
    if s == [] then [x]
    else if x.score <= s[0].score then [x] + s
    else
      assert s == [s[0]] + s[1..];
      [s[0]] + Insert(x, s[1..])
  }

  /** Inserting into a sorted sequence keeps it sorted. */
  lemma {:induction false} InsertSorted(x: Scored, s: seq<Scored>)
    requires SortedByScore(s)
    ensures SortedByScore(Insert(x, s))
  {
    if s != [] && x.score > s[0].score {
      var rest := Insert(x, s[1..]);
      assert SortedByScore(rest) by {
        SortedTail(s);
        InsertSorted(x, s[1..]);
      }
      assert forall i :: 0 <= i < |rest| ==> s[0].score <= rest[i].score by {
        var pool := [x] + s[1..];
        SortedHead(x, s);
        assert multiset(rest) == multiset(pool);
        LowerBound(s[0].score, pool, rest);
      }
      ConsSorted(s[0], rest);
      assert Insert(x, s) == [s[0]] + rest;
    }
  }

  lemma SortedTail(s: seq<Scored>)
    requires s != [] && SortedByScore(s)
    ensures SortedByScore(s[1..])
  {
    var t := s[1..];
    forall i, j | 0 <= i < j < |t|
      ensures t[i].score <= t[j].score
    {
      assert t[i] == s[i + 1] && t[j] == s[j + 1];
    }
  }

  /** The first row of a sorted sequence is no worse than the rest, nor than a row that scores worse than it. */
  lemma SortedHead(x: Scored, s: seq<Scored>)
    requires s != [] && SortedByScore(s) && x.score > s[0].score
    ensures forall i :: 0 <= i < |[x] + s[1..]| ==> s[0].score <= ([x] + s[1..])[i].score
  {
    var pool := [x] + s[1..];
    forall i | 0 <= i < |pool|
      ensures s[0].score <= pool[i].score
    {
      if i > 0 {
        assert pool[i] == s[i];
      }
    }
  }

  /** A row no worse than every row of a sorted sequence can go in front of it. */
  lemma ConsSorted(h: Scored, s: seq<Scored>)
    requires SortedByScore(s)
    requires forall i :: 0 <= i < |s| ==> h.score <= s[i].score
    ensures SortedByScore([h] + s)
  {
    var r := [h] + s;
    forall i, j | 0 <= i < j < |r|
      ensures r[i].score <= r[j].score
    {
      assert r[j] == s[j - 1];
      if i > 0 {
        assert r[i] == s[i - 1];
      }
    }
  }

  /** A bound that holds of every row holds of every row of a rearrangement of them. */
  lemma LowerBound(v: real, s: seq<Scored>, t: seq<Scored>)
    requires forall i :: 0 <= i < |s| ==> v <= s[i].score
    requires multiset(t) == multiset(s)
    ensures forall i :: 0 <= i < |t| ==> v <= t[i].score
  {
    forall i | 0 <= i < |t|
      ensures v <= t[i].score
    {
      assert t[i] in multiset(s);
    }
  }

  /** `sort_values(by=['score'], ascending=True)`: the same rows, non-decreasing in score. */
  function SortByScore(s: seq<Scored>): (r: seq<Scored>)
    ensures SortedByScore(r)
    ensures multiset(r) == multiset(s)
    ensures |r| == |s|
  {
    if s == [] then []
    else
      assert s == [s[0]] + s[1..];
      var sorted := SortByScore(s[1..]);
      InsertSorted(s[0], sorted);
      Insert(s[0], sorted)
  }

  /** Python's `int(x)` on a float: truncation toward zero. */
  function Trunc(x: real): (n: int)
    ensures 0.0 <= x ==> 0 <= n && n as real <= x < n as real + 1.0
    ensures x < 0.0 ==> n <= 0 && n as real - 1.0 < x <= n as real
  {
    if x >= 0.0 then x.Floor else -((-x).Floor)
  }

  /** How many rows `DataFrame.head(k)` keeps of n: the first k, or for a negative k all but the last -k. */
  function HeadCount(n: nat, k: int): (m: nat)
    ensures m <= n
  {
    if k >= 0 then (if k <= n then k else n)
    else if n + k >= 0 then n + k else 0
  }

  /** `DataFrame.head(k)`: the first HeadCount rows, in their order. */
  function Head(s: seq<Scored>, k: int): (h: seq<Scored>)
    ensures h <= s && |h| == HeadCount(|s|, k)
  {
    s[..HeadCount(|s|, k)]
  }

  /** Sort ascending by score, then keep `head(k)`. */
  function Select(rows: seq<Scored>, k: int): (sel: seq<Scored>)
    ensures |sel| == HeadCount(|rows|, k)
  {
    Head(SortByScore(rows), k)
  }

  /** Every kept row scores at most every dropped one. */
  ghost predicate KeptBeforeDropped(kept: seq<Scored>, all: seq<Scored>)
  {
    forall x, y :: x in kept && y in multiset(all) - multiset(kept) ==> x.score <= y.score
  }

  /**
   * What a selection is: sorted, some of the input rows (as a multiset), as
   * many as `head` keeps, and the best-scored ones.
   */
  lemma {:induction false} SelectSpec(rows: seq<Scored>, k: int)
    ensures var sel := Select(rows, k);
      SortedByScore(sel) &&
      multiset(sel) <= multiset(rows) &&
      |sel| == HeadCount(|rows|, k) &&
      KeptBeforeDropped(sel, rows)
  {
    var sorted := SortByScore(rows);
    var m := HeadCount(|rows|, k);
    SplitSorted(sorted, m);
  }

  /** Cutting a sorted sequence: the front and the back make up the whole, and the front is no worse than the back. */
  lemma SplitSorted(sorted: seq<Scored>, m: nat)
    requires SortedByScore(sorted) && m <= |sorted|
    ensures multiset(sorted) - multiset(sorted[..m]) == multiset(sorted[m..])
    ensures multiset(sorted[..m]) <= multiset(sorted)
    ensures KeptBeforeDropped(sorted[..m], sorted)
  {
    var front, back := sorted[..m], sorted[m..];
    assert sorted == front + back;
    assert multiset(sorted) == multiset(front) + multiset(back);
    forall x: Scored, y: Scored | x in front && y in multiset(back)
      ensures x.score <= y.score
    {
      var i :| 0 <= i < m && front[i] == x;
      var j :| 0 <= j < |back| && back[j] == y;
      assert sorted[i] == x && sorted[m + j] == y;
    }
  }

  /** The `head` argument `top` uses for a table of n rows: `int(n * percent * 2)`. */
  function Quota(n: nat, percent: real): (k: int)
    ensures 0.0 <= percent ==> 0 <= k
    ensures 0.0 <= percent <= 0.5 ==> k <= n
  {
    if 0.0 <= percent then
      QuotaWithin(n, percent, n as real * percent * 2.0);
      Trunc(n as real * percent * 2.0)
    else
      Trunc(n as real * percent * 2.0)
  }

  /** For a non-negative fraction x = 2 n percent truncates to a count between 0 and, for a fraction up to one half, n. */
  lemma QuotaWithin(n: nat, percent: real, x: real)
    requires 0.0 <= percent && x == n as real * percent * 2.0
    ensures 0 <= Trunc(x)
    ensures percent <= 0.5 ==> Trunc(x) <= n
  {
    ScaleBounds(n as real, percent);
    TruncWithin(x, if percent <= 0.5 then n else -1);
  }

  /** Truncating a non-negative real gives a non-negative integer, no larger than any natural bound of the real. */
  lemma TruncWithin(x: real, bound: int)
    requires 0.0 <= x
    requires 0 <= bound ==> x <= bound as real
    ensures 0 <= Trunc(x)
    ensures 0 <= bound ==> Trunc(x) <= bound
  {
  }

  /** Twice a non-negative fraction of a non-negative amount is non-negative, and at most the amount for a fraction up to one half. */
  lemma ScaleBounds(a: real, p: real)
    requires 0.0 <= a && 0.0 <= p
    ensures 0.0 <= a * p * 2.0
    ensures p <= 0.5 ==> a * p * 2.0 <= a
  {
    assert 0.0 <= a * p;
    if p <= 0.5 {
      assert a * p <= a * 0.5;
    }
  }

  /** With a non-negative fraction, a table of n rows keeps min(n, floor(2 n percent)) of them; nothing is divided by 100. */
  lemma KeptCount(n: nat, percent: real)
    requires percent >= 0.0
    ensures var k := Quota(n, percent);
      k == (n as real * percent * 2.0).Floor &&
      HeadCount(n, k) == if k <= n then k else n
  {
    var a := n as real;
    assert a >= 0.0;
    assert a * percent >= 0.0;
  }

  // ----- one table -----

  /** `read_csv(table, usecols=[1, 2])` with the columns renamed `title, score`. */
  function Project(predicted: seq<Predicted>): (rows: seq<Scored>)
    ensures |rows| == |predicted|
    ensures forall i :: 0 <= i < |rows| ==> rows[i] == Scored(predicted[i].title, predicted[i].score)
  {
    seq(|predicted|, i requires 0 <= i < |predicted| => Scored(predicted[i].title, predicted[i].score))
  }

  /**
   * `top`: the cached top set when `top.smiles.csv` exists beside the
   * table, otherwise the table's rows sorted by score with the first
   * `int(n * percent * 2)` kept and written to that cache.
   */
  function Top(fs: map<Path, Content>, table: Path, percent: real): (r: Result<TopRun>)
    ensures CachePath(table) in fs ==>
      (r.Ok? <==> fs[CachePath(table)].Table?) &&
      (r.Ok? ==> r.value == TopRun(fs[CachePath(table)].rows, fs))
    ensures CachePath(table) !in fs ==>
      (r.Ok? <==> table in fs && fs[table].Predictions?) &&
      (r.Ok? ==> r.value.files == fs[CachePath(table) := Table(r.value.rows)])
  {
    var cache := CachePath(table);
    if cache in fs then
      if fs[cache].Table? then Ok(TopRun(fs[cache].rows, fs)) else Err(Unreadable(cache))
    else if table !in fs then
      Err(FileNotFound(table))
    else if !fs[table].Predictions? then
      Err(Unreadable(table))
    else
      var all := Project(fs[table].predicted);
      var kept := Select(all, Quota(|all|, percent));
      Ok(TopRun(kept, fs[cache := Table(kept)]))
  }

  /**
   * A computed top set is sorted, drawn from the table's rows, holds the
   * best-scored of them, as many as `head` keeps, and is what the cache
   * holds afterwards; nothing else on disk changes.
   */
  lemma TopComputed(fs: map<Path, Content>, table: Path, percent: real)
    requires CachePath(table) !in fs && table in fs && fs[table].Predictions?
    ensures var all := Project(fs[table].predicted);
      var run := Top(fs, table, percent).value;
      SortedByScore(run.rows) &&
      multiset(run.rows) <= multiset(all) &&
      |run.rows| == HeadCount(|all|, Quota(|all|, percent)) &&
      KeptBeforeDropped(run.rows, all) &&
      run.files == fs[CachePath(table) := Table(run.rows)]
  {
    var all := Project(fs[table].predicted);
    var kept := Select(all, Quota(|all|, percent));
    assert Top(fs, table, percent) == Ok(TopRun(kept, fs[CachePath(table) := Table(kept)]));
    SelectSpec(all, Quota(|all|, percent));
  }

  /** Running `top` again on the same table reads back the same rows from the cache and writes nothing. */
  lemma TopCached(fs: map<Path, Content>, table: Path, percent: real)
    requires Top(fs, table, percent).Ok?
    ensures var run := Top(fs, table, percent).value;
      Top(run.files, table, percent) == Ok(TopRun(run.rows, run.files))
  {
  }

  // ----- all tables -----

  /** The parallel `top` over several tables, as a map in list order; later tables see the caches earlier ones wrote. */
  function TopAll(fs: map<Path, Content>, tables: seq<Path>, percent: real): (r: Result<TopRun>)
    ensures r.Ok? ==> CachesOnly(fs, r.value.files)
    decreases |tables|
  {
    if tables == [] then Ok(TopRun([], fs))
    else
      match Top(fs, tables[0], percent)
      case Err(e) => Err(e)
      case Ok(first) =>
        match TopAll(first.files, tables[1..], percent)
        case Err(e) => Err(e)
        case Ok(rest) => Ok(TopRun(first.rows + rest.rows, rest.files))
  }

  /** Between `before` and `after` no file was removed, and only per-table caches were created or changed. */
  predicate CachesOnly(before: map<Path, Content>, after: map<Path, Content>)
  {
    (forall p :: p in before ==> p in after) &&
    (forall p :: p in after && (p !in before || after[p] != before[p]) ==> p.name == "top.smiles.csv")
  }

  /** `main`'s dispatch on how many prediction tables were found: none is an error, one is used alone, several are concatenated. */
  function Merged(fs: map<Path, Content>, found: seq<Path>, wd: string, percent: real): (r: Result<TopRun>)
    ensures found == [] ==> r.Err? && r.error.ValueError?
    ensures |found| == 1 ==> r == Top(fs, found[0], percent)
    ensures |found| > 1 ==> r == TopAll(fs, found, percent)
  {
    if |found| == 1 then Top(fs, found[0], percent)
    else if |found| > 1 then TopAll(fs, found, percent)
    else Err(ValueError("No predicting results files found in " + wd))
  }

  /**
   * `main`: skipped when `<wd>/top.smiles` exists; otherwise the merged top
   * sets of the prediction tables in `listing` (the entries of `wd`),
   * sorted by score, with the first `int(m / 2)` kept and written to
   * `<wd>/top.smiles`.
   */
  function TopSelection(fs: map<Path, Content>, wd: string, listing: seq<Path>, percent: real): (r: Result<Selection>)
    ensures OutputPath(wd) in fs ==> r == Ok(Selection(None, fs))
    ensures OutputPath(wd) !in fs && Glob(listing, PredictionTail) == [] ==> r.Err? && r.error.ValueError?
    ensures OutputPath(wd) !in fs ==>
      var merged := Merged(fs, Glob(listing, PredictionTail), wd, percent);
      (r.Ok? <==> merged.Ok?) &&
      (r.Ok? ==>
        r.value.selected.Some? &&
        var sel := r.value.selected.value;
        var all := merged.value.rows;
        SortedByScore(sel) &&
        multiset(sel) <= multiset(all) &&
        |sel| == |all| / 2 &&
        KeptBeforeDropped(sel, all) &&
        r.value.files == merged.value.files[OutputPath(wd) := Table(sel)])
  {
    var output := OutputPath(wd);
    if output in fs then Ok(Selection(None, fs))
    else
      var found := Glob(listing, PredictionTail);
      match Merged(fs, found, wd, percent)
      case Err(e) => Err(e)
      case Ok(m) =>
        var k := Trunc(|m.rows| as real / 2.0);
        HalfCount(|m.rows|);
        SelectSpec(m.rows, k);
        var sel := Select(m.rows, k);
        Ok(Selection(Some(sel), m.files[output := Table(sel)]))
  }

  /** `int(m / 2)` keeps half of the m rows, rounded down. */
  lemma HalfCount(m: nat)
    ensures Trunc(m as real / 2.0) == m / 2
    ensures HeadCount(m, Trunc(m as real / 2.0)) == m / 2
  {
    var h := m / 2;
    assert m == 2 * h || m == 2 * h + 1;
    assert h as real <= m as real / 2.0 < h as real + 1.0;
  }

  /** A finished stage is not redone: running `main` again changes nothing. */
  lemma SelectionIdempotent(fs: map<Path, Content>, wd: string, listing: seq<Path>, percent: real)
    ensures var r := TopSelection(fs, wd, listing, percent);
      r.Ok? ==>
        OutputPath(wd) in r.value.files &&
        TopSelection(r.value.files, wd, listing, percent) == Ok(Selection(None, r.value.files))
  {
  }

  /** n copies of a top set, one after the other. */
  function Repeat(rows: seq<Scored>, n: nat): (r: seq<Scored>)
    ensures |r| == n * |rows|
    ensures n > 0 ==> rows <= r
  {
    if n == 0 then [] else rows + Repeat(rows, n - 1)
  }

  /** When the shared cache of a directory holds a table, every table of that directory reads it back, writing nothing. */
  lemma {:induction false} ReadBackAll(fs: map<Path, Content>, dir: string, tables: seq<Path>, rows: seq<Scored>, percent: real)
    requires forall i :: 0 <= i < |tables| ==> tables[i].dir == dir
    requires Join(dir, "top.smiles.csv") in fs && fs[Join(dir, "top.smiles.csv")] == Table(rows)
    ensures TopAll(fs, tables, percent) == Ok(TopRun(Repeat(rows, |tables|), fs))
    decreases |tables|
  {
    if tables != [] {
      var rest := tables[1..];
      assert CachePath(tables[0]) == Join(dir, "top.smiles.csv");
      assert forall i :: 0 <= i < |rest| ==> rest[i] == tables[i + 1];
      ReadBackAll(fs, dir, rest, rows, percent);
    }
  }

  /**
   * The cache path depends only on the directory, and every table `main`
   * finds is in `wd`. So with no cache at the start, the first table's top
   * set is computed and cached, every later table reads it back, and the
   * merged rows are that one top set once per table.
   */
  lemma SharedCache(fs: map<Path, Content>, tables: seq<Path>, percent: real)
    requires tables != [] && forall i :: 0 <= i < |tables| ==> tables[i].dir == tables[0].dir
    requires CachePath(tables[0]) !in fs && tables[0] in fs && fs[tables[0]].Predictions?
    ensures var first := Top(fs, tables[0], percent).value;
      TopAll(fs, tables, percent) == Ok(TopRun(Repeat(first.rows, |tables|), first.files))
  {
    var first := Top(fs, tables[0], percent).value;
    TopComputed(fs, tables[0], percent);
    var rest := tables[1..];
    ReadBackAll(first.files, tables[0].dir, rest, first.rows, percent);
  }

  /** A fan-out result followed by the fan-out over more tables, on the files the first one left. */
  function FollowedBy(first: Result<TopRun>, more: seq<Path>, percent: real): (r: Result<TopRun>)
    ensures first.Err? ==> r == first
    ensures r.Ok? ==> first.Ok? && TopAll(first.value.files, more, percent).Ok?
  {
    match first
    case Err(e) => Err(e)
    case Ok(f) =>
      match TopAll(f.files, more, percent)
      case Err(e) => Err(e)
      case Ok(rest) => Ok(TopRun(f.rows + rest.rows, rest.files))
  }

  /**
   * The fan-out over `a + b` is the fan-out over `a`, then over `b` on the
   * files `a` left: the rows come in table order, each table's block after
   * the previous ones, and the first failure stops it.
   */
  lemma {:induction false} TopAllAppend(fs: map<Path, Content>, a: seq<Path>, b: seq<Path>, percent: real)
    ensures TopAll(fs, a + b, percent) == FollowedBy(TopAll(fs, a, percent), b, percent)
    decreases |a|
  {
    if a == [] {
      assert a + b == b;
      match TopAll(fs, b, percent)
      case Err(_) =>
      case Ok(rb) => assert [] + rb.rows == rb.rows;
    } else {
      assert (a + b)[0] == a[0] && (a + b)[1..] == a[1..] + b;
      match Top(fs, a[0], percent)
      case Err(_) =>
      case Ok(first) =>
        TopAllAppend(first.files, a[1..], b, percent);
        match TopAll(first.files, a[1..], percent)
        case Err(_) =>
        case Ok(rest) =>
          match TopAll(rest.files, b, percent)
          case Err(_) =>
          case Ok(rb) => assert first.rows + (rest.rows + rb.rows) == (first.rows + rest.rows) + rb.rows;
    }
  }

  /** Whether two filesystems agree on one path: both lack it, or both hold the same content there. */
  predicate Agree(fs: map<Path, Content>, gs: map<Path, Content>, p: Path)
  {
    (p in fs <==> p in gs) && (p in fs ==> fs[p] == gs[p])
  }

  /** Each table's own top set on the same filesystem, concatenated in table order; a failing table adds nothing. */
  function EachTop(fs: map<Path, Content>, tables: seq<Path>, percent: real): (rows: seq<Scored>)
    ensures tables == [] ==> rows == []
  {
    if tables == [] then []
    else
      var own := Top(fs, tables[0], percent);
      (if own.Ok? then own.value.rows else []) + EachTop(fs, tables[1..], percent)
  }

  /** Only a table and its cache decide its top set, so filesystems agreeing on those give the same rows. */
  lemma {:induction false} EachTopFrame(fs: map<Path, Content>, gs: map<Path, Content>, tables: seq<Path>, percent: real)
    requires forall i :: 0 <= i < |tables| ==> Agree(fs, gs, tables[i]) && Agree(fs, gs, CachePath(tables[i]))
    ensures EachTop(fs, tables, percent) == EachTop(gs, tables, percent)
    decreases |tables|
  {
    if tables != [] {
      var rest := tables[1..];
      assert forall i :: 0 <= i < |rest| ==> rest[i] == tables[i + 1];
      EachTopFrame(fs, gs, rest, percent);
      assert Agree(fs, gs, tables[0]) && Agree(fs, gs, CachePath(tables[0]));
    }
  }

  /**
   * When the tables lie in different directories and none has a cache yet,
   * no table sees another's cache: the fan-out succeeds and its rows are
   * each table's own top set, in table order, as a parallel pool that
   * runs every table on the starting files would give.
   */
  lemma {:induction false} TopAllSeparate(fs: map<Path, Content>, tables: seq<Path>, percent: real)
    requires forall i, j :: 0 <= i < j < |tables| ==> tables[i].dir != tables[j].dir
    requires forall i :: 0 <= i < |tables| ==> CachePath(tables[i]) !in fs && tables[i] in fs && fs[tables[i]].Predictions?
    ensures TopAll(fs, tables, percent).Ok?
    ensures TopAll(fs, tables, percent).value.rows == EachTop(fs, tables, percent)
    decreases |tables|
  {
    if tables != [] {
      var t, rest := tables[0], tables[1..];
      var first := Top(fs, t, percent).value;
      var gs := first.files;
      assert gs == fs[CachePath(t) := Table(first.rows)];
      forall i | 0 <= i < |rest|
        ensures rest[i] == tables[i + 1] && rest[i].dir != t.dir
        ensures Agree(fs, gs, rest[i]) && Agree(fs, gs, CachePath(rest[i]))
      {
        assert rest[i] == tables[i + 1];
        assert rest[i] != CachePath(t) && CachePath(rest[i]) != CachePath(t);
      }
      TopAllSeparate(gs, rest, percent);
      EachTopFrame(fs, gs, rest, percent);
    }
  }

  // ----- the source as written -----

  /**
   * `top` as written: `--percent` is parsed by `vstool.check_dir`, so it is
   * a directory path (or None when the flag is absent), and
   * `df.shape[0] * args.percent` raises TypeError whenever the cache is
   * missing. `percent` here is that parsed value.
   */
  function TopAsWritten(fs: map<Path, Content>, table: Path, percent: Option<Path>): (r: Result<TopRun>)
    ensures CachePath(table) in fs ==>
      (r.Ok? <==> fs[CachePath(table)].Table?) &&
      (r.Ok? ==> r.value == TopRun(fs[CachePath(table)].rows, fs))
    ensures CachePath(table) !in fs ==> r.Err?
    ensures CachePath(table) !in fs && table in fs && fs[table].Predictions? ==> r.error.TypeError?
  {
    var cache := CachePath(table);
    if cache in fs then
      if fs[cache].Table? then Ok(TopRun(fs[cache].rows, fs)) else Err(Unreadable(cache))
    else if table !in fs then
      Err(FileNotFound(table))
    else if !fs[table].Predictions? then
      Err(Unreadable(table))
    else
      Err(TypeError("unsupported operand type(s) for *: 'int' and 'PosixPath'"))
  }

  /** A readable table with no cache: Top computes its top set, the code as written raises whatever `--percent` was. */
  lemma PercentAsDirectory(fs: map<Path, Content>, table: Path, percent: real, parsed: Option<Path>)
    requires CachePath(table) !in fs && table in fs && fs[table].Predictions?
    ensures Top(fs, table, percent).Ok?
    ensures TopAsWritten(fs, table, parsed).Err? && TopAsWritten(fs, table, parsed).error.TypeError?
  {
  }

  /** The fan-out of `top` as written; since only cached tables succeed, a successful run writes nothing. */
  function TopAllAsWritten(fs: map<Path, Content>, tables: seq<Path>, percent: Option<Path>): (r: Result<TopRun>)
    ensures r.Ok? ==> r.value.files == fs
    decreases |tables|
  {
    if tables == [] then Ok(TopRun([], fs))
    else
      match TopAsWritten(fs, tables[0], percent)
      case Err(e) => Err(e)
      case Ok(first) =>
        match TopAllAsWritten(first.files, tables[1..], percent)
        case Err(e) => Err(e)
        case Ok(rest) => Ok(TopRun(first.rows + rest.rows, rest.files))
  }

  /** `main`'s dispatch as written, over `top` as written. */
  function MergedAsWritten(fs: map<Path, Content>, found: seq<Path>, wd: string, percent: Option<Path>): (r: Result<TopRun>)
    ensures found == [] ==> r.Err? && r.error.ValueError?
    ensures r.Ok? ==> r.value.files == fs
  {
    if |found| == 1 then TopAsWritten(fs, found[0], percent)
    else if |found| > 1 then TopAllAsWritten(fs, found, percent)
    else Err(ValueError("No predicting results files found in " + wd))
  }

  /**
   * `main` as written, with `--percent` parsed as a path: the tables are
   * read through `top` as written, and the last line saves to `out`, a
   * name `main` never binds, so `top.smiles` is never written and the
   * filesystem is never changed.
   */
  function SelectionAsWritten(fs: map<Path, Content>, wd: string, listing: seq<Path>, percent: Option<Path>): (r: Result<Selection>)
    ensures OutputPath(wd) in fs ==> r == Ok(Selection(None, fs))
    ensures OutputPath(wd) !in fs ==> r.Err?
    ensures OutputPath(wd) !in fs && MergedAsWritten(fs, Glob(listing, PredictionTail), wd, percent).Ok? ==>
      r == Err(NameError("out"))
  {
    var output := OutputPath(wd);
    if output in fs then Ok(Selection(None, fs))
    else
      match MergedAsWritten(fs, Glob(listing, PredictionTail), wd, percent)
      case Err(e) => Err(e)
      case Ok(m) => Err(NameError("out"))
  }

  /** When every table has its cache, `top` succeeds on each of them, as corrected and as written alike, and writes nothing. */
  lemma {:induction false} AllCached(fs: map<Path, Content>, tables: seq<Path>, percent: real, parsed: Option<Path>)
    requires forall i :: 0 <= i < |tables| ==> CachePath(tables[i]) in fs && fs[CachePath(tables[i])].Table?
    ensures TopAll(fs, tables, percent).Ok? && TopAll(fs, tables, percent).value.files == fs
    ensures TopAllAsWritten(fs, tables, parsed).Ok?
    decreases |tables|
  {
    if tables != [] {
      var rest := tables[1..];
      assert forall i :: 0 <= i < |rest| ==> rest[i] == tables[i + 1];
      AllCached(fs, rest, percent, parsed);
    }
  }

  /**
   * Where every found table already has its cache, `main` as written gets
   * as far as line 60 and raises NameError for `out`, where TopSelection
   * writes `top.smiles`.
   */
  lemma OutputNeverWritten(fs: map<Path, Content>, wd: string, listing: seq<Path>, percent: real, parsed: Option<Path>)
    requires OutputPath(wd) !in fs && Glob(listing, PredictionTail) != []
    requires forall t :: t in Glob(listing, PredictionTail) ==> CachePath(t) in fs && fs[CachePath(t)].Table?
    ensures TopSelection(fs, wd, listing, percent).Ok?
    ensures OutputPath(wd) in TopSelection(fs, wd, listing, percent).value.files
    ensures SelectionAsWritten(fs, wd, listing, parsed) == Err(NameError("out"))
  {
    var found := Glob(listing, PredictionTail);
    assert forall i :: 0 <= i < |found| ==> found[i] in found;
    AllCached(fs, found, percent, parsed);
  }

  /** Where the first found table is readable but has no cache, `main` as written stops with the TypeError of line 36 instead. */
  lemma UncachedFailsFirst(fs: map<Path, Content>, wd: string, listing: seq<Path>, parsed: Option<Path>)
    requires OutputPath(wd) !in fs && Glob(listing, PredictionTail) != []
    requires var t := Glob(listing, PredictionTail)[0]; CachePath(t) !in fs && t in fs && fs[t].Predictions?
    ensures SelectionAsWritten(fs, wd, listing, parsed).Err?
    ensures SelectionAsWritten(fs, wd, listing, parsed).error.TypeError?
  {
  }
}
