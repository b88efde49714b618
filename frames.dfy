/** Player-by-round tables as the Python backend's pandas code sees them: one
    row per player and fixture (or round), sorted by player then round, with
    the per-player running sums and rolling means the pipeline derives. */
module Frames {
  import opened Common
  import opened Seqs
  import opened Sorting

  /** One row of a player-round table. Numeric statistics are kept by column
      name; a column a row does not have reads as 0. That matches pandas' sums,
      which skip missing values; the pipeline's own `fillna(0)` comes only
      after the rolling means and season totals are taken. */
  datatype Row = Row(
    element: int,
    round: int,
    team: int,
    fixture: int,
    opponent: int,
    wasHome: bool,
    modified: bool,
    stats: map<string, real>)

  /** The value of column `c` in a row. */
  function Get(r: Row, c: string): real {
    if c in r.stats then r.stats[c] else 0.0
  }

  /** Column `c` of a table. */
  function Column(rows: seq<Row>, c: string): (r: seq<real>)
    ensures |r| == |rows|
    ensures forall i :: 0 <= i < |rows| ==> r[i] == Get(rows[i], c)
  {
    seq(|rows|, i requires 0 <= i < |rows| => Get(rows[i], c))
  }

  lemma ColumnAppend(a: seq<Row>, b: seq<Row>, c: string)
    ensures Column(a + b, c) == Column(a, c) + Column(b, c)
  {
    assert |Column(a + b, c)| == |Column(a, c) + Column(b, c)|;
    forall i | 0 <= i < |a + b| ensures Column(a + b, c)[i] == (Column(a, c) + Column(b, c))[i] {
      if i < |a| {
        assert (a + b)[i] == a[i];
      } else {
        assert (a + b)[i] == b[i - |a|];
      }
    }
  }

  /** The row with column `c` set to `v` (`df[c] = ...` on one row). */
  function SetStat(r: Row, c: string, v: real): (out: Row)
    ensures Get(out, c) == v
    ensures forall d :: d != c ==> Get(out, d) == Get(r, d)
    ensures out.element == r.element && out.round == r.round && out.team == r.team && out.fixture == r.fixture
    ensures out.opponent == r.opponent && out.wasHome == r.wasHome && out.modified == r.modified
  {
    r.(stats := r.stats[c := v])
  }

  // ---------------------------------------------------------------- row order

  /** `sort_values(["element", "round"])`: by player, then by round. */
  predicate PlayerRoundLe(a: Row, b: Row) {
    a.element < b.element || (a.element == b.element && a.round <= b.round)
  }

  function ByPlayerRound(): (Row, Row) -> bool {
    (a: Row, b: Row) => PlayerRoundLe(a, b)
  }

  lemma ByPlayerRoundIsPreorder()
    ensures TotalPreorder(ByPlayerRound())
  {
  }

  /** The table sorted by player and round, rows of one player and round kept
      in their input order. */
  function SortRows(rows: seq<Row>): (r: seq<Row>)
    ensures multiset(r) == multiset(rows)
    ensures forall i, j :: 0 <= i < j < |r| ==> PlayerRoundLe(r[i], r[j])
  {
    SortByPermutes(rows, ByPlayerRound());
    ByPlayerRoundIsPreorder();
    SortBySorted(rows, ByPlayerRound());
    SortBy(rows, ByPlayerRound())
  }

  /** Sorting a table that is already in player-round order changes nothing. */
  lemma SortRowsKeepsSorted(rows: seq<Row>)
    requires forall i, j :: 0 <= i < j < |rows| ==> PlayerRoundLe(rows[i], rows[j])
    ensures SortRows(rows) == rows
  {
    assert Sorted(rows, ByPlayerRound());
    SortByKeepsSorted(rows, ByPlayerRound());
  }

  // ---------------------------------------------------------------- per-player series

  function OfPlayer(e: int): Row -> bool {
    (r: Row) => r.element == e
  }

  /** The player of every row, in row order. */
  function Elements(rows: seq<Row>): (r: seq<int>)
    ensures |r| == |rows| && forall i :: 0 <= i < |rows| ==> r[i] == rows[i].element
  {
    seq(|rows|, i requires 0 <= i < |rows| => rows[i].element)
  }

  /** The first row of player `e`, if they have one. */
  function FirstRowOf(rows: seq<Row>, e: int): (r: Option<Row>)
    ensures r.Some? ==> r.value in rows && r.value.element == e
    ensures r.None? ==> e !in Elements(rows)
  {
    match FirstIndex(rows, OfPlayer(e))
    case None => None
    case Some(i) => Some(rows[i])
  }

  /** The rows of row `i`'s player before it are those before the player's
      previous row `j`, then row `j`. */
  lemma EarlierStep(rows: seq<Row>, j: nat, i: nat, c: string)
    requires j < i < |rows| && rows[j].element == rows[i].element
    requires forall k :: j < k < i ==> rows[k].element != rows[i].element
    ensures Earlier(rows, i, c) == Earlier(rows, j, c) + [Get(rows[j], c)]
  {
    var e := rows[i].element;
    assert rows[..i] == rows[..j] + ([rows[j]] + rows[j + 1..i]);
    HistoryAppend(rows[..j], [rows[j]] + rows[j + 1..i], e, c);
    HistoryAppend([rows[j]], rows[j + 1..i], e, c);
    assert Filter([rows[j]], OfPlayer(e)) == [rows[j]];
    FilterNone(rows[j + 1..i], OfPlayer(e));
    assert History([rows[j]], e, c) == [Get(rows[j], c)];
  }

  /** A row with no earlier row of its player has nothing before it. */
  lemma EarlierOfFirst(rows: seq<Row>, i: nat, c: string)
    requires i < |rows| && forall k :: 0 <= k < i ==> rows[k].element != rows[i].element
    ensures Earlier(rows, i, c) == []
  {
    FilterNone(rows[..i], OfPlayer(rows[i].element));
  }

  /** Column `c` over the rows of player `e`, in table order. */
  function History(rows: seq<Row>, e: int, c: string): seq<real> {
    Column(Filter(rows, OfPlayer(e)), c)
  }

  /** Column `c` over the rows of row `i`'s player that come before it. */
  function Earlier(rows: seq<Row>, i: nat, c: string): seq<real>
    requires i < |rows|
  {
    History(rows[..i], rows[i].element, c)
  }

  /** Column `c` over the rows of row `i`'s player that come after it. */
  function Later(rows: seq<Row>, i: nat, c: string): seq<real>
    requires i < |rows|
  {
    History(rows[i + 1..], rows[i].element, c)
  }

  lemma HistoryAppend(a: seq<Row>, b: seq<Row>, e: int, c: string)
    ensures History(a + b, e, c) == History(a, e, c) + History(b, e, c)
  {
    FilterAppend(a, b, OfPlayer(e));
    ColumnAppend(Filter(a, OfPlayer(e)), Filter(b, OfPlayer(e)), c);
  }

  /** Column `c` of the rows a predicate selects depends on nothing but
      which rows it selects and their values of `c`. */
  lemma {:induction false} ColumnFilterSame(a: seq<Row>, b: seq<Row>, p: Row -> bool, q: Row -> bool, c: string)
    requires |a| == |b|
    requires forall k :: 0 <= k < |a| ==> p(a[k]) == q(b[k]) && Get(a[k], c) == Get(b[k], c)
    ensures Column(Filter(a, p), c) == Column(Filter(b, q), c)
  {
    if a != [] {
      ColumnFilterSame(a[1..], b[1..], p, q, c);
      var ha := if p(a[0]) then [a[0]] else [];
      var hb := if q(b[0]) then [b[0]] else [];
      assert Filter(a, p) == ha + Filter(a[1..], p);
      assert Filter(b, q) == hb + Filter(b[1..], q);
      ColumnAppend(ha, Filter(a[1..], p), c);
      ColumnAppend(hb, Filter(b[1..], q), c);
      assert Column(ha, c) == Column(hb, c);
    }
  }

  /** A player's series of column `c` depends on nothing but the players of
      the rows and their values of `c`. */
  lemma HistorySameColumn(a: seq<Row>, b: seq<Row>, e: int, c: string)
    requires |a| == |b|
    requires forall k :: 0 <= k < |a| ==> a[k].element == b[k].element && Get(a[k], c) == Get(b[k], c)
    ensures History(a, e, c) == History(b, e, c)
  {
    ColumnFilterSame(a, b, OfPlayer(e), OfPlayer(e), c);
  }

  /** A player's series is what comes before a row of theirs, the row, and
      what comes after it. */
  lemma HistoryAround(rows: seq<Row>, i: nat, c: string)
    requires i < |rows|
    ensures History(rows, rows[i].element, c) == Earlier(rows, i, c) + [Get(rows[i], c)] + Later(rows, i, c)
  {
    var e, pre, mid, post := rows[i].element, rows[..i], [rows[i]], rows[i + 1..];
    assert rows == pre + (mid + post);
    HistoryAppend(pre, mid + post, e, c);
    HistoryAppend(mid, post, e, c);
    HistoryOfOne(rows[i], c);
    var early, here, late := History(pre, e, c), History(mid, e, c), History(post, e, c);
    assert History(rows, e, c) == early + (here + late);
    assert early + (here + late) == early + here + late;
  }

  lemma HistoryOfOne(x: Row, c: string)
    ensures History([x], x.element, c) == [Get(x, c)]
  {
    assert Filter([x], OfPlayer(x.element)) == [x];
  }

  /** The running total of column `c` for row `i`'s player, up to and
      including row `i` (`groupby("element")[c].cumsum()`). */
  function RunningTotal(rows: seq<Row>, i: nat, c: string): real
    requires i < |rows|
  {
    Sum(Earlier(rows, i, c)) + Get(rows[i], c)
  }

  /** At a player's last row the running total is the player's whole sum. */
  lemma RunningTotalAtLast(rows: seq<Row>, i: nat, c: string)
    requires i < |rows|
    requires forall j :: i < j < |rows| ==> rows[j].element != rows[i].element
    ensures RunningTotal(rows, i, c) == Sum(History(rows, rows[i].element, c))
  {
    HistoryAround(rows, i, c);
    FilterNone(rows[i + 1..], OfPlayer(rows[i].element));
    SumAppend(Earlier(rows, i, c), [Get(rows[i], c)]);
    assert Earlier(rows, i, c) + [Get(rows[i], c)] + [] == Earlier(rows, i, c) + [Get(rows[i], c)];
  }

  /** The running total grows by the row's value from the player's previous row. */
  lemma RunningTotalStep(rows: seq<Row>, j: nat, i: nat, c: string)
    requires j < i < |rows| && rows[j].element == rows[i].element
    requires forall k :: j < k < i ==> rows[k].element != rows[i].element
    ensures RunningTotal(rows, i, c) == RunningTotal(rows, j, c) + Get(rows[i], c)
  {
    EarlierStep(rows, j, i, c);
    SumAppend(Earlier(rows, j, c), [Get(rows[j], c)]);
  }

  /** Over a whole table: a player's first running total is the row's value,
      and each later one adds the row's value to the previous row's total. */
  lemma RunningTotals(rows: seq<Row>, c: string)
    ensures forall i :: 0 <= i < |rows| && (forall k :: 0 <= k < i ==> rows[k].element != rows[i].element) ==>
              RunningTotal(rows, i, c) == Get(rows[i], c)
    ensures forall j, i :: 0 <= j < i < |rows| && rows[j].element == rows[i].element &&
                           (forall k :: j < k < i ==> rows[k].element != rows[i].element) ==>
              RunningTotal(rows, i, c) == RunningTotal(rows, j, c) + Get(rows[i], c)
  {
    forall i | 0 <= i < |rows| && (forall k :: 0 <= k < i ==> rows[k].element != rows[i].element)
      ensures RunningTotal(rows, i, c) == Get(rows[i], c)
    {
      EarlierOfFirst(rows, i, c);
    }
    forall j, i | 0 <= j < i < |rows| && rows[j].element == rows[i].element &&
                  (forall k :: j < k < i ==> rows[k].element != rows[i].element)
      ensures RunningTotal(rows, i, c) == RunningTotal(rows, j, c) + Get(rows[i], c)
    {
      RunningTotalStep(rows, j, i, c);
    }
  }

  /** The mean of the last `w` values, or none of an empty series. */
  function RollingMean(vals: seq<real>, w: nat): (r: Option<real>)
    requires w > 0
    ensures r.None? <==> vals == []
    ensures r.Some? ==> |LastN(vals, w)| > 0
  {
    if vals == [] then None else Some(Mean(LastN(vals, w)))
  }

  /** With values between `lo` and `hi`, so is their rolling mean. */
  lemma RollingMeanBounds(vals: seq<real>, w: nat, lo: real, hi: real)
    requires w > 0
    requires forall k :: 0 <= k < |vals| ==> lo <= vals[k] <= hi
    ensures RollingMean(vals, w).Some? ==> lo <= RollingMean(vals, w).value <= hi
  {
    if vals != [] {
      LastNBounds(vals, w, lo, hi);
      MeanBounds(LastN(vals, w), lo, hi);
    }
  }

  lemma LastNBounds(vals: seq<real>, w: nat, lo: real, hi: real)
    requires forall k :: 0 <= k < |vals| ==> lo <= vals[k] <= hi
    ensures forall k :: 0 <= k < |LastN(vals, w)| ==> lo <= LastN(vals, w)[k] <= hi
  {
    var last := LastN(vals, w);
    forall k | 0 <= k < |last| ensures lo <= last[k] <= hi {
      assert last[k] == vals[|vals| - |last| + k];
    }
  }

  lemma MeanBounds(s: seq<real>, lo: real, hi: real)
    requires |s| > 0 && forall k :: 0 <= k < |s| ==> lo <= s[k] <= hi
    ensures lo <= Mean(s) <= hi
  {
    SumBounds(s, lo, hi);
    DivideBounds(Sum(s), |s| as real, lo, hi);
  }

  lemma DivideBounds(total: real, n: real, lo: real, hi: real)
    requires n > 0.0 && lo * n <= total <= hi * n
    ensures lo <= total / n <= hi
  {
    var q := total / n;
    assert q * n == total;
  }

  lemma {:induction false} SumBounds(s: seq<real>, lo: real, hi: real)
    requires forall k :: 0 <= k < |s| ==> lo <= s[k] <= hi
    ensures lo * |s| as real <= Sum(s) <= hi * |s| as real
  {
    if s != [] {
      SumBounds(s[1..], lo, hi);
    }
  }
}
