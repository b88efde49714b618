/** The training targets (api/functions/target_engineering.py): per player,
    the sum of each statistic over the next `horizon` rows. */
module TargetEngineering {
  import opened Common
  import opened Seqs
  import opened Frames
  import opened DataHelpers

  const Played60: string := "minutes_60+"
  const Played1: string := "minutes_1+"

  /** `get_targets()` with the two minute flags appended once more, as the
      source appends them although the list already holds them. */
  function TargetColumns(): (r: seq<string>)
    ensures |r| == 9
    ensures forall c :: c in r <==> c in GetTargets()
    ensures forall k :: 0 <= k < |r| ==> !IsTargetKey(r[k])
  {
    var r := GetTargets() + [Played60, Played1];
    assert forall k :: 0 <= k < |r| ==> r[k][0] != 't';
    r
  }

  /** Columns named `target_...`: the only columns the targets write. */
  predicate IsTargetKey(c: string) {
    |c| >= 7 && c[..7] == "target_"
  }

  function TargetName(c: string): (r: string)
    ensures IsTargetKey(r)
  {
    assert ("target_" + c)[..7] == "target_";
    "target_" + c
  }

  /** The two minute flags of a row: 1 when the player played at least 60
      minutes (respectively any minute), else 0. */
  function WithFlags(r: Row): (out: Row)
    ensures Get(out, Played60) == (if Get(r, "minutes") >= 60.0 then 1.0 else 0.0)
    ensures Get(out, Played1) == (if Get(r, "minutes") > 0.0 then 1.0 else 0.0)
    ensures forall d :: d != Played60 && d != Played1 ==> Get(out, d) == Get(r, d)
    ensures out.element == r.element && out.round == r.round
  {
    var m := Get(r, "minutes");
    SetStat(SetStat(r, Played60, if m >= 60.0 then 1.0 else 0.0), Played1, if m > 0.0 then 1.0 else 0.0)
  }

  /** Flagging again changes nothing, so recomputing the flags for the
      duplicated target names gives the same table. */
  lemma FlagsIdempotent(r: Row)
    ensures forall d :: Get(WithFlags(WithFlags(r)), d) == Get(WithFlags(r), d)
  {
    assert Get(WithFlags(r), "minutes") == Get(r, "minutes");
  }

  /** The table sorted by player and round, with the minute flags. */
  function Flagged(df: seq<Row>): (r: seq<Row>)
    ensures |r| == |df|
    ensures forall i, j :: 0 <= i < j < |r| ==> PlayerRoundLe(r[i], r[j])
    ensures forall i :: 0 <= i < |r| ==> r[i] == WithFlags(SortRows(df)[i])
  {
    var sorted := SortRows(df);
    seq(|sorted|, i requires 0 <= i < |sorted| => WithFlags(sorted[i]))
  }

  // ---------------------------------------------------------------- shifted targets

  /** `groupby("element")[c].shift(-i)` at row `r`: the value `i` rows of the
      player later, or none (NaN) past the player's last row. */
  function Shift(rows: seq<Row>, r: nat, c: string, i: nat): (v: Option<real>)
    requires r < |rows| && i >= 1
    ensures v.Some? <==> i <= |Later(rows, r, c)|
  {
    var later := Later(rows, r, c);
    if i <= |later| then Some(later[i - 1]) else None
  }

  /** The target as the row sum computes it: NaN shifts are skipped, so it is
      the sum of the at most `h` following values of the player. */
  function ShiftedTarget(rows: seq<Row>, r: nat, c: string, h: nat): real
    requires r < |rows|
  {
    Sum(FirstN(Later(rows, r, c), h))
  }

  lemma FirstNSumStep(s: seq<real>, i: nat)
    ensures Sum(FirstN(s, i + 1)) == Sum(FirstN(s, i)) + (if i < |s| then s[i] else 0.0)
  {
    if i < |s| {
      assert FirstN(s, i + 1) == FirstN(s, i) + [s[i]];
      SumAppend(FirstN(s, i), [s[i]]);
    }
  }

  /** `create_shifted_targets`: adds the shifted columns one by one and keeps
      their row sum as `target_<c>`. */
  method CreateShiftedTargets(df: seq<Row>, c: string, horizon: nat) returns (out: seq<Row>)
    ensures |out| == |df|
    ensures forall r :: 0 <= r < |df| ==> out[r] == SetStat(df[r], TargetName(c), ShiftedTarget(df, r, c, horizon))
  {
    var acc: seq<real> := seq(|df|, r => 0.0);
    var i := 1;
    while i <= horizon
      invariant 1 <= i <= horizon + 1
      invariant |acc| == |df|
      invariant forall r :: 0 <= r < |df| ==> acc[r] == Sum(FirstN(Later(df, r, c), i - 1))
    {
      var next := seq(|df|, r requires 0 <= r < |df| =>
        acc[r] + match Shift(df, r, c, i) { case Some(v) => v case None => 0.0 });
      forall r | 0 <= r < |df| ensures next[r] == Sum(FirstN(Later(df, r, c), i)) {
        FirstNSumStep(Later(df, r, c), i - 1);
      }
      acc := next;
      i := i + 1;
    }
    out := seq(|df|, r requires 0 <= r < |df| => SetStat(df[r], TargetName(c), acc[r]));
  }

  /** A target reads only its own column and the players of the rows. */
  lemma ShiftedTargetSameColumn(a: seq<Row>, b: seq<Row>, r: nat, c: string, h: nat)
    requires r < |a| == |b|
    requires forall k :: 0 <= k < |a| ==> a[k].element == b[k].element && Get(a[k], c) == Get(b[k], c)
    ensures ShiftedTarget(a, r, c, h) == ShiftedTarget(b, r, c, h)
  {
    HistorySameColumn(a[r + 1..], b[r + 1..], a[r].element, c);
  }

  /** `out` is `rows` with the targets of `names[..k]` added and nothing else
      changed. */
  ghost predicate TargetsAdded(out: seq<Row>, rows: seq<Row>, names: seq<string>, k: nat, horizon: nat)
    requires k <= |names|
  {
    |out| == |rows| &&
    (forall r :: 0 <= r < |out| ==> out[r].element == rows[r].element && out[r].round == rows[r].round) &&
    (forall r, d :: 0 <= r < |out| && !IsTargetKey(d) ==> Get(out[r], d) == Get(rows[r], d)) &&
    (forall r, j :: 0 <= r < |out| && 0 <= j < k ==>
       Get(out[r], TargetName(names[j])) == ShiftedTarget(rows, r, names[j], horizon))
  }

  /** Adding the next target keeps the targets already added. */
  lemma TargetsAddedStep(out: seq<Row>, next: seq<Row>, rows: seq<Row>, names: seq<string>, k: nat, horizon: nat)
    requires k < |names| && !IsTargetKey(names[k])
    requires TargetsAdded(out, rows, names, k, horizon)
    requires |next| == |out|
    requires forall r :: 0 <= r < |out| ==> next[r] == SetStat(out[r], TargetName(names[k]), ShiftedTarget(out, r, names[k], horizon))
    ensures TargetsAdded(next, rows, names, k + 1, horizon)
  {
    var c := names[k];
    forall r | 0 <= r < |out| ensures Get(next[r], TargetName(c)) == ShiftedTarget(rows, r, c, horizon) {
      ShiftedTargetSameColumn(out, rows, r, c, horizon);
    }
    forall r, j | 0 <= r < |out| && 0 <= j < k
      ensures Get(next[r], TargetName(names[j])) == ShiftedTarget(rows, r, names[j], horizon)
    {
      if TargetName(names[j]) == TargetName(c) {
        assert names[j] == TargetName(names[j])[7..];
        assert c == TargetName(c)[7..];
      }
    }
  }

  /** `create_targets`: sort, flag, add a target per target column, drop the
      shifted columns, then drop rows with a missing target, of which there
      are none: every row is kept. */
  method CreateTargets(df: seq<Row>, horizon: nat) returns (out: seq<Row>)
    ensures |out| == |df|
    ensures forall r :: 0 <= r < |out| ==> out[r].element == Flagged(df)[r].element && out[r].round == Flagged(df)[r].round
    ensures forall r, c :: 0 <= r < |out| && c in GetTargets() ==>
              Get(out[r], TargetName(c)) == ShiftedTarget(Flagged(df), r, c, horizon)
    ensures forall r, d :: 0 <= r < |out| && !IsTargetKey(d) ==> Get(out[r], d) == Get(Flagged(df)[r], d)
  {
    var rows := Flagged(df);
    var names := TargetColumns();
    out := rows;
    for k := 0 to |names|
      invariant TargetsAdded(out, rows, names, k, horizon)
    {
      var next := CreateShiftedTargets(out, names[k], horizon);
      TargetsAddedStep(out, next, rows, names, k, horizon);
      out := next;
    }
    forall r, c | 0 <= r < |out| && c in GetTargets()
      ensures Get(out[r], TargetName(c)) == ShiftedTarget(rows, r, c, horizon)
    {
      var j :| 0 <= j < |names| && names[j] == c;
    }
  }

  // ---------------------------------------------------------------- incomplete windows

  /** How many rows of row `r`'s player follow it. */
  function Remaining(rows: seq<Row>, r: nat): nat
    requires r < |rows|
  {
    |Filter(rows[r + 1..], OfPlayer(rows[r].element))|
  }

  lemma LaterLength(rows: seq<Row>, r: nat, c: string)
    requires r < |rows|
    ensures |Later(rows, r, c)| == Remaining(rows, r)
  {
  }

  /** As written, a row near the end of a player's history gets a partial
      sum, and the player's last row a target of 0, though there is nothing
      to sum. */
  lemma PartialTargetAsWritten(rows: seq<Row>, r: nat, c: string, h: nat)
    requires r < |rows| && Remaining(rows, r) < h
    ensures ShiftedTarget(rows, r, c, h) == Sum(Later(rows, r, c))
    ensures Remaining(rows, r) == 0 ==> ShiftedTarget(rows, r, c, h) == 0.0
  {
    LaterLength(rows, r, c);
  }

  /** One row, horizon 1: the row keeps a target of 0 for a round that is not
      in the data. */
  lemma LastRowKeptWithZeroTarget()
    ensures var row := Row(1, 38, 1, 380, 2, true, false, map["goals_scored" := 1.0]);
            ShiftedTarget(Flagged([row]), 0, "goals_scored", 1) == 0.0 && Remaining(Flagged([row]), 0) == 0
  {
    var row := Row(1, 38, 1, 380, 2, true, false, map["goals_scored" := 1.0]);
    var rows := Flagged([row]);
    assert rows[1..] == [];
  }

  /** How many later rows each row's player has. */
  function RemainingCounts(rows: seq<Row>): (r: seq<nat>)
    ensures |r| == |rows| && forall j :: 0 <= j < |rows| ==> r[j] == Remaining(rows, j)
  {
    seq(|rows|, j requires 0 <= j < |rows| => Remaining(rows, j))
  }

  /** The indices, from `i` on and in order, whose count of later rows is at
      least `h`. */
  function CompleteRows(rem: seq<nat>, h: nat, i: nat): (r: seq<nat>)
    requires i <= |rem|
    ensures forall k :: 0 <= k < |r| ==> i <= r[k] < |rem| && rem[r[k]] >= h
    ensures forall j :: i <= j < |rem| && rem[j] >= h ==> j in r
    ensures forall k, l :: 0 <= k < l < |r| ==> r[k] < r[l]
    decreases |rem| - i
  {
    if i == |rem| then []
    else (if rem[i] >= h then [i] else []) + CompleteRows(rem, h, i + 1)
  }

  /** The intended `create_targets` for one column: a row keeps a target
      only when all `h` following rounds exist, and rows without one are
      dropped. */
  function CompleteTargets(rows: seq<Row>, c: string, h: nat): (r: seq<Row>)
    ensures |r| == |CompleteRows(RemainingCounts(rows), h, 0)|
  {
    var idx := CompleteRows(RemainingCounts(rows), h, 0);
    seq(|idx|, k requires 0 <= k < |idx| => SetStat(rows[idx[k]], TargetName(c), Sum(Later(rows, idx[k], c)[..h])))
  }

  /** Every kept row's target sums exactly the next `h` values of its player,
      and agrees with the as-written target; a player's last row is dropped
      whenever `h > 0`. */
  lemma CompleteTargetsExact(rows: seq<Row>, c: string, h: nat)
    ensures forall k :: 0 <= k < |CompleteTargets(rows, c, h)| ==>
              var i := CompleteRows(RemainingCounts(rows), h, 0)[k];
              |Later(rows, i, c)| >= h &&
              Get(CompleteTargets(rows, c, h)[k], TargetName(c)) == Sum(Later(rows, i, c)[..h]) &&
              Get(CompleteTargets(rows, c, h)[k], TargetName(c)) == ShiftedTarget(rows, i, c, h)
    ensures forall i :: 0 <= i < |rows| && h > 0 && Remaining(rows, i) == 0 ==> i !in CompleteRows(RemainingCounts(rows), h, 0)
  {
    var idx := CompleteRows(RemainingCounts(rows), h, 0);
    forall k | 0 <= k < |idx| ensures |Later(rows, idx[k], c)| >= h {
      LaterLength(rows, idx[k], c);
    }
  }
}
