/**
The daily spend soft cap: what a day has recorded plus what its running rows
may still record stays below the cap plus one full house of workers.
 */
module SpendCap {
  import opened Wrappers
  import opened RunState

  predicate IsDay(day: nat) { day % SECS_PER_DAY == 0 }

  ghost predicate DayIsUsed(rows: seq<Row>, day: nat)
  {
    exists i: nat :: i < |rows| && StartedOn(rows[i], day)
  }

  /** Recorded spend, plus `most` for each row of this run (from `b` on) still running. */
  function Exposure(most: nat, b: nat, rows: seq<Row>, day: nat): nat
    requires b <= |rows|
  {
    Total(SpendOn(day), rows) + Times(most, Total(RunningOn(day), rows[b..]))
  }

  ghost predicate SpendHolds(cap: nat, workers: nat, most: nat, b: nat, rows: seq<Row>)
    requires b <= |rows|
  {
    forall day: nat :: IsDay(day) && DayIsUsed(rows, day) ==> Exposure(most, b, rows, day) < cap + Times(most, workers)
  }

  lemma RunningUpdate(b: nat, rows: seq<Row>, run: nat, row: Row, day: nat)
    requires b <= run < |rows| && row.startedAt == rows[run].startedAt
    ensures Total(RunningOn(day), rows[run := row][b..]) + Weigh(RunningOn(day), rows[run])
         == Total(RunningOn(day), rows[b..]) + Weigh(RunningOn(day), row)
  {
    assert rows[run := row][b..] == rows[b..][run - b := row];
    TotalUpdate(RunningOn(day), rows[b..], run - b, row);
  }

  lemma UpdateKeepsDays(rows: seq<Row>, run: nat, row: Row, day: nat)
    requires run < |rows| && row.startedAt == rows[run].startedAt
    ensures DayIsUsed(rows[run := row], day) <==> DayIsUsed(rows, day)
  {
    var after := rows[run := row];
    assert forall i: nat :: i < |rows| ==> (StartedOn(after[i], day) <==> StartedOn(rows[i], day));
  }

  /** A running row that records at most `most` gives its reservation back. */
  lemma FinishKeepsSpend(cap: nat, workers: nat, most: nat, b: nat, rows: seq<Row>, run: nat, row: Row)
    requires b <= run < |rows| && SpendHolds(cap, workers, most, b, rows)
    requires rows[run].status.Running? && rows[run].spend == 0 && row.startedAt == rows[run].startedAt
    requires !row.status.Running? && row.spend <= most
    ensures SpendHolds(cap, workers, most, b, rows[run := row])
  {
    forall day: nat | IsDay(day) && DayIsUsed(rows[run := row], day)
      ensures Exposure(most, b, rows[run := row], day) < cap + Times(most, workers)
    {
      UpdateKeepsDays(rows, run, row, day);
      TotalUpdate(SpendOn(day), rows, run, row);
      RunningUpdate(b, rows, run, row, day);
      assert Exposure(most, b, rows, day) < cap + Times(most, workers);
    }
  }

  /** A row that only changes its beat columns changes nothing here. */
  lemma BeatKeepsSpend(cap: nat, workers: nat, most: nat, b: nat, rows: seq<Row>, run: nat, row: Row)
    requires b <= run < |rows| && SpendHolds(cap, workers, most, b, rows)
    requires row.status == rows[run].status && row.spend == rows[run].spend && row.startedAt == rows[run].startedAt
    ensures SpendHolds(cap, workers, most, b, rows[run := row])
  {
    forall day: nat | IsDay(day) && DayIsUsed(rows[run := row], day)
      ensures Exposure(most, b, rows[run := row], day) < cap + Times(most, workers)
    {
      UpdateKeepsDays(rows, run, row, day);
      TotalUpdate(SpendOn(day), rows, run, row);
      RunningUpdate(b, rows, run, row, day);
      assert Exposure(most, b, rows, day) < cap + Times(most, workers);
    }
  }

  lemma OnlyItsDay(row: Row, day: nat)
    requires IsDay(day) && StartedOn(row, day)
    ensures day == DayStart(row.startedAt)
  {
  }

  /** A row may start while its day has recorded less than the cap and a worker is free. */
  lemma StartKeepsSpend(cap: nat, workers: nat, most: nat, b: nat, rows: seq<Row>, row: Row)
    requires b <= |rows| && SpendHolds(cap, workers, most, b, rows)
    requires row.status.Running? && row.spend == 0
    requires Total(SpendOn(DayStart(row.startedAt)), rows) < cap
    requires Total(RunningOn(DayStart(row.startedAt)), rows[b..]) < workers
    ensures SpendHolds(cap, workers, most, b, rows + [row])
  {
    var more := rows + [row];
    assert more[b..] == rows[b..] + [row];
    forall day: nat | IsDay(day) && DayIsUsed(more, day)
      ensures Exposure(most, b, more, day) < cap + Times(most, workers)
    {
      TotalAppend(SpendOn(day), rows, row);
      TotalAppend(RunningOn(day), rows[b..], row);
      if StartedOn(row, day) {
        OnlyItsDay(row, day);
        TimesMonotone(most, Total(RunningOn(day), rows[b..]) + 1, workers);
      } else {
        var i: nat :| i < |more| && StartedOn(more[i], day);
        assert StartedOn(rows[i], day);
        assert Exposure(most, b, rows, day) < cap + Times(most, workers);
      }
    }
  }

  /** The check at the top of an iteration still covers a row that starts later, even past midnight. */
  lemma RoomSurvivesMidnight(cap: nat, rows: seq<Row>, checked: nat, now: nat)
    requires Total(SpendOn(DayStart(checked)), rows) < cap && checked <= now
    requires forall i: nat :: i < |rows| ==> rows[i].startedAt <= checked
    ensures Total(SpendOn(DayStart(now)), rows) < cap
  {
    if DayStart(now) != DayStart(checked) {
      assert DayStart(now) > checked;
      TotalZero(SpendOn(DayStart(now)), rows);
    }
  }

  /** Rows running on a day are among the running rows. */
  lemma RunningOnBelow(rows: seq<Row>, day: nat)
    ensures Total(RunningOn(day), rows) <= Total(OfStatus(Running), rows)
  {
    TotalBelow(RunningOn(day), OfStatus(Running), rows);
  }

  /** At the start of a run no row is its own, so what holds is the recorded spend itself. */
  ghost predicate RecordedHolds(cap: nat, workers: nat, most: nat, rows: seq<Row>)
  {
    forall day: nat :: IsDay(day) && DayIsUsed(rows, day) ==> Total(SpendOn(day), rows) < cap + workers * most
  }

  lemma HoldsMeansRecorded(cap: nat, workers: nat, most: nat, b: nat, rows: seq<Row>)
    requires b <= |rows| && SpendHolds(cap, workers, most, b, rows)
    ensures RecordedHolds(cap, workers, most, rows)
  {
    TimesIsProduct(most, workers);
    forall day: nat | IsDay(day) && DayIsUsed(rows, day) ensures Total(SpendOn(day), rows) < cap + workers * most {
      assert Exposure(most, b, rows, day) < cap + Times(most, workers);
    }
  }

  lemma RecordedStartsRun(cap: nat, workers: nat, most: nat, rows: seq<Row>)
    requires RecordedHolds(cap, workers, most, rows)
    ensures SpendHolds(cap, workers, most, |rows|, rows)
  {
    TimesIsProduct(most, workers);
    assert rows[|rows|..] == [];
  }

  /** Rows with the same days and spend hold the same. */
  lemma SameSpendRecorded(cap: nat, workers: nat, most: nat, rows: seq<Row>, t: seq<Row>)
    requires RecordedHolds(cap, workers, most, rows) && |t| == |rows|
    requires forall i: nat :: i < |rows| ==> t[i].startedAt == rows[i].startedAt && t[i].spend == rows[i].spend
    ensures RecordedHolds(cap, workers, most, t)
  {
    forall day: nat | IsDay(day) && DayIsUsed(t, day) ensures Total(SpendOn(day), t) < cap + workers * most {
      TotalSame(SpendOn(day), rows, t);
      var i: nat :| i < |t| && StartedOn(t[i], day);
      assert StartedOn(rows[i], day);
    }
  }
}
