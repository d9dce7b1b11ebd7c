/** `ApprovalQueue` itself: each method reads the file's rows, changes them in a loop and saves,
    and is proved to take the file where the operation of Approvals.dfy takes it. */
module ApprovalStore {
  import opened Wrappers
  import opened Approvals

  /** Rows for one request, whatever their status, newest first. */
  function FoundIn(rows: seq<Row>, work: Work): seq<Row> {
    if rows == [] then []
    else (if rows[|rows| - 1].work == work then [rows[|rows| - 1]] else []) + FoundIn(rows[..|rows| - 1], work)
  }

  function WaitingIn(rows: seq<Row>): seq<Row> {
    if rows == [] then []
    else WaitingIn(rows[..|rows| - 1]) + if rows[|rows| - 1].status.Pending? then [rows[|rows| - 1]] else []
  }

  method SweepRows(rows: seq<Row>, now: Time) returns (swept: seq<Row>, changed: bool)
    ensures swept == Swept(rows, now) && changed == (swept != rows)
  {
    swept, changed := rows, false;
    for i := 0 to |rows|
      invariant |swept| == |rows| && swept[i..] == rows[i..]
      invariant forall j | 0 <= j < i :: swept[j] == SweptRow(rows[j], now)
      invariant changed <==> exists j :: 0 <= j < i && swept[j] != rows[j]
    {
      var row := swept[i];
      assert row == rows[i];
      if row.status.Pending? && !Before(now, Deadline(row)) {
        swept := swept[i := row.(status := Denied, reason := Some(Expired), resolvedAt := Some(now))];
        changed := true;
        assert swept[i] != rows[i];
      }
    }
    assert swept == Swept(rows, now);
  }

  method NoteRows(rows: seq<Row>, ids: set<Id>, date: int) returns (noted: seq<Row>, changed: nat)
    ensures noted == Noted(rows, ids, date) && changed == Changes(rows, noted, |rows|)
  {
    noted, changed := rows, 0;
    for i := 0 to |rows|
      invariant |noted| == |rows| && noted[i..] == rows[i..]
      invariant forall j | 0 <= j < i :: noted[j] == NotedRow(rows[j], ids, date)
      invariant changed == Changes(rows, noted, i)
    {
      var row := noted[i];
      assert row == rows[i];
      if row.id in ids && row.status.Pending? && row.batch && row.digestDate != Some(date) {
        var marked := noted[i := row.(digestDate := Some(date))];
        ChangesOnly(rows, noted, marked, i);
        noted, changed := marked, changed + 1;
        assert noted[i] != rows[i];
      }
    }
    assert noted == Noted(rows, ids, date);
  }

  lemma {:induction false} ChangesOnly(before: seq<Row>, after: seq<Row>, more: seq<Row>, n: nat)
    requires n <= |before| == |after| == |more| && forall i | 0 <= i < n :: more[i] == after[i]
    ensures Changes(before, more, n) == Changes(before, after, n)
  {
    if n > 0 {
      ChangesOnly(before, after, more, n - 1);
    }
  }

  method RetainRows(rows: seq<Row>, now: Time) returns (kept: seq<Row>)
    ensures kept == Retained(rows, now)
  {
    var cutoff := now - RETAIN_RESOLVED;
    kept := [];
    for i := 0 to |rows|
      invariant kept == Retained(rows[..i], now)
    {
      assert rows[..i + 1][..i] == rows[..i];
      var row := rows[i];
      if row.status.Pending? || row.status.Running? {
        kept := kept + [row];
      } else if row.resolvedAt.None? || row.resolvedAt.value >= cutoff {
        kept := kept + [row];
      }
    }
    assert rows[..|rows|] == rows;
  }

  method FindPlace(rows: seq<Row>, id: Id, status: Status) returns (i: nat)
    ensures i == PlaceOf(rows, id, status)
  {
    i := 0;
    while i < |rows| && !(rows[i].id == id && rows[i].status == status)
      invariant i <= |rows| && forall j | 0 <= j < i :: !(rows[j].id == id && rows[j].status == status)
    {
      i := i + 1;
    }
  }

  lemma IsSaved(before: seq<Row>, after: seq<Row>, op: Op)
    requires after == Changed(before, op) && Saves(before, op)
    ensures Done(before, op) == Retained(after, SaveTime(op))
  {
  }

  /** What a sweep leaves pending or running it has not touched. */
  lemma SweptPending(rows: seq<Row>, now: Time, i: nat)
    requires i < |rows| && !Terminal(Swept(rows, now)[i].status)
    ensures Swept(rows, now)[i] == rows[i]
    ensures rows[i].status.Pending? ==> Before(now, Deadline(rows[i]))
  {
    assert Swept(rows, now)[i] == SweptRow(rows[i], now);
  }

  lemma InTime(row: Row, claimed: Row, now: Time)
    requires Before(now, Deadline(row)) && claimed.expiresAt == row.expiresAt && claimed.createdAt == row.createdAt
    ensures Before(now, Deadline(claimed))
  {
  }

  lemma Replaced(before: seq<Row>, rows: seq<Row>, i: nat, row: Row, op: Op)
    requires i < |rows| == |before| && rows[i] == before[i] && row.status != before[i].status
    requires rows[i := row] == Changed(before, op)
    ensures Done(before, op) == Retained(rows[i := row], SaveTime(op))
  {
    assert rows[i := row][i] == row;
    IsSaved(before, rows[i := row], op);
  }

  class ApprovalQueue {
    var disk: seq<Row>

    /** A running approval belonged to a worker of the process before: fail closed. */
    constructor (file: seq<Row>, now: Time, save: Time)
      ensures disk == Done(file, Restart(now, save))
    {
      disk := file;
      new;
      var rows, changed := file, false;
      for i := 0 to |file|
        invariant disk == file && |rows| == |file| && rows[i..] == file[i..]
        invariant forall j | 0 <= j < i :: rows[j] == RecoveredRow(file[j], now)
        invariant changed <==> exists j :: 0 <= j < i && rows[j] != file[j]
      {
        var row := rows[i];
        assert row == file[i];
        if row.status.Running? {
          rows := rows[i := row.(status := Denied, reason := Some(Interrupted), resolvedAt := Some(now))];
          changed := true;
          assert rows[i] != file[i];
        }
      }
      assert rows == Recovered(file, now);
      if changed {
        Save(rows, save);
      }
    }

    method Save(rows: seq<Row>, now: Time)
      modifies this
      ensures disk == Retained(rows, now)
    {
      disk := RetainRows(rows, now);
    }

    method Enqueue(id: Id, work: Work, batch: bool, digestDate: Option<int>, expiresAfter: Option<Time>, clock: Clock)
      modifies this
      ensures disk == Done(old(disk), Op.Enqueue(id, work, batch, digestDate, expiresAfter, clock))
    {
      var rows, _ := SweepRows(disk, clock.sweep);
      var lasts := if expiresAfter.Some? && expiresAfter.value != 0 then expiresAfter.value else EXPIRES_AFTER;
      var row := Row(id, work, Some(clock.stamp), Some(clock.stamp + lasts), batch, if batch then digestDate else None,
                     Pending, None, None, None, None);
      IsSaved(disk, rows + [row], Op.Enqueue(id, work, batch, digestDate, expiresAfter, clock));
      Save(rows + [row], clock.save);
    }

    method Waiting(clock: Clock) returns (waiting: seq<Row>)
      modifies this
      ensures disk == Done(old(disk), Look(clock))
      ensures waiting == WaitingIn(Swept(old(disk), clock.sweep))
    {
      var rows, swept := SweepRows(disk, clock.sweep);
      if swept {
        Save(rows, clock.save);
      }
      waiting := [];
      for i := 0 to |rows|
        invariant waiting == WaitingIn(rows[..i])
      {
        assert rows[..i + 1][..i] == rows[..i];
        if rows[i].status.Pending? {
          waiting := waiting + [rows[i]];
        }
      }
      assert rows[..|rows|] == rows;
    }

    method NoteDigest(ids: set<Id>, date: int, save: Time) returns (changed: nat)
      modifies this
      ensures disk == Done(old(disk), Op.NoteDigest(ids, date, save))
      ensures changed == Changes(old(disk), Noted(old(disk), ids, date), |old(disk)|)
    {
      var rows;
      rows, changed := NoteRows(disk, ids, date);
      if changed > 0 {
        Save(rows, save);
      }
    }

    /** Exactly one caller gets the row to run, and only before its deadline. */
    method Claim(id: Id, taskId: Option<string>, clock: Clock) returns (won: Option<Row>)
      modifies this
      ensures disk == Done(old(disk), Op.Claim(id, taskId, clock))
      ensures won.Some? <==> Wins(old(disk), id, clock)
      ensures won.Some? ==> won.value.id == id && won.value.status == Running && Before(clock.sweep, Deadline(won.value))
    {
      var rows, swept := SweepRows(disk, clock.sweep);
      var i := FindPlace(rows, id, Pending);
      if i < |rows| {
        var claimed := rows[i].(status := Running, claimedAt := Some(clock.stamp),
                                taskId := if taskId.Some? then taskId else rows[i].taskId);
        SweptPending(disk, clock.sweep, i);
        InTime(rows[i], claimed, clock.sweep);
        Replaced(disk, rows, i, claimed, Op.Claim(id, taskId, clock));
        Save(rows[i := claimed], clock.save);
        return Some(claimed);
      }
      if swept {
        Save(rows, clock.save);
      }
      won := None;
    }

    method Resolve(id: Id, from: Status, to: Status, reason: Option<string>, clock: Clock) returns (done: bool)
      modifies this
      ensures disk == Done(old(disk), Op.Resolve(id, from, to, reason, clock))
      ensures done <==> Finds(Swept(old(disk), clock.sweep), id, from)
    {
      var rows, swept := SweepRows(disk, clock.sweep);
      var i := FindPlace(rows, id, from);
      if i < |rows| {
        var resolved := rows[i].(status := to, resolvedAt := Some(clock.stamp),
                                 reason := if reason.Some? then Some(Other(reason.value)) else rows[i].reason);
        IsSaved(disk, rows[i := resolved], Op.Resolve(id, from, to, reason, clock));
        Save(rows[i := resolved], clock.save);
        return true;
      }
      if swept {
        Save(rows, clock.save);
      }
      done := false;
    }

    method Find(work: Work) returns (found: seq<Row>)
      ensures found == FoundIn(disk, work)
    {
      found := [];
      for i := 0 to |disk|
        invariant found == FoundIn(disk[..i], work)
      {
        assert disk[..i + 1][..i] == disk[..i];
        if disk[i].work == work {
          found := [disk[i]] + found;
        }
      }
      assert disk[..|disk|] == disk;
    }
  }
}
