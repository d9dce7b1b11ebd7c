/** What handling a taken quote leaves of the approvals: the new one waits, those of the replies
    it supersedes do not. */
module QuoteApprovals {
  import opened Wrappers
  import opened Approvals
  import opened ApprovalRuns
  import opened ApprovalDeadlines
  import opened Quotes
  import opened QuoteDesk

  predicate Fresh(rows: seq<Row>, id: Id) { forall k | 0 <= k < |rows| :: rows[k].id != id }

  lemma ParkedWaits(rows: seq<Row>, id: Id, ref: string, clock: Clock)
    requires OneRowEach(rows) && Fresh(rows, id)
    ensures var after := Done(rows, OpOf(Park(id, ref), clock));
      OneRowEach(after) && WaitsUntil(after, id, clock.stamp + A_DAY)
  {
    var op := OpOf(Park(id, ref), clock);
    var swept, changed := Swept(rows, clock.sweep), Changed(rows, op);
    forall k | 0 <= k < |rows| ensures swept[k].id == rows[k].id {
      assert swept[k] == SweptRow(rows[k], clock.sweep);
    }
    assert changed[..|rows|] == swept && changed[|rows|] == NewRow(id, Work(QUOTE, ref), false, None, None, clock.stamp);
    assert OneRowEach(changed);
    assert WaitsUntil(changed, id, clock.stamp + A_DAY);
    RetainedIsPart(changed, clock.save);
    RetainedWaits(changed, clock.save, id, clock.stamp + A_DAY);
  }

  lemma DeniedOneEach(rows: seq<Row>, other: Id, clock: Clock)
    requires OneRowEach(rows)
    ensures OneRowEach(Done(rows, OpOf(Deny(other), clock)))
  {
    var op := OpOf(Deny(other), clock);
    var swept, changed := Swept(rows, clock.sweep), Changed(rows, op);
    forall k | 0 <= k < |rows| ensures changed[k].id == rows[k].id {
      assert swept[k] == SweptRow(rows[k], clock.sweep);
    }
    RetainedIsPart(changed, clock.save);
  }

  lemma DeniedIsOver(rows: seq<Row>, id: Id, clock: Clock)
    requires OneRowEach(rows)
    ensures DoesNotWait(Done(rows, OpOf(Deny(id), clock)), id)
  {
    var op := OpOf(Deny(id), clock);
    var swept, changed := Swept(rows, clock.sweep), Changed(rows, op);
    forall k | 0 <= k < |rows| ensures swept[k].id == rows[k].id {
      assert swept[k] == SweptRow(rows[k], clock.sweep);
    }
    var at := PlaceOf(swept, id, Pending);
    forall k | 0 <= k < |changed| && changed[k].id == id ensures !changed[k].status.Pending? {
      if k != at {
        assert changed[k] == swept[k];
      }
    }
    assert changed == rows ==> DoesNotWait(rows, id);
    RetainedDoesNotWait(changed, clock.save, id);
  }

  /** The approvals once the first `n` replies have been looked at. */
  ghost predicate OnlyNewWaits(rows: seq<Row>, asked: seq<Reply>, keep: nat, n: nat, id: Id, lapses: Time)
    requires keep < |asked| && n <= |asked|
  {
    && OneRowEach(rows) && WaitsUntil(rows, id, lapses)
    && forall j | 0 <= j < n && Older(asked, keep, j) :: DoesNotWait(rows, asked[j].approval.value)
  }

  lemma OneDenied(rows: seq<Row>, asked: seq<Reply>, keep: nat, n: nat, id: Id, lapses: Time, clock: Clock)
    requires keep < |asked| && n < |asked| && Older(asked, keep, n) && asked[n].approval.value != id && clock.sweep < lapses
    requires OnlyNewWaits(rows, asked, keep, n, id, lapses)
    ensures OnlyNewWaits(Done(rows, OpOf(Deny(asked[n].approval.value), clock)), asked, keep, n + 1, id, lapses)
  {
    var op := OpOf(Deny(asked[n].approval.value), clock);
    DeniedOneEach(rows, asked[n].approval.value, clock);
    DeniedIsOver(rows, asked[n].approval.value, clock);
    DoneWaits(rows, op, id, lapses);
    forall j | 0 <= j < n && Older(asked, keep, j) ensures DoesNotWait(Done(rows, op), asked[j].approval.value) {
      DoneStaysOver(rows, op, asked[j].approval.value);
    }
  }

  ghost predicate InTime(clock: nat -> Clock, lapses: Time) { forall k :: clock(k).sweep < lapses }

  lemma OneMoreLooked(desk: Desk, done: seq<Action>, asked: seq<Reply>, keep: nat, n: nat, id: Id, lapses: Time, clock: nat -> Clock, mid: Desk)
    requires keep < |asked| && n < |asked| && mid == DeskAfterAll(desk, UpTo(done, asked, keep, n), clock)
    requires Older(asked, keep, n) ==> asked[n].approval.value != id
    requires InTime(clock, lapses)
    requires OnlyNewWaits(mid.rows, asked, keep, n, id, lapses)
    ensures OnlyNewWaits(DeskAfterAll(desk, UpTo(done, asked, keep, n + 1), clock).rows, asked, keep, n + 1, id, lapses)
  {
    if Older(asked, keep, n) {
      var sofar := |UpTo(done, asked, keep, n)|;
      OneWithdrawn(desk, done, asked, keep, n, clock);
      OneDenied(mid.rows, asked, keep, n, id, lapses, clock(sofar));
    } else {
      NoneWithdrawn(done, asked, keep, n);
    }
  }

  lemma {:induction false} WithdrawnDoNotWait(desk: Desk, done: seq<Action>, asked: seq<Reply>, keep: nat, n: nat, id: Id, lapses: Time, clock: nat -> Clock, before: Desk)
    requires keep < |asked| && n <= |asked|
    requires forall j | 0 <= j < n && Older(asked, keep, j) :: asked[j].approval.value != id
    requires InTime(clock, lapses) && before == DeskAfterAll(desk, done, clock)
    requires OnlyNewWaits(before.rows, asked, keep, 0, id, lapses)
    ensures OnlyNewWaits(DeskAfterAll(desk, UpTo(done, asked, keep, n), clock).rows, asked, keep, n, id, lapses)
    decreases n
  {
    if n == 0 {
      NoneWithdrawn(done, asked, keep, 0);
    } else {
      WithdrawnDoNotWait(desk, done, asked, keep, n - 1, id, lapses, clock, before);
      OneMoreLooked(desk, done, asked, keep, n - 1, id, lapses, clock, DeskAfterAll(desk, UpTo(done, asked, keep, n - 1), clock));
    }
  }

  /** A quote that is taken waits for a day from its stamp, and no approval of a reply it
      supersedes waits any longer - if no sweep of the handling itself reads a time at or past
      that. */
  lemma TakenWaits(desk: Desk, i: nat, id: Id, clock: nat -> Clock)
    requires i < |desk.replies| && NotParked(desk, i) && !desk.replies[i].noContent && desk.replies[i].readable
    requires OneRowEach(desk.rows) && Fresh(desk.rows, id)
    requires forall j | 0 <= j < |desk.replies| && desk.replies[j].approval.Some? :: desk.replies[j].approval.value != id
    requires InTime(clock, clock(0).stamp + A_DAY)
    ensures var r, rows := desk.replies[i], Handled(desk, i, Taken(id), clock).rows;
      && WaitsUntil(rows, id, clock(0).stamp + A_DAY)
      && forall j | 0 <= j < |desk.replies| && j != i && Submits(desk.replies, j, r.order) :: DoesNotWait(rows, desk.replies[j].approval.value)
  {
    var r := desk.replies[i];
    NoneFound(desk.rows, r);
    var two := [Park(id, RefOf(r)), Put(i, r.(state := Submitted, approval := Some(id)))];
    ParkedAndPut(desk, i, id, clock);
    WithdrawnDoNotWait(desk, two, desk.replies, i, |desk.replies|, id, clock(0).stamp + A_DAY, clock, DeskAfterAll(desk, two, clock));
  }

  lemma ParkedAndPut(desk: Desk, i: nat, id: Id, clock: nat -> Clock)
    requires i < |desk.replies| && OneRowEach(desk.rows) && Fresh(desk.rows, id)
    ensures var r := desk.replies[i];
      var two := [Park(id, RefOf(r)), Put(i, r.(state := Submitted, approval := Some(id)))];
      OnlyNewWaits(DeskAfterAll(desk, two, clock).rows, desk.replies, i, 0, id, clock(0).stamp + A_DAY)
  {
    var r := desk.replies[i];
    var park, put := Park(id, RefOf(r)), Put(i, r.(state := Submitted, approval := Some(id)));
    Then(desk, [], park, clock);
    Then(desk, [park], put, clock);
    assert [] + [park] == [park] && [park] + [put] == [park, put];
    ParkedWaits(desk.rows, id, RefOf(r), clock(0));
  }
}
