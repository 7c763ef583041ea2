// What any number of resolution sweeps guarantees
// (scripts/marketwatch_resolve.py:126-254).
module FeedLaws {
  import opened Prelude
  import opened Feeds

  // ---------------------------------------------------------- one row per market

  /** No two rows name the same market, the empty id aside. */
  ghost predicate OneRowEach(rows: seq<Resolution>) {
    forall i, j :: 0 <= i < j < |rows| ==> rows[i].market == rows[j].market ==> rows[i].market == ""
  }

  lemma {:induction false} MarketsDistinct(pairings: seq<Pairing>)
    ensures Distinct(MarketsOf(pairings))
  {
    if pairings != [] {
      MarketsDistinct(pairings[..|pairings| - 1]);
    }
  }

  lemma {:induction false} ChecksKeepOneRow(
      rows: seq<Resolution>, markets: seq<string>, already: set<string>, fetch: string -> Fetched)
    requires OneRowEach(rows) && Distinct(markets) && already == AlreadyResolved(rows)
    ensures var rows' := AfterChecks(rows, markets, already, fetch);
            && OneRowEach(rows') && rows <= rows'
            && forall i :: |rows| <= i < |rows'| ==> rows'[i].market in markets && rows'[i].market !in already
  {
    if markets != [] {
      var front, m := markets[..|markets| - 1], markets[|markets| - 1];
      ChecksKeepOneRow(rows, front, already, fetch);
      assert m !in front;
      assert markets == front + [m];
      if m !in already {
        var before := AfterChecks(rows, front, already, fetch);
        assert forall i :: 0 <= i < |before| && before[i].market == m && m != "" && i < |rows| ==>
          rows[i].market in already;
      }
    }
  }

  // ---------------------------------------------------------------- the feed log

  predicate SamePair(a: Feed, b: Feed) {
    a.market == b.market && a.program == b.program
  }

  /** Every row was an attempt that the log before it asked for. */
  predicate Warranted(feeds: seq<Feed>) {
    forall j :: 0 <= j < |feeds| ==> !Settled(feeds[..j], feeds[j].market, feeds[j].program)
  }

  /** The attempts for one market and program are made at increasing times. */
  predicate TimesIncrease(feeds: seq<Feed>) {
    forall i, j :: 0 <= i < j < |feeds| && SamePair(feeds[i], feeds[j]) ==> feeds[i].ts < feeds[j].ts
  }

  /** A market is fed to a program successfully at most once, and not tried again. */
  predicate NothingAfterSuccess(feeds: seq<Feed>) {
    forall i, j :: 0 <= i < j < |feeds| && SamePair(feeds[i], feeds[j]) ==> !feeds[i].done
  }

  lemma {:induction false} AttemptWarranted(feeds: seq<Feed>, t: Task, answers: nat -> Answer)
    requires Warranted(feeds)
    ensures Warranted(Attempted(feeds, t, answers)) && feeds <= Attempted(feeds, t, answers)
  {
    var feeds' := Attempted(feeds, t, answers);
    forall j | 0 <= j < |feeds'|
      ensures !Settled(feeds'[..j], feeds'[j].market, feeds'[j].program)
    {
      if j < |feeds| {
        assert feeds'[..j] == feeds[..j];
      } else {
        assert feeds'[..j] == feeds;
      }
    }
  }

  lemma {:induction false} TasksWarranted(feeds: seq<Feed>, tasks: seq<Task>, answers: nat -> Answer)
    requires Warranted(feeds)
    ensures Warranted(AfterTasks(feeds, tasks, answers)) && feeds <= AfterTasks(feeds, tasks, answers)
  {
    if tasks != [] {
      TasksWarranted(feeds, tasks[..|tasks| - 1], answers);
      AttemptWarranted(AfterTasks(feeds, tasks[..|tasks| - 1], answers), tasks[|tasks| - 1], answers);
    }
  }

  /** The latest row is the last one when times increase. */
  lemma {:induction false} LatestIsLast(feeds: seq<Feed>, i: nat)
    requires i < |feeds| && forall k :: i < k < |feeds| ==> !SamePair(feeds[k], feeds[i])
    requires forall k :: 0 <= k < i && SamePair(feeds[k], feeds[i]) ==> feeds[k].ts < feeds[i].ts
    ensures Latest(feeds, feeds[i].market, feeds[i].program) == Some(feeds[i])
  {
    var n := |feeds| - 1;
    var front := feeds[..n];
    if i < n {
      assert front[i] == feeds[i];
      LatestIsLast(front, i);
      assert !SamePair(feeds[n], feeds[i]);
    } else {
      var before := Latest(front, feeds[i].market, feeds[i].program);
      if before.Some? {
        var k :| 0 <= k < |front| && front[k] == before.value;
        assert SamePair(feeds[k], feeds[i]);
      }
    }
  }

  lemma {:induction false} SuccessIsFinal(feeds: seq<Feed>)
    requires Warranted(feeds) && TimesIncrease(feeds)
    ensures NothingAfterSuccess(feeds)
  {
    if feeds != [] {
      var n := |feeds| - 1;
      var front := feeds[..n];
      FrontWarranted(feeds);
      SuccessIsFinal(front);
      OneMoreRow(front, feeds[n]);
      assert feeds == front + [feeds[n]];
    }
  }

  lemma {:induction false} OneMoreRow(front: seq<Feed>, last: Feed)
    requires TimesIncrease(front) && NothingAfterSuccess(front) && !Settled(front, last.market, last.program)
    ensures NothingAfterSuccess(front + [last])
  {
    forall i | 0 <= i < |front| && SamePair(front[i], last)
      ensures !front[i].done
    {
      if front[i].done {
        SuccessSettles(front, i);
      }
    }
  }

  lemma {:induction false} FrontWarranted(feeds: seq<Feed>)
    requires feeds != [] && Warranted(feeds) && TimesIncrease(feeds)
    ensures var front := feeds[..|feeds| - 1];
            && Warranted(front) && TimesIncrease(front)
            && !Settled(front, feeds[|feeds| - 1].market, feeds[|feeds| - 1].program)
  {
    var front := feeds[..|feeds| - 1];
    forall j | 0 <= j < |front|
      ensures !Settled(front[..j], front[j].market, front[j].program)
    {
      assert front[..j] == feeds[..j];
    }
  }

  lemma {:induction false} SuccessSettles(feeds: seq<Feed>, i: nat)
    requires i < |feeds| && feeds[i].done && TimesIncrease(feeds) && NothingAfterSuccess(feeds)
    ensures Settled(feeds, feeds[i].market, feeds[i].program)
  {
    forall k | i < k < |feeds|
      ensures !SamePair(feeds[k], feeds[i])
    {
      assert SamePair(feeds[k], feeds[i]) == SamePair(feeds[i], feeds[k]);
    }
    LatestIsLast(feeds, i);
  }

  /** Whether a success counts as one depends on the clock: after a row that
      succeeded and that no row of its pair follows, later sweeps leave the pair
      alone exactly when that row is later than every failed one before it. */
  lemma {:induction false} SettledExactly(feeds: seq<Feed>, i: nat)
    requires i < |feeds| && feeds[i].done && forall k :: i < k < |feeds| ==> !SamePair(feeds[k], feeds[i])
    requires forall k :: 0 <= k < i && SamePair(feeds[k], feeds[i]) ==> !feeds[k].done
    ensures Settled(feeds, feeds[i].market, feeds[i].program)
      <==> forall k :: 0 <= k < i && SamePair(feeds[k], feeds[i]) ==> feeds[k].ts < feeds[i].ts
  {
    if k :| 0 <= k < i && SamePair(feeds[k], feeds[i]) && feeds[k].ts >= feeds[i].ts {
      LatestIsEarlier(feeds, i, k);
    } else {
      LatestIsLast(feeds, i);
    }
  }

  lemma {:induction false} LatestIsEarlier(feeds: seq<Feed>, i: nat, k: nat)
    requires k < i < |feeds| && SamePair(feeds[k], feeds[i]) && feeds[k].ts >= feeds[i].ts
    requires forall j :: i < j < |feeds| ==> !SamePair(feeds[j], feeds[i])
    requires forall j :: 0 <= j < i && SamePair(feeds[j], feeds[i]) ==> !feeds[j].done
    ensures var last := Latest(feeds, feeds[i].market, feeds[i].program); last.Some? && !last.value.done
  {
    var n := |feeds| - 1;
    var front := feeds[..n];
    if i < n {
      assert front[i] == feeds[i];
      LatestIsEarlier(front, i, k);
      assert !SamePair(feeds[n], feeds[i]);
    } else {
      LatestAtLeast(front, k);
      var last := Latest(front, feeds[i].market, feeds[i].program);
      var j :| 0 <= j < |front| && front[j] == last.value;
      assert SamePair(feeds[j], feeds[i]);
    }
  }

  lemma {:induction false} LatestAtLeast(feeds: seq<Feed>, k: nat)
    requires k < |feeds|
    ensures var last := Latest(feeds, feeds[k].market, feeds[k].program); last.Some? && last.value.ts >= feeds[k].ts
  {
    if k < |feeds| - 1 {
      LatestAtLeast(feeds[..|feeds| - 1], k);
    }
  }

  // ------------------------------------------------------------------- sweeps

  datatype Sweep = Sweep(pairings: seq<Pairing>, fetch: string -> Fetched, phaseA: bool, phaseB: bool)

  datatype Files = Files(rows: seq<Resolution>, feeds: seq<Feed>)

  function AfterSweep(files: Files, s: Sweep, answers: nat -> Answer): Files {
    var rows := if s.phaseA then AfterA(files.rows, s.pairings, s.fetch) else files.rows;
    Files(rows, if s.phaseB then AfterB(rows, files.feeds, s.pairings, answers) else files.feeds)
  }

  function AfterSweeps(sweeps: seq<Sweep>, answers: nat -> Answer): Files {
    if sweeps == [] then Files([], [])
    else AfterSweep(AfterSweeps(sweeps[..|sweeps| - 1], answers), sweeps[|sweeps| - 1], answers)
  }

  /** Across any sweeps, with changing pairings and failing fetches: at most one
      resolution row per market; and, if the clock moves on between the attempts
      for a pair, each market is fed successfully to a program at most once and
      never tried again after that. */
  lemma {:induction false} SweepsKeepOnce(sweeps: seq<Sweep>, answers: nat -> Answer)
    ensures var files := AfterSweeps(sweeps, answers);
            && OneRowEach(files.rows) && Warranted(files.feeds)
            && (TimesIncrease(files.feeds) ==> NothingAfterSuccess(files.feeds))
  {
    var files := AfterSweeps(sweeps, answers);
    if sweeps != [] {
      var s, before := sweeps[|sweeps| - 1], AfterSweeps(sweeps[..|sweeps| - 1], answers);
      SweepsKeepOnce(sweeps[..|sweeps| - 1], answers);
      MarketsDistinct(s.pairings);
      ChecksKeepOneRow(before.rows, MarketsOf(s.pairings), AlreadyResolved(before.rows), s.fetch);
      TasksWarranted(before.feeds, Tasks(files.rows, s.pairings), answers);
    }
    if TimesIncrease(files.feeds) {
      SuccessIsFinal(files.feeds);
    }
  }

  predicate AllSettled(feeds: seq<Feed>, tasks: seq<Task>) {
    tasks == [] ||
    var t := tasks[|tasks| - 1];
    AllSettled(feeds, tasks[..|tasks| - 1]) && Settled(feeds, t.market, t.program)
  }

  lemma {:induction false} AllSettledEach(feeds: seq<Feed>, tasks: seq<Task>)
    ensures AllSettled(feeds, tasks) <==>
              forall k :: 0 <= k < |tasks| ==> Settled(feeds, tasks[k].market, tasks[k].program)
  {
    if tasks != [] {
      var front := tasks[..|tasks| - 1];
      AllSettledEach(feeds, front);
      assert forall k :: 0 <= k < |tasks| ==> tasks[k] == if k < |front| then front[k] else tasks[|tasks| - 1];
    }
  }

  /** Phase B appends nothing exactly when every feed it looks at is settled. */
  lemma {:induction false} QuietExactly(feeds: seq<Feed>, tasks: seq<Task>, answers: nat -> Answer)
    requires Warranted(feeds)
    ensures AfterTasks(feeds, tasks, answers) == feeds <==> AllSettled(feeds, tasks)
  {
    if tasks != [] {
      var front, t := tasks[..|tasks| - 1], tasks[|tasks| - 1];
      QuietExactly(feeds, front, answers);
      TasksWarranted(feeds, front, answers);
      QuietStep(feeds, AfterTasks(feeds, front, answers), t, answers);
    }
  }

  lemma {:induction false} QuietStep(feeds: seq<Feed>, mid: seq<Feed>, t: Task, answers: nat -> Answer)
    requires feeds <= mid
    ensures Attempted(mid, t, answers) == feeds <==> mid == feeds && Settled(feeds, t.market, t.program)
  {
    if mid != feeds {
      assert |Attempted(mid, t, answers)| >= |mid| > |feeds|;
    }
  }

  predicate Succeeded(feeds: seq<Feed>, t: Task) {
    exists i :: 0 <= i < |feeds| && feeds[i].done && feeds[i].market == t.market && feeds[i].program == t.program
  }

  /** The latest row is a success exactly when some row is one. */
  lemma {:induction false} SettledMeansSucceeded(feeds: seq<Feed>, t: Task)
    requires TimesIncrease(feeds) && NothingAfterSuccess(feeds)
    ensures Settled(feeds, t.market, t.program) <==> Succeeded(feeds, t)
  {
    if i :| 0 <= i < |feeds| && feeds[i].done && feeds[i].market == t.market && feeds[i].program == t.program {
      SuccessSettles(feeds, i);
    }
  }

  /** So when the clock has moved on between attempts, a further sweep, whatever it
      newly resolves, adds no feed row exactly when it skips phase B or every pair
      that phase B then looks at already has a success. */
  lemma {:induction false} QuietAfterSuccess(sweeps: seq<Sweep>, answers: nat -> Answer, s: Sweep)
    requires TimesIncrease(AfterSweeps(sweeps, answers).feeds)
    ensures var files := AfterSweeps(sweeps, answers);
            var after := AfterSweep(files, s, answers);
            var tasks := Tasks(after.rows, s.pairings);
            after.feeds == files.feeds
            <==> (s.phaseB ==> forall k :: 0 <= k < |tasks| ==> Succeeded(files.feeds, tasks[k]))
  {
    var files := AfterSweeps(sweeps, answers);
    var tasks := Tasks(AfterSweep(files, s, answers).rows, s.pairings);
    SweepsKeepOnce(sweeps, answers);
    forall k | 0 <= k < |tasks|
      ensures Settled(files.feeds, tasks[k].market, tasks[k].program) <==> Succeeded(files.feeds, tasks[k])
    {
      SettledMeansSucceeded(files.feeds, tasks[k]);
    }
    AllSettledEach(files.feeds, tasks);
    QuietExactly(files.feeds, tasks, answers);
  }

  /** Two attempts within one second tie, and the failed one counts: the pair is
      fed again although it succeeded. */
  lemma {:induction false} TiedTimesFeedTwice()
    ensures var feeds := [Feed("m", "p", 0, false, true), Feed("m", "p", 0, true, true)];
            Warranted(feeds) && feeds[1].done && !Settled(feeds, "m", "p")
  {
    var a, b := Feed("m", "p", 0, false, true), Feed("m", "p", 0, true, true);
    var feeds := [a, b];
    assert feeds[..0] == [] && feeds[..1] == [a] && [a][..0] == [];
    assert Latest([], "m", "p") == None;
    assert Latest([a], "m", "p") == Some(a);
    assert Latest(feeds, "m", "p") == Some(a);
  }
}
