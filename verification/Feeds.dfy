// The two-phase resolution sweeper (scripts/marketwatch_resolve.py): phase A
// records resolved markets, phase B feeds each of them to the calibration of
// every program that forecast it. Both files are append-only.
module Feeds {
  import opened Prelude

  datatype Pairing = Pairing(failed: bool, market: string, program: string)

  /** What the market's page says. */
  datatype Fetched = FetchError | Gone | StillOpen | ResolvedAs(resolution: string)

  /** `pending` is the value of fed_calibration; otherwise it is "n/a". */
  datatype Resolution = Resolution(market: string, resolution: string, pending: bool)

  datatype Feed = Feed(market: string, program: string, ts: int, done: bool, actual: bool)

  /** One call of the substrate: its answer, and the clock after it. */
  datatype Answer = Answer(ok: bool, ts: int)

  datatype ACounts = ACounts(newlyResolved: nat, stillOpen: nat, deleted: nat, errors: nat)

  datatype BCounts = BCounts(fed: nat, skipped: nat, failed: nat)

  predicate Usable(p: Pairing) {
    !p.failed && p.program != ""
  }

  /** The markets of the usable pairings, in order of first appearance. */
  function MarketsOf(pairings: seq<Pairing>): seq<string> {
    if pairings == [] then []
    else
      var front, last := MarketsOf(pairings[..|pairings| - 1]), pairings[|pairings| - 1];
      if Usable(last) && last.market !in front then front + [last.market] else front
  }

  /** The programs that forecast a market, in order, repeated as often as paired. */
  function ForecastsOf(pairings: seq<Pairing>, market: string): seq<string> {
    if pairings == [] then []
    else
      var last := pairings[|pairings| - 1];
      ForecastsOf(pairings[..|pairings| - 1], market) + if Usable(last) && last.market == market then [last.program]
        else []
  }

  /** Markets that already have a row; a row with an empty market id is not seen. */
  function AlreadyResolved(rows: seq<Resolution>): set<string> {
    set i | 0 <= i < |rows| && rows[i].market != "" :: rows[i].market
  }

  predicate YesOrNo(resolution: string) {
    resolution == "YES" || resolution == "NO"
  }

  // -------------------------------------------------------------------- phase A

  function Recorded(rows: seq<Resolution>, market: string, fetched: Fetched): seq<Resolution> {
    match fetched
    case ResolvedAs(r) => rows + [Resolution(market, r, YesOrNo(r))]
    case _ => rows
  }

  /** The rows after checking these markets, those in `already` excepted. */
  function AfterChecks(
      rows: seq<Resolution>, markets: seq<string>, already: set<string>, fetch: string -> Fetched): seq<Resolution> {
    if markets == [] then rows
    else
      var before, m := AfterChecks(rows, markets[..|markets| - 1], already, fetch), markets[|markets| - 1];
      if m in already then before else Recorded(before, m, fetch(m))
  }

  function AfterA(rows: seq<Resolution>, pairings: seq<Pairing>, fetch: string -> Fetched): seq<Resolution> {
    AfterChecks(rows, MarketsOf(pairings), AlreadyResolved(rows), fetch)
  }

  // -------------------------------------------------------------------- phase B

  /** latest_feed_status: the first row with the greatest time. */
  function Latest(feeds: seq<Feed>, market: string, program: string): (r: Option<Feed>)
    ensures r.Some? ==> r.value in feeds && r.value.market == market && r.value.program == program
  {
    if feeds == [] then None
    else
      var front, f := Latest(feeds[..|feeds| - 1], market, program), feeds[|feeds| - 1];
      if f.market == market && f.program == program && (front.None? || f.ts > front.value.ts) then Some(f) else front
  }

  predicate Settled(feeds: seq<Feed>, market: string, program: string) {
    var last := Latest(feeds, market, program);
    last.Some? && last.value.done
  }

  /** One feed to attempt: the market, what happened, the program. */
  datatype Task = Task(market: string, actual: bool, program: string)

  function TasksFor(market: string, actual: bool, programs: seq<string>): seq<Task> {
    if programs == [] then []
    else TasksFor(market, actual, programs[..|programs| - 1]) + [Task(market, actual, programs[|programs| - 1])]
  }

  /** The feeds phase B looks at, in order. */
  function Tasks(rows: seq<Resolution>, pairings: seq<Pairing>): seq<Task> {
    if rows == [] then []
    else
      var r := rows[|rows| - 1];
      Tasks(rows[..|rows| - 1], pairings) +
      if YesOrNo(r.resolution) && r.pending then TasksFor(r.market, r.resolution == "YES",
        ForecastsOf(pairings, r.market)) else []
  }

  /** `answers` numbers the calls by the length of the feed log before them. */
  function Attempted(feeds: seq<Feed>, t: Task, answers: nat -> Answer): seq<Feed> {
    if Settled(feeds, t.market, t.program) then feeds
    else
      var a := answers(|feeds|);
      feeds + [Feed(t.market, t.program, a.ts, a.ok, t.actual)]
  }

  function AfterTasks(feeds: seq<Feed>, tasks: seq<Task>, answers: nat -> Answer): seq<Feed> {
    if tasks == [] then feeds
    else Attempted(AfterTasks(feeds, tasks[..|tasks| - 1], answers), tasks[|tasks| - 1], answers)
  }

  function AfterB(rows: seq<Resolution>, feeds: seq<Feed>, pairings: seq<Pairing>, answers: nat -> Answer): seq<Feed> {
    AfterTasks(feeds, Tasks(rows, pairings), answers)
  }

  /** The two append-only files. */
  class Marketwatch {
    var resolutions: seq<Resolution>
    var feeds: seq<Feed>

    constructor ()
      ensures resolutions == [] && feeds == []
    {
      resolutions, feeds := [], [];
    }

    /** by_market: a dictionary in insertion order. */
    method GroupByMarket(pairings: seq<Pairing>) returns (order: seq<string>, byMarket: map<string, seq<string>>)
      ensures order == MarketsOf(pairings)
      ensures forall m :: (if m in byMarket then byMarket[m] else []) == ForecastsOf(pairings, m)
    {
      order, byMarket := [], map[];
      for k := 0 to |pairings|
        invariant order == MarketsOf(pairings[..k])
        invariant forall m :: m in byMarket <==> m in order
        invariant forall m :: (if m in byMarket then byMarket[m] else []) == ForecastsOf(pairings[..k], m)
      {
        assert pairings[..k + 1][..k] == pairings[..k];
        var p := pairings[k];
        if p.failed || p.program == "" {
          continue;
        }
        if p.market !in byMarket {
          order := order + [p.market];
          byMarket := byMarket[p.market := []];
        }
        byMarket := byMarket[p.market := byMarket[p.market] + [p.program]];
      }
      assert pairings[..|pairings|] == pairings;
    }

    method PhaseA(pairings: seq<Pairing>, fetch: string -> Fetched) returns (counts: ACounts, checked: nat)
      modifies this`resolutions
      ensures resolutions == AfterA(old(resolutions), pairings, fetch)
      ensures counts.newlyResolved == |resolutions| - |old(resolutions)|
      ensures counts.newlyResolved + counts.stillOpen + counts.deleted + counts.errors == checked
    {
      var order, byMarket := GroupByMarket(pairings);
      ghost var rows := resolutions;
      var already := AlreadyResolved(resolutions);
      counts, checked := ACounts(0, 0, 0, 0), 0;
      for k := 0 to |order|
        invariant resolutions == AfterChecks(rows, order[..k], already, fetch)
        invariant counts.newlyResolved == |resolutions| - |rows|
        invariant counts.newlyResolved + counts.stillOpen + counts.deleted + counts.errors == checked
      {
        assert order[..k + 1][..k] == order[..k];
        var market := order[k];
        if market in already {
          continue;
        }
        checked := checked + 1;
        match fetch(market) {
          case FetchError =>
            counts := counts.(errors := counts.errors + 1);
          case Gone =>
            counts := counts.(deleted := counts.deleted + 1);
          case StillOpen =>
            counts := counts.(stillOpen := counts.stillOpen + 1);
          case ResolvedAs(resolution) =>
            resolutions := resolutions + [Resolution(market, resolution, resolution == "YES" || resolution == "NO")];
            counts := counts.(newlyResolved := counts.newlyResolved + 1);
        }
      }
      assert order[..|order|] == order;
    }

    method LatestFeedStatus(market: string, program: string) returns (last: Option<Feed>)
      ensures last == Latest(feeds, market, program)
    {
      last := None;
      for k := 0 to |feeds|
        invariant last == Latest(feeds[..k], market, program)
      {
        assert feeds[..k + 1][..k] == feeds[..k];
        var f := feeds[k];
        if f.market == market && f.program == program && (last.None? || f.ts > last.value.ts) {
          last := Some(f);
        }
      }
      assert feeds[..|feeds|] == feeds;
    }

    method FeedMarket(
        market: string, actual: bool, programs: seq<string>, answers: nat -> Answer,
        before: BCounts) returns (counts: BCounts)
      modifies this`feeds
      ensures feeds == AfterTasks(old(feeds), TasksFor(market, actual, programs), answers)
      ensures counts.fed + counts.failed == before.fed + before.failed + |feeds| - |old(feeds)|
      ensures counts.fed + counts.failed + counts.skipped == before.fed + before.failed + before.skipped + |programs|
    {
      counts := before;
      ghost var start := feeds;
      for k := 0 to |programs|
        invariant feeds == AfterTasks(start, TasksFor(market, actual, programs[..k]), answers)
        invariant counts.fed + counts.failed == before.fed + before.failed + |feeds| - |start|
        invariant counts.fed + counts.failed + counts.skipped == before.fed + before.failed + before.skipped + k
      {
        assert programs[..k + 1][..k] == programs[..k];
        ghost var tasks := TasksFor(market, actual, programs[..k]);
        assert (tasks + [Task(market, actual, programs[k])])[..|tasks|] == tasks;
        var last := LatestFeedStatus(market, programs[k]);
        if last.Some? && last.value.done {
          counts := counts.(skipped := counts.skipped + 1);
          continue;
        }
        var a := answers(|feeds|);
        feeds := feeds + [Feed(market, programs[k], a.ts, a.ok, actual)];
        if a.ok {
          counts := counts.(fed := counts.fed + 1);
        } else {
          counts := counts.(failed := counts.failed + 1);
        }
      }
      assert programs[..|programs|] == programs;
    }

    method PhaseB(pairings: seq<Pairing>, answers: nat -> Answer) returns (counts: BCounts)
      modifies this`feeds
      ensures feeds == AfterB(resolutions, old(feeds), pairings, answers)
      ensures counts.fed + counts.failed == |feeds| - |old(feeds)|
    {
      var order, byMarket := GroupByMarket(pairings);
      counts := BCounts(0, 0, 0);
      ghost var start := feeds;
      for k := 0 to |resolutions|
        invariant feeds == AfterTasks(start, Tasks(resolutions[..k], pairings), answers)
        invariant counts.fed + counts.failed == |feeds| - |start|
      {
        assert resolutions[..k + 1][..k] == resolutions[..k];
        var r := resolutions[k];
        ghost var tasks := Tasks(resolutions[..k], pairings);
        if !((r.resolution == "YES" || r.resolution == "NO") && r.pending) {
          assert tasks + [] == tasks;
          continue;
        }
        var programs := if r.market in byMarket then byMarket[r.market] else [];
        ghost var more := TasksFor(r.market, r.resolution == "YES", programs);
        assert Tasks(resolutions[..k + 1], pairings) == tasks + more;
        TasksAppend(start, tasks, more, answers);
        counts := FeedMarket(r.market, r.resolution == "YES", programs, answers, counts);
      }
      assert resolutions[..|resolutions|] == resolutions;
    }
  }

  lemma {:induction false} TasksAppend(feeds: seq<Feed>, a: seq<Task>, b: seq<Task>, answers: nat -> Answer)
    ensures AfterTasks(feeds, a + b, answers) == AfterTasks(AfterTasks(feeds, a, answers), b, answers)
  {
    if b == [] {
      assert a + b == a;
    } else {
      assert (a + b)[..|a + b| - 1] == a + b[..|b| - 1];
      TasksAppend(feeds, a, b[..|b| - 1], answers);
    }
  }
}
