// When a wakeup is lost (src/activations/claudecode_loopback/storage.rs:100-140,
// 269-319 and activation.rs:245-294), with no discipline on waiters, families or
// notifiers: the step that loses it, and what one whole announcement reaches.
module LostWakeups {
  import opened Prelude
  import opened Loopback
  import opened Wakeup

  // ---------------------------------------- what every interleaving keeps anyway

  /** A queue holds waiters that wait on this notifier, each once; a stored permit
      means that nobody waits. */
  ghost predicate SaneQueue(x: World, n: int) {
    && Distinct(x.Queue(n)) && (x.Permit(n) ==> x.Queue(n) == [])
    && forall k :: 0 <= k < |x.Queue(n)| ==> WaitsOn(x, x.Queue(n)[k], n)
  }

  predicate WaitsOn(x: World, w: int, n: int) {
    w in x.waiters && x.waiters[w].stage == Waiting && x.waiters[w].notifier == n
  }

  ghost predicate Sane(x: World) {
    && x.store.Valid() && |x.told| == |x.store.approvals|
    && forall n :: 0 <= n < |x.store.notifiers| ==> SaneQueue(x, n)
  }

  lemma {:induction false} NotifySane(x: World, s: string)
    requires Sane(x)
    ensures Sane(x.(store := x.store.Notify(s)))
  {
    var x' := x.(store := x.store.Notify(s));
    forall n | 0 <= n < |x'.store.notifiers|
      ensures SaneQueue(x', n)
    {
      assert SaneQueue(x, n);
      NotifyQueue(x, s, n);
    }
  }

  /** A notification takes the first waiter out of the queue it reaches, if any. */
  lemma {:induction false} NotifyQueue(x: World, s: string, n: int)
    requires Sane(x) && 0 <= n < |x.store.notifiers|
    ensures var x' := x.(store := x.store.Notify(s));
            && x'.Queue(n) == (if Reaches(x, s, n) && x.Queue(n) != [] then x.Queue(n)[1..] else x.Queue(n))
            && x'.Permit(n) == (x.Permit(n) || (Reaches(x, s, n) && x.Queue(n) == []))
            && x'.waiters == x.waiters && |x'.store.notifiers| == |x.store.notifiers|
  {
  }

  predicate Reaches(x: World, s: string, n: int) {
    s in x.store.notifierOf && x.store.notifierOf[s] == n
  }

  lemma {:induction false} RemovedKeeps(queue: seq<int>, w: int)
    requires Distinct(queue)
    ensures Distinct(Removed(queue, w)) && |Removed(queue, w)| <= |queue|
  {
    if queue != [] {
      var rest := queue[1..];
      assert forall i, j :: 0 <= i < j < |rest| ==> rest[i] == queue[i + 1] && rest[j] == queue[j + 1];
      RemovedKeeps(rest, w);
      if queue[0] != w {
        HeadApart(queue);
        ConsDistinct(queue[0], Removed(rest, w));
      }
    }
  }

  lemma {:induction false} HeadApart(queue: seq<int>)
    requires queue != [] && Distinct(queue)
    ensures queue[0] !in queue[1..]
  {
    assert forall i :: 0 <= i < |queue[1..]| ==> queue[1..][i] == queue[i + 1];
  }

  lemma {:induction false} ConsDistinct(first: int, rest: seq<int>)
    requires Distinct(rest) && first !in rest
    ensures Distinct([first] + rest)
  {
    var all := [first] + rest;
    forall i, j | 0 <= i < j < |all|
      ensures all[i] != all[j]
    {
      if i == 0 {
        assert all[j] in rest;
      }
    }
  }

  /** Whoever acts is in no queue, unless it gives up waiting. */
  lemma {:induction false} NotQueued(x: World, w: int, n: int)
    requires Sane(x) && 0 <= n < |x.store.notifiers| && !x.Blocked(w)
    ensures w !in x.Queue(n)
  {
    assert SaneQueue(x, n);
    assert WaitsOn(x, w, n) ==> w !in x.Queue(n);
  }

  lemma {:induction false} TellSane(x: World, step: Step)
    requires Sane(x) && Enabled(x, step) && (step.TellOwn? || step.TellParent?)
    ensures Sane(Next(x, step))
  {
    var s := x.store.approvals[step.id].session;
    var mid := if step.TellOwn? then x.(store := x.store.Notify(s)) else x.(store := x.store.NotifyParent(s));
    if step.TellOwn? {
      NotifySane(x, s);
    } else if s in x.store.parents {
      NotifySane(x, x.store.parents[s]);
    }
    SameQueues(mid, Next(x, step));
  }

  /** Steps that touch neither queues nor waiters. */
  lemma {:induction false} SameQueues(x: World, x': World)
    requires Sane(x) && x'.store.Valid() && |x'.told| == |x'.store.approvals|
    requires x'.waiters == x.waiters && x'.store.notifiers == x.store.notifiers
    ensures Sane(x')
  {
    forall n | 0 <= n < |x'.store.notifiers|
      ensures SaneQueue(x', n)
    {
      assert SaneQueue(x, n);
      assert forall k :: 0 <= k < |x.Queue(n)| ==> WaitsOn(x, x.Queue(n)[k], n);
    }
  }

  lemma {:induction false} ArriveSane(x: World, w: int, s: string)
    requires Sane(x) && w !in x.waiters
    ensures Sane(Next(x, Arrive(w, s)))
  {
    var x' := Next(x, Arrive(w, s));
    forall n | 0 <= n < |x'.store.notifiers|
      ensures SaneQueue(x', n)
    {
      if n < |x.store.notifiers| {
        assert SaneQueue(x, n);
        assert forall k :: 0 <= k < |x.Queue(n)| ==> WaitsOn(x, x.Queue(n)[k], n);
      }
    }
  }

  /** A waiter that is in no queue changes its stage. */
  lemma {:induction false} StageSane(x: World, w: int, stage: Stage)
    requires Sane(x) && w in x.waiters && !x.Blocked(w)
    ensures Sane(x.At(w, stage))
  {
    var x' := x.At(w, stage);
    forall n | 0 <= n < |x'.store.notifiers|
      ensures SaneQueue(x', n)
    {
      assert SaneQueue(x, n);
      NotQueued(x, w, n);
      assert forall k :: 0 <= k < |x.Queue(n)| ==> WaitsOn(x, x.Queue(n)[k], n) && x.Queue(n)[k] in x.Queue(n);
    }
  }

  /** One notifier changes, and one waiter's stage with it. */
  lemma {:induction false} OneQueueSane(x: World, w: int, notifier: Notifier, stage: Stage)
    requires Sane(x) && w in x.waiters && 0 <= x.waiters[w].notifier < |x.store.notifiers|
    requires Distinct(notifier.queue) && (notifier.permit ==> notifier.queue == [])
    requires forall k :: 0 <= k < |notifier.queue| ==>
      if notifier.queue[k] == w then stage == Waiting else WaitsOn(x, notifier.queue[k], x.waiters[w].notifier)
    requires forall n :: 0 <= n < |x.store.notifiers| && n != x.waiters[w].notifier ==> w !in x.Queue(n)
    ensures Sane(x.WithNotifierAt(x.waiters[w].notifier, notifier).At(w, stage))
  {
    var x' := x.WithNotifierAt(x.waiters[w].notifier, notifier).At(w, stage);
    forall n | 0 <= n < |x'.store.notifiers|
      ensures SaneQueue(x', n)
    {
      if n != x.waiters[w].notifier {
        assert SaneQueue(x, n);
        assert forall k :: 0 <= k < |x.Queue(n)| ==> WaitsOn(x, x.Queue(n)[k], n) && x.Queue(n)[k] in x.Queue(n);
      }
    }
  }

  lemma {:induction false} ElsewhereNotQueued(x: World, w: int)
    requires Sane(x) && w in x.waiters
    ensures forall n :: 0 <= n < |x.store.notifiers| && n != x.waiters[w].notifier ==> w !in x.Queue(n)
  {
    forall n | 0 <= n < |x.store.notifiers| && n != x.waiters[w].notifier
      ensures w !in x.Queue(n)
    {
      assert SaneQueue(x, n);
      assert !WaitsOn(x, w, n);
    }
  }

  lemma {:induction false} BlockSane(x: World, w: int)
    requires Sane(x) && Enabled(x, Block(w))
    ensures Sane(Next(x, Block(w)))
  {
    var n := x.waiters[w].notifier;
    var notifier := x.store.notifiers[n];
    assert SaneQueue(x, n);
    NotQueued(x, w, n);
    ElsewhereNotQueued(x, w);
    assert forall k :: 0 <= k < |notifier.queue| ==> WaitsOn(x, x.Queue(n)[k], n);
    if notifier.permit {
      OneQueueSane(x, w, notifier.(permit := false), Checking);
    } else {
      assert Distinct(notifier.queue + [w]) by {
        assert forall k :: 0 <= k < |notifier.queue| ==> notifier.queue[k] in x.Queue(n);
      }
      OneQueueSane(x, w, notifier.(queue := notifier.queue + [w]), Waiting);
    }
  }

  lemma {:induction false} GiveUpSane(x: World, w: int)
    requires Sane(x) && Enabled(x, GiveUp(w))
    ensures Sane(Next(x, GiveUp(w)))
  {
    var n := x.waiters[w].notifier;
    var notifier := x.store.notifiers[n];
    assert SaneQueue(x, n);
    ElsewhereNotQueued(x, w);
    RemovedKeeps(notifier.queue, w);
    assert forall k :: 0 <= k < |notifier.queue| ==> WaitsOn(x, x.Queue(n)[k], n);
    if x.waiters[w].stage == FoundNone {
      NotQueued(x, w, n);
      LeftSane(x, w, notifier);
    } else if x.Blocked(w) {
      LeftSane(x, w, notifier.Without(w));
    } else {
      NotQueued(x, w, n);
      LeftSane(x, w, notifier.NotifyOne());
    }
  }

  lemma {:induction false} LeftSane(x: World, w: int, left: Notifier)
    requires Sane(x) && w in x.waiters && 0 <= x.waiters[w].notifier < |x.store.notifiers|
    requires Distinct(left.queue) && (left.permit ==> left.queue == []) && w !in left.queue
    requires forall v | v in left.queue :: v in x.Queue(x.waiters[w].notifier)
    ensures Sane(x.WithNotifierAt(x.waiters[w].notifier, left).At(w, Finished))
  {
    var n := x.waiters[w].notifier;
    assert SaneQueue(x, n);
    ElsewhereNotQueued(x, w);
    forall k | 0 <= k < |left.queue|
      ensures left.queue[k] != w && WaitsOn(x, left.queue[k], n)
    {
      assert left.queue[k] in left.queue;
      var j :| 0 <= j < |x.Queue(n)| && x.Queue(n)[j] == left.queue[k];
    }
    OneQueueSane(x, w, left, Finished);
  }

  lemma {:induction false} SaneKept(x: World, step: Step)
    requires Sane(x) && Enabled(x, step)
    ensures Sane(Next(x, step))
  {
    match step
    case TellOwn(_) => TellSane(x, step);
    case TellParent(_) => TellSane(x, step);
    case Arrive(w, s) => ArriveSane(x, w, s);
    case Snap(w) => StageSane(x, w, Next(x, step).waiters[w].stage);
    case Query(w) => StageSane(x, w, Next(x, step).waiters[w].stage);
    case Wake(w) => StageSane(x, w, Checking);
    case Block(w) => BlockSane(x, w);
    case GiveUp(w) => GiveUpSane(x, w);
    case _ => SameQueues(x, Next(x, step));
  }

  /** In every interleaving whatever. */
  lemma {:induction false} SaneOnEveryRun(worlds: seq<World>, steps: seq<Step>, k: nat)
    requires Interleaving(worlds, steps) && k < |worlds|
    ensures Sane(worlds[k])
  {
    if k > 0 {
      SaneOnEveryRun(worlds, steps, k - 1);
      SaneKept(worlds[k - 1], steps[k - 1]);
    }
  }

  // ------------------------------------------------- the step that loses a wakeup

  /** A notification for session `s` would wake `w`. */
  predicate Wakes(x: World, s: string, w: int) {
    && w in x.waiters && Reaches(x, s, x.waiters[w].notifier)
    && x.Queue(x.waiters[w].notifier) != [] && x.Queue(x.waiters[w].notifier)[0] == w
  }

  /** `w` sleeps and ought to see approval `i`. */
  predicate Concerned(x: World, w: int, i: int) {
    x.Blocked(w) && Visible(x, i, x.waiters[w].session)
  }

  /** The ways in which one step leaves `w` asleep with nothing on its way about
      approval `i`: an approval of a child whose parent is recorded as another; the
      last notification that was due, going to somebody ahead in the queue or to
      another notifier; a child given to another parent, or made visible, after the
      notification that would have helped; and going to sleep on an approval that
      became visible since the check. */
  predicate Loses(x: World, step: Step, w: int, i: int) {
    match step
    case Create(s, _, _) =>
      i == |x.store.approvals| && x.Blocked(w) && s in x.store.Queried(x.waiters[w].session)
      && s != x.waiters[w].session && !ParentIs(x, s, x.waiters[w].session)
    case TellOwn(j) =>
      i == j && Concerned(x, w, i) && !Wakes(x, x.store.approvals[i].session, w)
      && !ParentIs(x, x.store.approvals[i].session, x.waiters[w].session)
    case TellParent(j) =>
      i == j && Concerned(x, w, i)
      && !(x.store.approvals[i].session in x.store.parents
        && Wakes(x, x.store.parents[x.store.approvals[i].session], w))
    case NoteParent(c, p) =>
      Concerned(x, w, i) && x.store.approvals[i].session == c && InFlight(x, i, x.waiters[w].session)
      && p != x.waiters[w].session && (x.told[i] == Inserted ==> c != x.waiters[w].session)
    case NoteChild(c, p) =>
      x.Blocked(w) && p == x.waiters[w].session && !InFlight(x, i, p)
      && 0 <= i < |x.store.approvals| && x.store.approvals[i].session == c && x.store.approvals[i].status == Pending
    case Block(v) =>
      v == w && w in x.waiters && !x.Permit(x.waiters[w].notifier)
      && Visible(x, i, x.waiters[w].session) && !InFlight(x, i, x.waiters[w].session)
    case _ => false
  }

  /** A sleeper's notifier exists and holds no permit. */
  lemma {:induction false} SleeperHasNoPermit(x: World, w: int)
    requires Sane(x) && x.Blocked(w)
    ensures 0 <= x.waiters[w].notifier < |x.store.notifiers| && !x.Permit(x.waiters[w].notifier)
  {
    assert SaneQueue(x, x.waiters[w].notifier);
  }

  /** After a notification a sleeper still sleeps unless it was woken. */
  lemma {:induction false} NotifySleeper(x: World, s: string, w: int)
    requires Sane(x) && w in x.waiters
    ensures var x' := x.(store := x.store.Notify(s)); x'.Blocked(w) <==> x.Blocked(w) && !Wakes(x, s, w)
  {
    var n := x.waiters[w].notifier;
    if 0 <= n < |x.store.notifiers| {
      NotifyQueue(x, s, n);
      assert SaneQueue(x, n);
      var queue := x.Queue(n);
      if queue != [] {
        HeadApart(queue);
        assert queue == [queue[0]] + queue[1..];
      }
    }
  }

  lemma {:induction false} TellLoses(x: World, step: Step, w: int, i: int)
    requires Sane(x) && Enabled(x, step) && (step.TellOwn? || step.TellParent?) && !Stuck(x, w, i)
    ensures Stuck(Next(x, step), w, i) <==> Loses(x, step, w, i)
  {
    var x' := Next(x, step);
    SaneKept(x, step);
    if x.Blocked(w) {
      SleeperHasNoPermit(x, w);
    }
    if x'.Blocked(w) {
      SleeperHasNoPermit(x', w);
    }
    var from := x.store.approvals[step.id].session;
    if w in x.waiters {
      if step.TellOwn? {
        NotifySleeper(x, from, w);
      } else if from in x.store.parents {
        NotifySleeper(x, x.store.parents[from], w);
      }
    }
  }

  lemma {:induction false} FamilyLoses(x: World, step: Step, w: int, i: int)
    requires Sane(x) && Enabled(x, step) && (step.NoteParent? || step.NoteChild?) && !Stuck(x, w, i)
    ensures Stuck(Next(x, step), w, i) <==> Loses(x, step, w, i)
  {
    if x.Blocked(w) {
      SleeperHasNoPermit(x, w);
      var s := x.waiters[w].session;
      if step.NoteChild? && step.parent == s {
        assert Next(x, step).store.Queried(s) == x.store.Queried(s) + [step.child];
      }
    }
  }

  lemma {:induction false} BlockLoses(x: World, v: int, w: int, i: int)
    requires Sane(x) && Enabled(x, Block(v)) && !Stuck(x, w, i)
    ensures Stuck(Next(x, Block(v)), w, i) <==> Loses(x, Block(v), w, i)
  {
    if v == w {
      BlockSleeps(x, w);
    } else {
      BlockSpares(x, v, w);
    }
  }

  lemma {:induction false} BlockSleeps(x: World, w: int)
    requires Sane(x) && Enabled(x, Block(w))
    ensures var x' := Next(x, Block(w));
            && (x'.Blocked(w) <==> !x.Permit(x.waiters[w].notifier))
            && (x'.Blocked(w) ==> x'.waiters[w] == x.waiters[w].(stage := Waiting) && !x'.Permit(x.waiters[w].notifier))
  {
  }

  lemma {:induction false} BlockSpares(x: World, v: int, w: int)
    requires Sane(x) && Enabled(x, Block(v)) && v != w
    ensures Next(x, Block(v)).Blocked(w) ==>
              && x.Blocked(w) && Next(x, Block(v)).waiters[w] == x.waiters[w]
              && !x.Permit(x.waiters[w].notifier)
  {
    if Next(x, Block(v)).Blocked(w) {
      assert x.Blocked(w);
      SleeperHasNoPermit(x, w);
    }
  }

  lemma {:induction false} GiveUpLoses(x: World, v: int, w: int, i: int)
    requires Sane(x) && Enabled(x, GiveUp(v)) && !Stuck(x, w, i)
    ensures !Stuck(Next(x, GiveUp(v)), w, i)
  {
    if x.Blocked(w) {
      SleeperHasNoPermit(x, w);
    }
  }

  /** Exactly when one step, of any interleaving, loses a wakeup. */
  lemma {:induction false} LosesExactly(x: World, step: Step, w: int, i: int)
    requires Sane(x) && Enabled(x, step) && !Stuck(x, w, i)
    ensures Stuck(Next(x, step), w, i) <==> Loses(x, step, w, i)
  {
    if x.Blocked(w) {
      SleeperHasNoPermit(x, w);
    }
    match step
    case TellOwn(_) => TellLoses(x, step, w, i);
    case TellParent(_) => TellLoses(x, step, w, i);
    case NoteParent(_, _) => FamilyLoses(x, step, w, i);
    case NoteChild(_, _) => FamilyLoses(x, step, w, i);
    case Block(v) => BlockLoses(x, v, w, i);
    case GiveUp(v) => GiveUpLoses(x, v, w, i);
    case _ =>
  }

  /** In every interleaving, whoever is stuck has been so ever since the step that
      lost its wakeup. */
  lemma {:induction false} StuckSinceLoss(worlds: seq<World>, steps: seq<Step>, k: nat, w: int, i: int) returns (j: nat)
    requires Interleaving(worlds, steps) && k < |worlds| && Stuck(worlds[k], w, i)
    ensures j < k && Loses(worlds[j], steps[j], w, i) && forall m :: j < m <= k ==> Stuck(worlds[m], w, i)
  {
    assert k > 0;
    SaneOnEveryRun(worlds, steps, k - 1);
    if Stuck(worlds[k - 1], w, i) {
      j := StuckSinceLoss(worlds, steps, k - 1, w, i);
    } else {
      LosesExactly(worlds[k - 1], steps[k - 1], w, i);
      j := k - 1;
    }
  }

  // --------------------------------------------------- one whole announcement

  function Place(queue: seq<int>, w: int): (p: nat)
    requires w in queue
    ensures p < |queue| && queue[p] == w
  {
    if queue[0] == w then 0 else 1 + Place(queue[1..], w)
  }

  /** How often the announcement of an approval of `s` reaches this notifier: as the
      session's own, and as its parent's. */
  function Hits(x: World, s: string, n: int): nat {
    (if Reaches(x, s, n) then 1 else 0)
    + if s in x.store.parents && Reaches(x, x.store.parents[s], n) then 1 else 0
  }

  /** An approval is created and its creator finishes, without a pause. */
  function Announced(x: World, s: string, toolName: string, toolUseId: string): World
    requires Sane(x)
  {
    var i := |x.store.approvals|;
    var created := Next(x, Create(s, toolName, toolUseId));
    SaneKept(x, Create(s, toolName, toolUseId));
    SaneKept(created, TellOwn(i));
    Next(Next(created, TellOwn(i)), TellParent(i))
  }

  lemma {:induction false} NotifyMovesUp(x: World, s: string, w: int)
    requires Sane(x) && x.Blocked(w)
    ensures var x', n := x.(store := x.store.Notify(s)), x.waiters[w].notifier;
            var h := if Reaches(x, s, n) then 1 else 0;
            && (x'.Blocked(w) <==> Place(x.Queue(n), w) >= h)
            && (x'.Blocked(w) ==> Place(x'.Queue(n), w) == Place(x.Queue(n), w) - h)
  {
    NotifyQueue(x, s, x.waiters[w].notifier);
    NotifySleeper(x, s, w);
  }

  /** What an announcement leaves as it was, and the row it adds. */
  lemma {:induction false} AnnouncedRow(x: World, s: string, toolName: string, toolUseId: string)
    requires Sane(x)
    ensures var y := Announced(x, s, toolName, toolUseId);
            && Sane(y) && y.waiters == x.waiters && y.store.children == x.store.children
            && y.store.approvals == x.store.approvals + [Approval(s, toolName, toolUseId, Pending, None)]
            && y.told == x.told + [AllTold]
  {
    var i := |x.store.approvals|;
    var created := Next(x, Create(s, toolName, toolUseId));
    SaneKept(x, Create(s, toolName, toolUseId));
    SaneKept(created, TellOwn(i));
    SaneKept(Next(created, TellOwn(i)), TellParent(i));
  }

  /** It reaches the sleeper's notifier once for the session and once for its parent. */
  lemma {:induction false} AnnouncedQueue(x: World, s: string, toolName: string, toolUseId: string, w: int)
    requires Sane(x) && x.Blocked(w)
    ensures Announced(x, s, toolName, toolUseId).Blocked(w)
            <==> Place(x.Queue(x.waiters[w].notifier), w) >= Hits(x, s, x.waiters[w].notifier)
  {
    var i, n := |x.store.approvals|, x.waiters[w].notifier;
    var created := Next(x, Create(s, toolName, toolUseId));
    SaneKept(x, Create(s, toolName, toolUseId));
    assert created.Blocked(w) && created.Queue(n) == x.Queue(n);
    NotifyMovesUp(created, s, w);
    var told := Next(created, TellOwn(i));
    SaneKept(created, TellOwn(i));
    ParentMovesUp(told, s, i, w);
  }

  lemma {:induction false} ParentMovesUp(x: World, s: string, i: int, w: int)
    requires Sane(x) && Enabled(x, TellParent(i)) && x.store.approvals[i].session == s && w in x.waiters
    ensures var y, n := Next(x, TellParent(i)), x.waiters[w].notifier;
            y.Blocked(w) <==>
              && x.Blocked(w)
              && (s in x.store.parents && Reaches(x, x.store.parents[s], n) ==> Place(x.Queue(n), w) >= 1)
  {
    if s in x.store.parents {
      NotifySleeper(x, x.store.parents[s], w);
      if x.Blocked(w) {
        NotifyMovesUp(x, x.store.parents[s], w);
      }
    }
  }

  /** With any waiters, families and notifiers: a sleeping waiter stays stuck on an
      approval that is created and announced in full exactly when it asked for that
      session and stands too far back in its notifier's queue, behind as many
      others as the announcement wakes there. */
  lemma {:induction false} AnnouncementLosesExactly(x: World, s: string, toolName: string, toolUseId: string, w: int)
    requires Sane(x) && x.Blocked(w)
    ensures var n := x.waiters[w].notifier;
            Stuck(Announced(x, s, toolName, toolUseId), w, |x.store.approvals|)
            <==> s in x.store.Queried(x.waiters[w].session) && Place(x.Queue(n), w) >= Hits(x, s, n)
  {
    AnnouncedRow(x, s, toolName, toolUseId);
    AnnouncedQueue(x, s, toolName, toolUseId, w);
    var y := Announced(x, s, toolName, toolUseId);
    if y.Blocked(w) {
      SleeperHasNoPermit(y, w);
    }
  }
}
