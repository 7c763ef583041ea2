// No wakeup is lost (src/activations/claudecode_loopback/storage.rs:100-140,
// 197-239, 269-312 and activation.rs:245-294): creators of approvals and waiters
// for them, interleaved action by action.
module Wakeup {
  import opened Prelude
  import opened Loopback

  /** How far the creator of an approval has come: inserted, own session told,
      parent told. */
  datatype Told = Inserted | OwnTold | AllTold

  /** Where a waiter is in its loop: about to check, the list of sessions to query
      taken, the query found nothing, waiting on the notifier, returned. */
  datatype Stage = Checking | Snapped(sessions: seq<string>) | FoundNone | Waiting | Finished

  datatype Waiter = Waiter(session: string, notifier: int, stage: Stage)

  /** `told[i]` belongs to the creator of approval `i`. */
  datatype World = World(store: Store, told: seq<Told>, waiters: map<int, Waiter>)
  {
    function Queue(n: int): seq<int> {
      if 0 <= n < |store.notifiers| then store.notifiers[n].queue else []
    }

    predicate Permit(n: int) {
      0 <= n < |store.notifiers| && store.notifiers[n].permit
    }

    predicate Active(w: int) {
      w in waiters && waiters[w].stage != Finished
    }

    /** Suspended in `notified()`: not woken, not timed out. */
    predicate Blocked(w: int) {
      w in waiters && waiters[w].stage == Waiting && w in Queue(waiters[w].notifier)
    }

    function At(w: int, stage: Stage): World
      requires w in waiters
    {
      this.(waiters := waiters[w := waiters[w].(stage := stage)])
    }

    function WithNotifierAt(n: int, x: Notifier): World
      requires 0 <= n < |store.notifiers|
    {
      this.(store := store.(notifiers := store.notifiers[n := x]))
    }
  }

  datatype Step =
    | Create(session: string, toolName: string, toolUseId: string)
    | TellOwn(id: int)
    | TellParent(id: int)
    | Decide(id: int, approve: bool, message: Option<string>)
    | NoteParent(child: string, parent: string)
    | NoteChild(child: string, parent: string)
    | Arrive(w: int, session: string)
    | Snap(w: int)
    | Query(w: int)
    | Block(w: int)
    | Wake(w: int)
    | GiveUp(w: int)
    | DropNotifier(session: string)

  predicate Enabled(x: World, step: Step) {
    match step
    case TellOwn(i) => 0 <= i < |x.told| && i < |x.store.approvals| && x.told[i] == Inserted
    case TellParent(i) => 0 <= i < |x.told| && i < |x.store.approvals| && x.told[i] == OwnTold
    case Arrive(w, _) => w !in x.waiters
    case Snap(w) => w in x.waiters && x.waiters[w].stage == Checking
    case Query(w) => w in x.waiters && x.waiters[w].stage.Snapped?
    case Block(w) => w in x.waiters && x.waiters[w].stage == FoundNone
      && 0 <= x.waiters[w].notifier < |x.store.notifiers|
    case Wake(w) => w in x.waiters && x.waiters[w].stage == Waiting && !x.Blocked(w)
    case GiveUp(w) =>
      w in x.waiters && 0 <= x.waiters[w].notifier < |x.store.notifiers|
      && (x.waiters[w].stage == FoundNone || x.waiters[w].stage == Waiting)
    case _ => true
  }

  /** One atomic action. */
  function Next(x: World, step: Step): World
    requires x.store.Valid() && Enabled(x, step)
  {
    match step
    case Create(s, n, u) => x.(store := x.store.Insert(Approval(s, n, u, Pending, None)), told := x.told + [Inserted])
    case TellOwn(i) => x.(store := x.store.Notify(x.store.approvals[i].session), told := x.told[i := OwnTold])
    case TellParent(i) => x.(store := x.store.NotifyParent(x.store.approvals[i].session), told := x.told[i := AllTold])
    case Decide(i, approve, m) => x.(store := x.store.Resolve(i, approve, m))
    case NoteParent(c, p) => x.(store := x.store.WithParent(c, p))
    case NoteChild(c, p) => x.(store := x.store.WithChild(c, p))
    case Arrive(w, s) =>
      var store := x.store.WithNotifier(s);
      x.(store := store, waiters := x.waiters[w := Waiter(s, store.notifierOf[s], Checking)])
    case Snap(w) => x.At(w, Snapped(x.store.Queried(x.waiters[w].session)))
    case Query(w) =>
      x.At(w, if PendingAmong(x.store.approvals, x.waiters[w].stage.sessions) == [] then FoundNone else Finished)
    case Block(w) =>
      var n := x.waiters[w].notifier;
      var notifier := x.store.notifiers[n];
      if notifier.permit then x.WithNotifierAt(n, notifier.(permit := false)).At(w, Checking)
      else x.WithNotifierAt(n, notifier.(queue := notifier.queue + [w])).At(w, Waiting)
    case Wake(w) => x.At(w, Checking)
    case GiveUp(w) =>
      // A waiter that was woken and times out all the same passes the wakeup on.
      var n := x.waiters[w].notifier;
      var notifier := x.store.notifiers[n];
      var left := if x.waiters[w].stage == FoundNone then notifier
                  else if x.Blocked(w) then notifier.Without(w) else notifier.NotifyOne();
      x.WithNotifierAt(n, left).At(w, Finished)
    case DropNotifier(s) => x.(store := x.store.WithoutNotifier(s))
  }

  predicate NoWaiterOn(x: World, session: string) {
    forall w | w in x.waiters :: x.Active(w) ==> x.waiters[w].session != session
  }

  predicate NoApprovalOf(x: World, session: string) {
    forall i :: 0 <= i < |x.store.approvals| ==> x.store.approvals[i].session != session
  }

  /** How the protocol is used: one waiter per session at a time, a child is
      registered once and before its first approval, and no notifier is removed
      under a waiter. */
  predicate Disciplined(x: World, step: Step) {
    match step
    case Arrive(_, s) => NoWaiterOn(x, s)
    case NoteParent(c, _) => c !in x.store.parents && NoApprovalOf(x, c)
    case NoteChild(c, p) => c in x.store.parents && x.store.parents[c] == p && NoApprovalOf(x, c)
    case DropNotifier(s) => NoWaiterOn(x, s)
    case _ => true
  }

  predicate ParentIs(x: World, child: string, parent: string) {
    child in x.store.parents && x.store.parents[child] == parent
  }

  /** The creator of approval `i` has yet to notify session `s`. */
  predicate InFlight(x: World, i: int, s: string) {
    0 <= i < |x.told| && i < |x.store.approvals| &&
    var from := x.store.approvals[i].session;
    (x.told[i] == Inserted && (from == s || ParentIs(x, from, s))) || (x.told[i] == OwnTold && ParentIs(x, from, s))
  }

  /** Approval `i` is pending in the session or in one of its registered children. */
  predicate Visible(x: World, i: int, s: string) {
    0 <= i < |x.store.approvals| && x.store.approvals[i].status == Pending
      && x.store.approvals[i].session in x.store.Queried(s)
  }

  /** Waiter `w` is past the point where it would have found approval `i`. */
  predicate Missed(x: World, w: int, i: int) {
    w in x.waiters && Visible(x, i, x.waiters[w].session) &&
    match x.waiters[w].stage
    case Snapped(sessions) => x.store.approvals[i].session !in sessions
    case FoundNone => true
    case Waiting => x.Blocked(w)
    case _ => false
  }

  /** A waiter that has missed an approval has a permit waiting for it, or a
      notification on its way. */
  predicate Covered(x: World, w: int, i: int) {
    Missed(x, w, i) ==> x.Permit(x.waiters[w].notifier) || InFlight(x, i, x.waiters[w].session)
  }

  predicate OwnNotifier(x: World, w: int) {
    x.Active(w) ==>
      x.waiters[w].session in x.store.notifierOf && x.store.notifierOf[x.waiters[w].session] == x.waiters[w].notifier
  }

  predicate OneWaiter(x: World, v: int, w: int) {
    x.Active(v) && x.Active(w) && x.waiters[v].session == x.waiters[w].session ==> v == w
  }

  /** At most one waiter is queued, and then no permit is stored. */
  predicate QueueSound(x: World, n: int) {
    x.Queue(n) == [] ||
    (|x.Queue(n)| == 1 && !x.Permit(n) &&
     var w := x.Queue(n)[0];
     w in x.waiters && x.waiters[w].stage == Waiting && x.waiters[w].notifier == n)
  }

  predicate FamilySound(parents: map<string, string>, children: seq<string>, parent: string) {
    forall k :: 0 <= k < |children| ==> children[k] in parents && parents[children[k]] == parent
  }

  ghost predicate Shape(x: World) {
    && x.store.Valid() && |x.told| == |x.store.approvals|
    && (forall w | w in x.waiters :: OwnNotifier(x, w))
    && (forall v, w | v in x.waiters && w in x.waiters :: OneWaiter(x, v, w))
    && (forall n :: 0 <= n < |x.store.notifiers| ==> QueueSound(x, n))
    && (forall p | p in x.store.children :: FamilySound(x.store.parents, x.store.children[p], p))
  }

  ghost predicate Inv(x: World) {
    Shape(x) && forall w, i | w in x.waiters && 0 <= i < |x.store.approvals| :: Covered(x, w, i)
  }

  const EMPTY := World(Store([], map[], [], map[], map[]), [], map[])

  /** Any interleaving of the actions, whoever takes them. */
  ghost predicate Interleaving(worlds: seq<World>, steps: seq<Step>) {
    && |worlds| == |steps| + 1 && worlds[0] == EMPTY
    && forall k :: 0 <= k < |steps| ==>
         worlds[k].store.Valid() && Enabled(worlds[k], steps[k]) && worlds[k + 1] == Next(worlds[k], steps[k])
  }

  ghost predicate AllDisciplined(worlds: seq<World>, steps: seq<Step>) {
    |worlds| == |steps| + 1 && forall k :: 0 <= k < |steps| ==> Disciplined(worlds[k], steps[k])
  }

  /** A waiter sleeps while an approval it asked for is pending, with no permit
      stored and no notification on its way. */
  predicate Stuck(x: World, w: int, i: int) {
    && x.Blocked(w) && Visible(x, i, x.waiters[w].session)
    && !x.Permit(x.waiters[w].notifier) && !InFlight(x, i, x.waiters[w].session)
  }

  // ------------------------------------------------------- the shape is kept

  /** Telling a session wakes its one queued waiter, or leaves a permit. */
  lemma {:induction false} NotifyShape(x: World, s: string)
    requires Shape(x)
    ensures Shape(x.(store := x.store.Notify(s)))
  {
    var x' := x.(store := x.store.Notify(s));
    forall n | 0 <= n < |x'.store.notifiers|
      ensures QueueSound(x', n)
    {
      assert QueueSound(x, n);
    }
    OthersKept(x, x');
  }

  /** Waiters that an action does not touch. */
  lemma {:induction false} OthersKept(x: World, x': World)
    requires Shape(x)
    requires x'.waiters == x.waiters && x'.store.notifierOf == x.store.notifierOf
    ensures forall w | w in x'.waiters :: OwnNotifier(x', w)
    ensures forall v, w | v in x'.waiters && w in x'.waiters :: OneWaiter(x', v, w)
  {
    forall w | w in x'.waiters ensures OwnNotifier(x', w) { assert OwnNotifier(x, w); }
    forall v, w | v in x'.waiters && w in x'.waiters ensures OneWaiter(x', v, w) { assert OneWaiter(x, v, w); }
  }

  lemma {:induction false} CreatorShape(x: World, step: Step)
    requires Shape(x) && Enabled(x, step) && (step.Create? || step.Decide?)
    ensures Shape(Next(x, step))
  {
    var x' := Next(x, step);
    forall n | 0 <= n < |x'.store.notifiers| ensures QueueSound(x', n) { assert QueueSound(x, n); }
    OthersKept(x, x');
  }

  lemma {:induction false} TellShape(x: World, step: Step)
    requires Shape(x) && Enabled(x, step) && (step.TellOwn? || step.TellParent?)
    ensures Shape(Next(x, step))
  {
    var s := x.store.approvals[step.id].session;
    var mid := if step.TellOwn? then x.(store := x.store.Notify(s)) else x.(store := x.store.NotifyParent(s));
    if step.TellOwn? {
      NotifyShape(x, s);
    } else if s in x.store.parents {
      NotifyShape(x, x.store.parents[s]);
    }
    assert Shape(mid);
    var x' := Next(x, step);
    forall n | 0 <= n < |x'.store.notifiers| ensures QueueSound(x', n) { assert QueueSound(mid, n); }
    OthersKept(mid, x');
  }

  lemma {:induction false} FamilyShape(x: World, step: Step)
    requires Shape(x) && Enabled(x, step) && Disciplined(x, step) && (step.NoteParent? || step.NoteChild?)
    ensures Shape(Next(x, step))
  {
    var x' := Next(x, step);
    forall n | 0 <= n < |x'.store.notifiers| ensures QueueSound(x', n) { assert QueueSound(x, n); }
    forall w | w in x'.waiters ensures OwnNotifier(x', w) { assert OwnNotifier(x, w); }
    forall v, w | v in x'.waiters && w in x'.waiters ensures OneWaiter(x', v, w) { assert OneWaiter(x, v, w); }
    if step.NoteChild? {
      var p := step.parent;
      assert FamilySound(x'.store.parents, x'.store.children[p], p);
    }
  }

  lemma {:induction false} NotifierShape(x: World, step: Step)
    requires Shape(x) && Enabled(x, step) && Disciplined(x, step) && (step.Arrive? || step.DropNotifier?)
    ensures Shape(Next(x, step))
  {
    var x' := Next(x, step);
    forall n | 0 <= n < |x'.store.notifiers|
      ensures QueueSound(x', n)
    {
      if n < |x.store.notifiers| {
        assert QueueSound(x, n);
      }
    }
    forall w | w in x'.waiters
      ensures OwnNotifier(x', w)
    {
      if w in x.waiters {
        assert OwnNotifier(x, w);
      }
    }
    forall v, w | v in x'.waiters && w in x'.waiters
      ensures OneWaiter(x', v, w)
    {
      if v in x.waiters && w in x.waiters {
        assert OneWaiter(x, v, w);
      }
    }
  }

  /** Nobody else queues where an active waiter has its notifier. */
  lemma {:induction false} OwnQueue(x: World, w: int)
    requires Shape(x) && x.Active(w)
    ensures 0 <= x.waiters[w].notifier < |x.store.notifiers|
    ensures x.Queue(x.waiters[w].notifier) == if x.Blocked(w) then [w] else []
  {
    assert OwnNotifier(x, w);
    var n := x.waiters[w].notifier;
    assert QueueSound(x, n);
    if x.Queue(n) != [] {
      var v := x.Queue(n)[0];
      assert OwnNotifier(x, v);
      assert OneWaiter(x, v, w);
    }
  }

  /** Everything but the notifiers, when one waiter moves on. */
  lemma {:induction false} MoveKept(x: World, x': World, w: int, stage: Stage)
    requires Shape(x) && x.Active(w)
    requires x'.waiters == x.waiters[w := x.waiters[w].(stage := stage)]
    requires x'.store == x.store.(notifiers := x'.store.notifiers)
    ensures forall v | v in x'.waiters :: OwnNotifier(x', v)
    ensures forall u, v | u in x'.waiters && v in x'.waiters :: OneWaiter(x', u, v)
  {
    forall v | v in x'.waiters ensures OwnNotifier(x', v) { assert OwnNotifier(x, v); }
    forall u, v | u in x'.waiters && v in x'.waiters ensures OneWaiter(x', u, v) { assert OneWaiter(x, u, v); }
  }

  lemma {:induction false} StageShape(x: World, step: Step, w: int)
    requires Shape(x) && Enabled(x, step) && (step == Snap(w) || step == Query(w) || step == Wake(w))
    ensures Shape(Next(x, step))
  {
    var x' := Next(x, step);
    MoveKept(x, x', w, x'.waiters[w].stage);
    forall n | 0 <= n < |x'.store.notifiers|
      ensures QueueSound(x', n)
    {
      assert QueueSound(x, n);
    }
  }

  lemma {:induction false} BlockShape(x: World, w: int)
    requires Shape(x) && Enabled(x, Block(w))
    ensures Shape(Next(x, Block(w)))
  {
    var x' := Next(x, Block(w));
    OwnQueue(x, w);
    MoveKept(x, x', w, x'.waiters[w].stage);
    forall n | 0 <= n < |x'.store.notifiers|
      ensures QueueSound(x', n)
    {
      assert QueueSound(x, n);
    }
  }

  lemma {:induction false} GiveUpShape(x: World, w: int)
    requires Shape(x) && Enabled(x, GiveUp(w))
    ensures Shape(Next(x, GiveUp(w)))
  {
    var x' := Next(x, GiveUp(w));
    var n := x.waiters[w].notifier;
    OwnQueue(x, w);
    assert QueueSound(x, n);
    assert x'.Queue(n) == [] by {
      if x.Blocked(w) {
        assert [w][1..] == [];
        assert Removed([w], w) == Removed([], w) == [];
      }
    }
    MoveKept(x, x', w, Finished);
    forall m | 0 <= m < |x'.store.notifiers|
      ensures QueueSound(x', m)
    {
      assert QueueSound(x, m);
    }
  }

  lemma {:induction false} ShapeKept(x: World, step: Step)
    requires Shape(x) && Enabled(x, step) && Disciplined(x, step)
    ensures Shape(Next(x, step))
  {
    match step
    case Create(_, _, _) => CreatorShape(x, step);
    case Decide(_, _, _) => CreatorShape(x, step);
    case TellOwn(_) => TellShape(x, step);
    case TellParent(_) => TellShape(x, step);
    case NoteParent(_, _) => FamilyShape(x, step);
    case NoteChild(_, _) => FamilyShape(x, step);
    case Arrive(_, _) => NotifierShape(x, step);
    case DropNotifier(_) => NotifierShape(x, step);
    case Snap(w) => StageShape(x, step, w);
    case Query(w) => StageShape(x, step, w);
    case Wake(w) => StageShape(x, step, w);
    case Block(w) => BlockShape(x, w);
    case GiveUp(w) => GiveUpShape(x, w);
  }

  // ------------------------------------------------- nobody misses an approval

  /** A new approval is in flight to its session and to its parent. */
  lemma {:induction false} CreateCovers(x: World, step: Step, w: int, i: int)
    requires Inv(x) && step.Create? && w in x.waiters && 0 <= i <= |x.store.approvals|
    ensures Covered(Next(x, step), w, i)
  {
    var x' := Next(x, step);
    var s := x.waiters[w].session;
    if i < |x.store.approvals| {
      assert Covered(x, w, i);
    } else if step.session in x.store.Queried(s) && step.session != s {
      var k :| 0 <= k < |x.store.ChildrenOf(s)| && x.store.ChildrenOf(s)[k] == step.session;
      assert FamilySound(x.store.parents, x.store.children[s], s);
    }
  }

  lemma {:induction false} DecideCovers(x: World, step: Step, w: int, i: int)
    requires Inv(x) && step.Decide? && w in x.waiters && 0 <= i < |x.store.approvals|
    ensures Covered(Next(x, step), w, i)
  {
    assert Covered(x, w, i);
  }

  /** Telling a session: its waiter is woken or has a permit. */
  lemma {:induction false} NotifyCovers(x: World, s: string, w: int)
    requires Shape(x) && x.Active(w)
    ensures var x' := x.(store := x.store.Notify(s));
            && (x.waiters[w].session == s ==> x'.Permit(x.waiters[w].notifier) || (x.Blocked(w) && !x'.Blocked(w)))
            && (x.Permit(x.waiters[w].notifier) ==> x'.Permit(x.waiters[w].notifier))
            && (x'.Blocked(w) ==> x.Blocked(w))
  {
    OwnQueue(x, w);
    assert OwnNotifier(x, w);
    if s in x.store.notifierOf {
      assert QueueSound(x, x.store.notifierOf[s]);
    }
  }

  lemma {:induction false} TellOwnCovers(x: World, id: int, w: int, i: int)
    requires Inv(x) && Enabled(x, TellOwn(id)) && w in x.waiters && 0 <= i < |x.store.approvals|
    ensures Covered(Next(x, TellOwn(id)), w, i)
  {
    assert Covered(x, w, i);
    if x.Active(w) {
      NotifyCovers(x, x.store.approvals[id].session, w);
    }
  }

  lemma {:induction false} TellParentCovers(x: World, id: int, w: int, i: int)
    requires Inv(x) && Enabled(x, TellParent(id)) && w in x.waiters && 0 <= i < |x.store.approvals|
    ensures Covered(Next(x, TellParent(id)), w, i)
  {
    assert Covered(x, w, i);
    var s := x.store.approvals[id].session;
    if x.Active(w) && s in x.store.parents {
      NotifyCovers(x, x.store.parents[s], w);
    }
  }

  lemma {:induction false} FamilyCovers(x: World, step: Step, w: int, i: int)
    requires Inv(x) && Disciplined(x, step) && (step.NoteParent? || step.NoteChild?) && w in x.waiters
      && 0 <= i < |x.store.approvals|
    ensures Covered(Next(x, step), w, i)
  {
    assert Covered(x, w, i);
    assert x.store.approvals[i].session != step.child;
  }

  lemma {:induction false} NotifierCovers(x: World, step: Step, w: int, i: int)
    requires Inv(x) && Enabled(x, step) && (step.Arrive? || step.DropNotifier?) && 0 <= i < |x.store.approvals|
    requires w in Next(x, step).waiters
    ensures Covered(Next(x, step), w, i)
  {
    if w in x.waiters {
      assert Covered(x, w, i);
      assert OwnNotifier(x, w);
    }
  }

  /** What a query of the sessions taken down finds is found. */
  lemma {:induction false} StageCovers(x: World, step: Step, v: int, w: int, i: int)
    requires Inv(x) && Enabled(x, step) && (step == Snap(v) || step == Query(v) || step == Wake(v))
    requires w in x.waiters && 0 <= i < |x.store.approvals|
    ensures Covered(Next(x, step), w, i)
  {
    assert Covered(x, w, i);
    if w == v && step == Query(v) {
      var sessions := x.waiters[w].stage.sessions;
      assert i in PendingAmong(x.store.approvals, sessions) <==>
        x.store.approvals[i].status == Pending && x.store.approvals[i].session in sessions;
    }
  }

  /** Two waiters never share a notifier. */
  lemma {:induction false} Apart(x: World, v: int, w: int)
    requires Shape(x) && x.Active(v) && x.Active(w) && v != w
    ensures x.waiters[v].notifier != x.waiters[w].notifier
  {
    assert OwnNotifier(x, v) && OwnNotifier(x, w) && OneWaiter(x, v, w);
  }

  lemma {:induction false} BlockCovers(x: World, v: int, w: int, i: int)
    requires Inv(x) && Enabled(x, Block(v)) && w in x.waiters && 0 <= i < |x.store.approvals|
    ensures Covered(Next(x, Block(v)), w, i)
  {
    assert Covered(x, w, i);
    if w != v && x.Active(w) {
      Apart(x, v, w);
    }
  }

  lemma {:induction false} GiveUpCovers(x: World, v: int, w: int, i: int)
    requires Inv(x) && Enabled(x, GiveUp(v)) && w in x.waiters && 0 <= i < |x.store.approvals|
    ensures Covered(Next(x, GiveUp(v)), w, i)
  {
    assert Covered(x, w, i);
    if w != v && x.Active(w) {
      Apart(x, v, w);
    }
  }

  lemma {:induction false} CoveredKept(x: World, step: Step, w: int, i: int)
    requires Inv(x) && Enabled(x, step) && Disciplined(x, step)
    requires w in Next(x, step).waiters && 0 <= i < |Next(x, step).store.approvals|
    ensures Covered(Next(x, step), w, i)
  {
    match step
    case Create(_, _, _) => CreateCovers(x, step, w, i);
    case Decide(_, _, _) => DecideCovers(x, step, w, i);
    case TellOwn(id) => TellOwnCovers(x, id, w, i);
    case TellParent(id) => TellParentCovers(x, id, w, i);
    case NoteParent(_, _) => FamilyCovers(x, step, w, i);
    case NoteChild(_, _) => FamilyCovers(x, step, w, i);
    case Arrive(_, _) => NotifierCovers(x, step, w, i);
    case DropNotifier(_) => NotifierCovers(x, step, w, i);
    case Snap(v) => StageCovers(x, step, v, w, i);
    case Query(v) => StageCovers(x, step, v, w, i);
    case Wake(v) => StageCovers(x, step, v, w, i);
    case Block(v) => BlockCovers(x, v, w, i);
    case GiveUp(v) => GiveUpCovers(x, v, w, i);
  }

  lemma {:induction false} RunInv(worlds: seq<World>, steps: seq<Step>, k: nat)
    requires Interleaving(worlds, steps) && AllDisciplined(worlds, steps) && k < |worlds|
    ensures Inv(worlds[k])
  {
    if k > 0 {
      RunInv(worlds, steps, k - 1);
      var x, step := worlds[k - 1], steps[k - 1];
      ShapeKept(x, step);
      forall w, i | w in worlds[k].waiters && 0 <= i < |worlds[k].store.approvals|
        ensures Covered(worlds[k], w, i)
      {
        CoveredKept(x, step, w, i);
      }
    }
  }

  /** In every interleaving of creators, waiters, deciders and registrations that
      keeps to the discipline, no wakeup is ever lost. */
  lemma {:induction false} NoLostWakeup(worlds: seq<World>, steps: seq<Step>, k: nat, w: int, i: int)
    requires Interleaving(worlds, steps) && AllDisciplined(worlds, steps) && k < |worlds|
    ensures !Stuck(worlds[k], w, i)
  {
    RunInv(worlds, steps, k);
    var x := worlds[k];
    if w in x.waiters && 0 <= i < |x.store.approvals| {
      assert Covered(x, w, i);
    }
  }

  /** What creator `i` has left to do, done without a pause. */
  function Delivered(x: World, i: int): World
    requires Shape(x) && 0 <= i < |x.told|
  {
    if x.told[i] == Inserted then
      TellShape(x, TellOwn(i));
      Next(Next(x, TellOwn(i)), TellParent(i))
    else if x.told[i] == OwnTold then Next(x, TellParent(i))
    else x
  }

  /** A waiter that sleeps while something is pending for it is awake once the
      creator has finished, and its next look finds the approval. */
  lemma {:induction false} DeliveryWakes(x: World, w: int, i: int)
    requires Inv(x) && x.Blocked(w) && Visible(x, i, x.waiters[w].session)
    ensures var y := Delivered(x, i);
            && y.store.Valid() && w in y.waiters && y.waiters[w] == x.waiters[w]
            && !y.Blocked(w) && Enabled(y, Wake(w))
            && Visible(y, i, y.waiters[w].session)
  {
    assert Covered(x, w, i);
    OwnQueue(x, w);
    assert QueueSound(x, x.waiters[w].notifier);
    if x.told[i] == Inserted {
      BothTold(x, w, i);
    } else {
      TellShape(x, TellParent(i));
      TellWakes(x, TellParent(i), w);
    }
  }

  /** Both notifications, one after the other. */
  lemma {:induction false} BothTold(x: World, w: int, i: int)
    requires Shape(x) && x.Blocked(w) && Enabled(x, TellOwn(i)) && InFlight(x, i, x.waiters[w].session)
    ensures Enabled(Next(x, TellOwn(i)), TellParent(i)) && Shape(Next(x, TellOwn(i)))
    ensures var y := Next(Next(x, TellOwn(i)), TellParent(i));
            y.store.Valid() && y.waiters == x.waiters && !y.Blocked(w)
  {
    var mid := Next(x, TellOwn(i));
    TellShape(x, TellOwn(i));
    TellShape(mid, TellParent(i));
    TellWakes(x, TellOwn(i), w);
    TellWakes(mid, TellParent(i), w);
  }

  /** A notification to the session of a blocked waiter wakes it, and nothing puts
      it back to sleep. */
  lemma {:induction false} TellWakes(x: World, step: Step, w: int)
    requires Shape(x) && Enabled(x, step) && (step.TellOwn? || step.TellParent?) && x.Active(w)
    ensures var x' := Next(x, step);
            var from := x.store.approvals[step.id].session;
            && x'.waiters == x.waiters && (x'.Blocked(w) ==> x.Blocked(w))
            && (step.TellOwn? && from == x.waiters[w].session && x.Blocked(w) ==> !x'.Blocked(w))
            && (step.TellParent? && ParentIs(x, from, x.waiters[w].session) && x.Blocked(w) ==> !x'.Blocked(w))
  {
    var from := x.store.approvals[step.id].session;
    OwnQueue(x, w);
    assert QueueSound(x, x.waiters[w].notifier);
    if step.TellOwn? {
      NotifyCovers(x, from, w);
    } else if from in x.store.parents {
      NotifyCovers(x, x.store.parents[from], w);
    }
  }

  /** One more action. */
  lemma {:induction false} Take(
      worlds: seq<World>, steps: seq<Step>, step: Step) returns (worlds': seq<World>, steps': seq<Step>)
    requires Interleaving(worlds, steps)
    requires worlds[|steps|].store.Valid() && Enabled(worlds[|steps|], step)
    ensures Interleaving(worlds', steps') && steps' == steps + [step]
    ensures worlds'[|steps'|] == Next(worlds[|steps|], step)
  {
    worlds', steps' := worlds + [Next(worlds[|steps|], step)], steps + [step];
  }

  /** A waiter arrives and finds nothing. */
  lemma {:induction false} LookInVain(
      worlds: seq<World>, steps: seq<Step>, w: int, s: string) returns (worlds': seq<World>, steps': seq<Step>)
    requires Interleaving(worlds, steps)
    requires worlds[|steps|].store.Valid() && worlds[|steps|].store.approvals == [] && w !in worlds[|steps|].waiters
    ensures Interleaving(worlds', steps')
    ensures var x, y := worlds[|steps|], worlds'[|steps'|];
            var with := x.store.WithNotifier(s);
            && y == World(with, x.told, x.waiters[w := Waiter(s, with.notifierOf[s], FoundNone)])
            && y.store.Valid()
  {
    worlds', steps' := Take(worlds, steps, Arrive(w, s));
    worlds', steps' := Take(worlds', steps', Snap(w));
    worlds', steps' := Take(worlds', steps', Query(w));
  }

  /** A waiter arrives, finds nothing and goes to sleep. */
  lemma {:induction false} FallAsleep(
      worlds: seq<World>, steps: seq<Step>, w: int, s: string) returns (worlds': seq<World>, steps': seq<Step>)
    requires Interleaving(worlds, steps)
    requires var x := worlds[|steps|];
             && x.store.Valid() && x.store.approvals == [] && w !in x.waiters
             && (s in x.store.notifierOf ==> !x.store.notifiers[x.store.notifierOf[s]].permit)
    ensures Interleaving(worlds', steps')
    ensures var x, y := worlds[|steps|], worlds'[|steps'|];
            var with := x.store.WithNotifier(s);
            var n := with.notifierOf[s];
            var joined := with.notifiers[n].(queue := with.notifiers[n].queue + [w]);
            && y == World(with.(notifiers := with.notifiers[n := joined]), x.told, x.waiters[w := Waiter(s, n, Waiting)])
            && y.store.Valid()
  {
    worlds', steps' := LookInVain(worlds, steps, w, s);
    worlds', steps' := Take(worlds', steps', Block(w));
  }

  /** An approval is created, and its creator finishes. */
  lemma {:induction false} CreateFully(
      worlds: seq<World>, steps: seq<Step>, s: string) returns (worlds': seq<World>, steps': seq<Step>)
    requires Interleaving(worlds, steps) && worlds[|steps|].store.Valid()
    requires |worlds[|steps|].told| == |worlds[|steps|].store.approvals|
    ensures Interleaving(worlds', steps')
    ensures var x, y := worlds[|steps|], worlds'[|steps'|];
            && y.store == x.store.Insert(Approval(s, "tool", "id", Pending, None)).Notify(s).NotifyParent(s)
            && y.told == x.told + [AllTold] && y.waiters == x.waiters
  {
    var i := |worlds[|steps|].told|;
    worlds', steps' := Take(worlds, steps, Create(s, "tool", "id"));
    worlds', steps' := Take(worlds', steps', TellOwn(i));
    worlds', steps' := Take(worlds', steps', TellParent(i));
  }

  lemma {:induction false} Start() returns (worlds: seq<World>, steps: seq<Step>)
    ensures Interleaving(worlds, steps) && worlds == [EMPTY] && steps == []
  {
    worlds, steps := [EMPTY], [];
  }

  /** Without the discipline wakeups are lost: with two waiters on one session,
      the second sleeps on. */
  lemma {:induction false} TwoWaitersLose() returns (worlds: seq<World>, steps: seq<Step>)
    ensures Interleaving(worlds, steps) && Stuck(worlds[|steps|], 1, 0)
  {
    worlds, steps := Start();
    worlds, steps := FallAsleep(worlds, steps, 0, "s");
    worlds, steps := FallAsleep(worlds, steps, 1, "s");
    assert worlds[|steps|].store.notifiers[0].queue == [0, 1];
    worlds, steps := CreateFully(worlds, steps, "s");
    assert worlds[|steps|].store.notifiers[0].queue == [1];
  }

  /** A child registered after its approval was announced. */
  lemma {:induction false} LateChildLoses() returns (worlds: seq<World>, steps: seq<Step>)
    ensures Interleaving(worlds, steps) && Stuck(worlds[|steps|], 0, 0)
  {
    worlds, steps := Start();
    worlds, steps := FallAsleep(worlds, steps, 0, "p");
    worlds, steps := CreateFully(worlds, steps, "c");
    worlds, steps := Adopt(worlds, steps, "c", "p");
  }

  /** A child is registered: its parent is noted, then the parent's list of children. */
  lemma {:induction false} Adopt(worlds: seq<World>, steps: seq<Step>, c: string, p: string)
    returns (worlds': seq<World>, steps': seq<Step>)
    requires Interleaving(worlds, steps) && worlds[|steps|].store.Valid()
    ensures Interleaving(worlds', steps')
    ensures var x, y := worlds[|steps|], worlds'[|steps'|];
            && y.store == x.store.WithParent(c, p).WithChild(c, p) && y.told == x.told && y.waiters == x.waiters
            && c in y.store.Queried(p)
  {
    worlds', steps' := Take(worlds, steps, NoteParent(c, p));
    worlds', steps' := Take(worlds', steps', NoteChild(c, p));
    assert worlds'[|steps'|].store.Queried(p) == worlds[|steps|].store.Queried(p) + [c];
  }

  /** A notifier removed under its waiter. */
  lemma {:induction false} RemovedNotifierLoses() returns (worlds: seq<World>, steps: seq<Step>)
    ensures Interleaving(worlds, steps) && Stuck(worlds[|steps|], 0, 0)
  {
    worlds, steps := Start();
    worlds, steps := FallAsleep(worlds, steps, 0, "s");
    worlds, steps := Take(worlds, steps, DropNotifier("s"));
    worlds, steps := CreateFully(worlds, steps, "s");
  }
}
