// The approval store (src/activations/claudecode_loopback/storage.rs): approval
// rows, one `tokio::sync::Notify` per session, and the parent and child maps.
// `Store` is their content as a value, with one function per atomic action (an
// SQL statement or a section under one lock); `LoopbackStorage` is the object.
module Loopback {
  import opened Prelude

  datatype Status = Pending | Approved | Denied

  datatype Approval = Approval(session: string, toolName: string, toolUseId: string, status: Status,
    message: Option<string>)

  /** A `Notify`: one stored permit, and the waiters blocked on it, first come first. */
  datatype Notifier = Notifier(permit: bool, queue: seq<int>)
  {
    /** notify_one: wake the first waiter in the queue, or leave a permit. */
    function NotifyOne(): Notifier {
      if queue == [] then this.(permit := true) else this.(queue := queue[1..])
    }

    /** Drop a waiter that stops waiting. */
    function Without(w: int): Notifier {
      this.(queue := Removed(queue, w))
    }
  }

  function Removed(queue: seq<int>, w: int): (r: seq<int>)
    ensures w !in r && forall x | x != w :: x in r <==> x in queue
  {
    if queue == [] then []
    else if queue[0] == w then Removed(queue[1..], w)
    else [queue[0]] + Removed(queue[1..], w)
  }

  datatype Store = Store(
    approvals: seq<Approval>,
    notifierOf: map<string, int>,
    notifiers: seq<Notifier>,
    parents: map<string, string>,
    children: map<string, seq<string>>)
  {
    ghost predicate Valid() {
      && (forall s | s in notifierOf :: 0 <= notifierOf[s] < |notifiers|)
      && forall a, b | a in notifierOf && b in notifierOf && notifierOf[a] == notifierOf[b] :: a == b
    }

    function ChildrenOf(session: string): seq<string> {
      if session in children then children[session] else []
    }

    /** The sessions that list_pending queries. */
    function Queried(session: string): seq<string> {
      [session] + ChildrenOf(session)
    }

    function Insert(a: Approval): Store {
      this.(approvals := approvals + [a])
    }

    /** notify_one on the session's notifier, if it has one. */
    function Notify(session: string): Store
      requires Valid()
    {
      if session in notifierOf then
        var n := notifierOf[session];
        this.(notifiers := notifiers[n := notifiers[n].NotifyOne()])
      else this
    }

    /** notify_one on the notifier of the session's parent, if both exist. */
    function NotifyParent(session: string): Store
      requires Valid()
    {
      if session in parents then Notify(parents[session]) else this
    }

    /** UPDATE ... WHERE id = ?, whatever the row's status was. */
    function Resolve(id: int, approve: bool, message: Option<string>): Store {
      if 0 <= id < |approvals| then
        this.(approvals := approvals[id := approvals[id].(status := if approve then Approved else Denied,
          message := message)])
      else this
    }

    function WithNotifier(session: string): Store {
      if session in notifierOf then this
      else this.(notifierOf := notifierOf[session := |notifiers|], notifiers := notifiers + [Notifier(false, [])])
    }

    function WithParent(child: string, parent: string): Store {
      this.(parents := parents[child := parent])
    }

    function WithChild(child: string, parent: string): Store {
      this.(children := children[parent := ChildrenOf(parent) + [child]])
    }

    function WithoutNotifier(session: string): Store {
      this.(notifierOf := notifierOf - {session})
    }
  }

  /** The ids of the pending rows of these sessions, oldest first. */
  function PendingAmong(approvals: seq<Approval>, sessions: seq<string>): (ids: seq<int>)
    ensures forall i | i in ids :: 0 <= i < |approvals|
    ensures forall i :: i in ids <==>
      0 <= i < |approvals| && approvals[i].status == Pending && approvals[i].session in sessions
  {
    if approvals == [] then []
    else
      var front, last := approvals[..|approvals| - 1], approvals[|approvals| - 1];
      PendingAmong(front, sessions) + if last.status == Pending && last.session in sessions then [|approvals| - 1]
        else []
  }

  class LoopbackStorage {
    var approvals: seq<Approval>
    var notifierOf: map<string, int>
    var notifiers: seq<Notifier>
    var parents: map<string, string>
    var children: map<string, seq<string>>

    ghost function State(): Store
      reads this
    {
      Store(approvals, notifierOf, notifiers, parents, children)
    }

    constructor ()
      ensures State() == Store([], map[], [], map[], map[]) && State().Valid()
    {
      approvals, notifierOf, notifiers, parents, children := [], map[], [], map[], map[];
    }

    /** create_approval: the row first, then the session's notifier, then its parent's. */
    method CreateApproval(session: string, toolName: string, toolUseId: string) returns (id: int)
      requires State().Valid()
      modifies this`approvals, this`notifiers
      ensures id == |old(approvals)|
      ensures State() == old(State()).Insert(Approval(session, toolName, toolUseId, Pending,
        None)).Notify(session).NotifyParent(session)
      ensures State().Valid()
    {
      id := |approvals|;
      approvals := approvals + [Approval(session, toolName, toolUseId, Pending, None)];
      NotifySession(session);
    }

    method NotifySession(session: string)
      requires State().Valid()
      modifies this`notifiers
      ensures State() == old(State()).Notify(session).NotifyParent(session) && State().Valid()
    {
      if session in notifierOf {
        var n := notifierOf[session];
        notifiers := notifiers[n := notifiers[n].NotifyOne()];
      }
      if session in parents {
        var parent := parents[session];
        if parent in notifierOf {
          var n := notifierOf[parent];
          notifiers := notifiers[n := notifiers[n].NotifyOne()];
        }
      }
    }

    method ResolveApproval(id: int, approve: bool, message: Option<string>) returns (ok: bool)
      modifies this`approvals
      ensures ok == (0 <= id < |old(approvals)|) && State() == old(State()).Resolve(id, approve, message)
    {
      ok := 0 <= id < |approvals|;
      if ok {
        approvals := approvals[id := approvals[id].(status := if approve then Approved else Denied,
          message := message)];
      }
    }

    /** list_pending: the session's own rows and its children's, or every row; oldest
        first, each once. */
    method ListPending(session: Option<string>) returns (ids: seq<int>)
      ensures forall i :: i in ids <==>
        && 0 <= i < |approvals| && approvals[i].status == Pending
        && (session.Some? ==> approvals[i].session in State().Queried(session.value))
      ensures forall j, k :: 0 <= j < k < |ids| ==> ids[j] < ids[k]
    {
      ids := [];
      var sessions: seq<string> := [];
      if session.Some? {
        sessions := [session.value];
        if session.value in children {
          sessions := sessions + children[session.value];
        }
      }
      assert session.Some? ==> sessions == State().Queried(session.value);
      for i := 0 to |approvals|
        invariant forall k :: k in ids <==>
          0 <= k < i && approvals[k].status == Pending && (session.Some? ==> approvals[k].session in sessions)
        invariant forall j, k :: 0 <= j < k < |ids| ==> ids[j] < ids[k]
        invariant forall k :: 0 <= k < |ids| ==> ids[k] < i
      {
        if approvals[i].status == Pending && (session.None? || approvals[i].session in sessions) {
          ids := ids + [i];
        }
      }
    }

    method GetOrCreateNotifier(session: string) returns (n: int)
      requires State().Valid()
      modifies this`notifierOf, this`notifiers
      ensures State() == old(State()).WithNotifier(session) && State().Valid()
      ensures session in notifierOf && n == notifierOf[session]
    {
      if session !in notifierOf {
        notifierOf := notifierOf[session := |notifiers|];
        notifiers := notifiers + [Notifier(false, [])];
      }
      n := notifierOf[session];
    }

    method RegisterSessionParent(child: string, parent: string)
      modifies this`parents, this`children
      ensures State() == old(State()).WithParent(child, parent).WithChild(child, parent)
    {
      parents := parents[child := parent];
      var known := if parent in children then children[parent] else [];
      children := children[parent := known + [child]];
    }

    method RemoveNotifier(session: string)
      modifies this`notifierOf
      ensures State() == old(State()).WithoutNotifier(session)
    {
      notifierOf := notifierOf - {session};
    }
  }
}
