// Reference counting and the deletion lifecycle of trees, over whole runs of
// create, claim, release and the cleanup sweep.
module Lifecycle {
  import opened Prelude
  import opened Arbor

  // ------------------------------------------------------- sums of owner rows

  ghost function Total(m: map<string, int>): int
    decreases |m|
  {
    if m == map[] then 0
    else
      var o :| o in m;
      m[o] + Total(m - {o})
  }

  lemma {:induction false} TotalSplit(m: map<string, int>, o: string)
    requires o in m
    ensures Total(m) == m[o] + Total(m - {o})
    decreases |m|
  {
    var p :| p in m && Total(m) == m[p] + Total(m - {p});
    if p != o {
      TotalSplit(m - {p}, o);
      TotalSplit(m - {o}, p);
      assert m - {p} - {o} == m - {o} - {p};
    }
  }

  lemma {:induction false} TotalUpdate(m: map<string, int>, o: string, n: int)
    ensures Total(m[o := n]) == Total(m) - (if o in m then m[o] else 0) + n
  {
    TotalSplit(m[o := n], o);
    assert m[o := n] - {o} == m - {o};
    if o in m {
      TotalSplit(m, o);
    } else {
      assert m - {o} == m;
    }
  }

  lemma {:induction false} TotalCount(m: map<string, int>)
    requires forall o | o in m :: m[o] >= 1
    ensures Total(m) >= 0 && (Total(m) == 0 <==> m == map[])
    decreases |m|
  {
    if m != map[] {
      var p :| p in m && Total(m) == m[p] + Total(m - {p});
      TotalCount(m - {p});
    }
  }

  // -------------------------------------------------------- one tree's account

  /** What the lifecycle columns promise about the reference rows of a tree. */
  ghost predicate Consistent(row: TreeRow, owners: map<string, int>) {
    && row.refCount == Total(owners)
    && (forall o | o in owners :: owners[o] >= 1)
    && (row.state == Active ==> row.refCount >= 1)
    && (row.state != Active ==> owners == map[])
    && (row.state == ScheduledDelete <==> row.archivedAt.None? && row.scheduledAt.Some?)
    && (row.state == Archived <==> row.archivedAt.Some?)
  }

  ghost predicate AllConsistent(db: Db) {
    && db.refs.Keys == db.trees.Keys
    && forall t | t in db.trees :: Consistent(db.trees[t], db.refs[t])
  }

  function Held(db: Db, t: Id, owner: string): int {
    if t in db.refs && owner in db.refs[t] then db.refs[t][owner] else 0
  }

  lemma {:induction false} ClaimAccount(
      row: TreeRow, owners: map<string, int>, owner: string, count: int, row': TreeRow)
    requires Consistent(row, owners) && row.state != Archived
    requires row' == row.(state := Active, scheduledAt := None, refCount := row.refCount + count)
          || (row.state == Active && row' == row.(refCount := row.refCount + count))
    ensures var held := if owner in owners then owners[owner] else 0;
            Consistent(row', owners[owner := held + count]) <==> held + count >= 1
  {
    var held := if owner in owners then owners[owner] else 0;
    var owners' := owners[owner := held + count];
    TotalUpdate(owners, owner, held + count);
    if held + count >= 1 {
      TotalCount(owners');
      assert owner in owners';
    } else {
      assert owners'[owner] < 1;
    }
  }

  /** A claim keeps the books exactly when it leaves the claimant with at least
      one reference; a claim of zero on a scheduled tree is the case that does not. */
  lemma {:induction false} ClaimKeepsBooks(db: Db, t: Id, owner: string, count: int)
    requires AllConsistent(db)
    ensures AllConsistent(db.TreeClaim(t, owner, count).0)
       <==> t !in db.trees || db.trees[t].state == Archived || Held(db, t, owner) + count >= 1
  {
    if t in db.trees && db.trees[t].state != Archived {
      var db' := db.TreeClaim(t, owner, count).0;
      ClaimAccount(db.trees[t], db.refs[t], owner, count, db'.trees[t]);
      assert forall u | u in db.trees && u != t :: db'.trees[u] == db.trees[u] && db'.refs[u] == db.refs[u];
    }
  }

  /** A release never spoils the books, whatever count it asks for. */
  lemma {:induction false} ReleaseKeepsBooks(db: Db, t: Id, owner: string, count: int, now: int)
    requires AllConsistent(db)
    ensures AllConsistent(db.TreeRelease(t, owner, count, now).0)
  {
    var db' := db.TreeRelease(t, owner, count, now).0;
    if t in db.refs && owner in db.refs[t] && count <= db.refs[t][owner] {
      var left := db.refs[t][owner] - count;
      TotalUpdate(db.refs[t], owner, left);
      TotalSplit(db.refs[t], owner);
      TotalCount(db'.refs[t]);
      assert Consistent(db.trees[t], db.refs[t]);
      assert Consistent(db'.trees[t], db'.refs[t]);
      assert forall u | u in db.trees && u != t :: db'.trees[u] == db.trees[u] && db'.refs[u] == db.refs[u];
    }
  }

  lemma {:induction false} CreateKeepsBooks(db: Db, treeId: Option<Id>, owner: string)
    requires AllConsistent(db)
    ensures AllConsistent(db.TreeCreate(treeId, owner).0)
  {
    var one: map<string, int> := map[owner := 1];
    TotalSplit(one, owner);
    assert one - {owner} == map[];
    var db' := db.TreeCreate(treeId, owner).0;
    var t := if treeId.Some? then treeId.value else db.next;
    if t !in db.trees {
      assert Consistent(db'.trees[t], db'.refs[t]);
    }
  }

  // ----------------------------------------------------------------- whole runs

  datatype LifeOp =
    | Create(treeId: Option<Id>, maker: string)
    | Claim(tree: Id, owner: string, count: int)
    | Release(tree: Id, owner: string, count: int)
    | Sweep

  function Apply(db: Db, op: LifeOp, now: int): Db
    requires db.refs.Keys == db.trees.Keys
  {
    match op
    case Create(t, o) => db.TreeCreate(t, o).0
    case Claim(t, o, n) => db.TreeClaim(t, o, n).0
    case Release(t, o, n) => db.TreeRelease(t, o, n, now).0
    case Sweep => db.Cleanup(now)
  }

  /** A run: operation k takes state k to state k+1 at time `at[k]`. The clock
      never goes back and references are claimed and released one or more at a time. */
  ghost predicate Run(dbs: seq<Db>, ops: seq<LifeOp>, at: seq<int>) {
    && |dbs| == |ops| + 1 && |at| == |ops|
    && dbs[0].trees == map[] && dbs[0].refs == map[]
    && (forall j, k :: 0 <= j < k < |at| ==> at[j] <= at[k])
    && (forall k :: 0 <= k < |ops| && (ops[k].Claim? || ops[k].Release?) ==> ops[k].count >= 1)
    && (forall k :: 0 <= k < |ops| ==> Steps(dbs[k], ops[k], at[k], dbs[k + 1]))
  }

  ghost predicate Steps(db: Db, op: LifeOp, now: int, db': Db) {
    db.refs.Keys == db.trees.Keys && db' == Apply(db, op, now)
  }

  lemma {:induction false} StepKeepsBooks(db: Db, op: LifeOp, now: int)
    requires AllConsistent(db) && (op.Claim? ==> op.count >= 1)
    ensures AllConsistent(Apply(db, op, now))
  {
    match op
    case Create(t, o) => CreateKeepsBooks(db, t, o);
    case Claim(t, o, n) => ClaimKeepsBooks(db, t, o, n);
    case Release(t, o, n) => ReleaseKeepsBooks(db, t, o, n, now);
    case Sweep =>
      var db' := db.Cleanup(now);
      forall t | t in db'.trees
        ensures Consistent(db'.trees[t], db'.refs[t])
      {
        assert Consistent(db.trees[t], db.refs[t]);
      }
  }

  /** In every reachable state: ref_count is the sum of the owner rows, every
      owner row is at least one, Active means somebody holds a reference, and a
      scheduled or archived tree is held by nobody. */
  lemma {:induction false} BooksOnEveryRun(dbs: seq<Db>, ops: seq<LifeOp>, at: seq<int>, k: nat)
    requires Run(dbs, ops, at) && k < |dbs|
    ensures AllConsistent(dbs[k])
  {
    if k > 0 {
      BooksOnEveryRun(dbs, ops, at, k - 1);
      assert Steps(dbs[k - 1], ops[k - 1], at[k - 1], dbs[k]);
      StepKeepsBooks(dbs[k - 1], ops[k - 1], at[k - 1]);
    }
  }

  /** What one operation adds to an owner's account, if it succeeds. */
  function Credit(db: Db, op: LifeOp, t: Id, owner: string): int
    requires db.refs.Keys == db.trees.Keys
  {
    match op
    case Create(id, o) => if o == owner && db.TreeCreate(id, o).1 == Ok(t) then 1 else 0
    case Claim(u, o, n) => if u == t && o == owner && db.TreeClaim(u, o, n).1.Ok? then n else 0
    case Release(u, o, n) => if u == t && o == owner && db.TreeRelease(u, o, n, 0).1.Ok? then -n else 0
    case Sweep => 0
  }

  /** Everything an owner ever got for a tree, minus everything it gave back. */
  ghost function Balance(dbs: seq<Db>, ops: seq<LifeOp>, at: seq<int>, t: Id, owner: string, k: nat): int
    requires Run(dbs, ops, at) && k < |dbs|
  {
    if k == 0 then 0
    else
      assert Steps(dbs[k - 1], ops[k - 1], at[k - 1], dbs[k]);
      Balance(dbs, ops, at, t, owner, k - 1) + Credit(dbs[k - 1], ops[k - 1], t, owner)
  }

  lemma {:induction false} StepCredits(db: Db, op: LifeOp, now: int, t: Id, owner: string)
    requires db.refs.Keys == db.trees.Keys
    ensures Held(Apply(db, op, now), t, owner) == Held(db, t, owner) + Credit(db, op, t, owner)
  {
  }

  /** An owner row is always the owner's successful claims, plus the creator's
      initial reference, minus its successful releases; no row means zero. */
  lemma {:induction false} AccountsOnEveryRun(
    dbs: seq<Db>, ops: seq<LifeOp>, at: seq<int>, t: Id, owner: string, k: nat)
    requires Run(dbs, ops, at) && k < |dbs|
    ensures Held(dbs[k], t, owner) == Balance(dbs, ops, at, t, owner, k)
  {
    if k > 0 {
      AccountsOnEveryRun(dbs, ops, at, t, owner, k - 1);
      assert Steps(dbs[k - 1], ops[k - 1], at[k - 1], dbs[k]);
      StepCredits(dbs[k - 1], ops[k - 1], at[k - 1], t, owner);
    }
  }

  // ------------------------------------------------------------- grace period

  ghost predicate ScheduledFrom(db: Db, t: Id, s: int) {
    t in db.trees && db.trees[t].state == ScheduledDelete && db.trees[t].scheduledAt == Some(s)
  }

  /** A scheduled tree was last held right before the operation that scheduled
      it, and has been scheduled ever since. */
  lemma {:induction false} ScheduledSince(dbs: seq<Db>, ops: seq<LifeOp>, at: seq<int>, k: nat, t: Id) returns (i: nat)
    requires Run(dbs, ops, at) && k < |dbs|
    requires t in dbs[k].trees && dbs[k].trees[t].state == ScheduledDelete
    ensures i < k && dbs[k].trees[t].scheduledAt == Some(at[i])
    ensures t in dbs[i].trees && dbs[i].trees[t].state == Active
    ensures forall j :: i < j <= k ==> ScheduledFrom(dbs[j], t, at[i])
  {
    BooksOnEveryRun(dbs, ops, at, k - 1);
    assert Steps(dbs[k - 1], ops[k - 1], at[k - 1], dbs[k]);
    assert Consistent(dbs[k - 1].trees[t], dbs[k - 1].refs[t]);
    if dbs[k - 1].trees[t].state == ScheduledDelete {
      i := ScheduledSince(dbs, ops, at, k - 1, t);
    } else {
      i := k - 1;
    }
  }

  ghost predicate Archives(dbs: seq<Db>, k: nat, t: Id)
    requires k + 1 < |dbs|
  {
    && t in dbs[k].trees && dbs[k].trees[t].state != Archived
    && t in dbs[k + 1].trees && dbs[k + 1].trees[t].state == Archived
  }

  ghost predicate Unheld(db: Db, t: Id) {
    t in db.trees && db.trees[t].state != Active && t in db.refs && db.refs[t] == map[]
  }

  /** A sweep archives a tree exactly when nobody has held it for more than
      seven days: its last holder let go at some step i, strictly longer ago
      than the grace period, and it has been unheld in every state since. */
  lemma {:induction false} ArchivedExactlyAfterGrace(dbs: seq<Db>, ops: seq<LifeOp>, at: seq<int>, k: nat, t: Id)
    requires Run(dbs, ops, at) && k < |ops| && t in dbs[k].trees && dbs[k].trees[t].state != Archived
    ensures Archives(dbs, k, t) <==>
      && ops[k].Sweep?
      && exists i :: 0 <= i < k && at[i] < at[k] - GRACE && t in dbs[i].trees && dbs[i].trees[t].state == Active
                     && forall j :: i < j <= k ==> Unheld(dbs[j], t)
  {
    assert Steps(dbs[k], ops[k], at[k], dbs[k + 1]);
    BooksOnEveryRun(dbs, ops, at, k);
    assert Consistent(dbs[k].trees[t], dbs[k].refs[t]);
    if dbs[k].trees[t].state == ScheduledDelete {
      var i := ScheduledSince(dbs, ops, at, k, t);
      forall j | i < j <= k
        ensures Unheld(dbs[j], t)
      {
        assert ScheduledFrom(dbs[j], t, at[i]);
        BooksOnEveryRun(dbs, ops, at, j);
        assert Consistent(dbs[j].trees[t], dbs[j].refs[t]);
      }
      assert !Unheld(dbs[i], t);
      assert forall j | i < j <= k :: ScheduledFrom(dbs[j], t, at[i]) && dbs[j].trees[t].state != Active;
    } else {
      assert !Unheld(dbs[k], t);
    }
  }

  /** A successful claim during the seven days before a sweep rules out that the
      sweep archives the tree. */
  lemma {:induction false} ClaimCancelsArchiving(dbs: seq<Db>, ops: seq<LifeOp>, at: seq<int>, c: nat, k: nat)
    requires Run(dbs, ops, at) && c < k < |ops| && at[c] >= at[k] - GRACE
    requires ops[c].Claim? && ops[c].tree in dbs[k].trees && dbs[k].trees[ops[c].tree].state != Archived
    requires dbs[c].refs.Keys == dbs[c].trees.Keys && dbs[c].TreeClaim(ops[c].tree, ops[c].owner, ops[c].count).1.Ok?
    ensures !Archives(dbs, k, ops[c].tree)
  {
    var t := ops[c].tree;
    assert Steps(dbs[c], ops[c], at[c], dbs[c + 1]);
    assert dbs[c + 1].trees[t].state == Active;
    assert !Unheld(dbs[c + 1], t);
    ArchivedExactlyAfterGrace(dbs, ops, at, k, t);
  }

  /** Archived is final: no claim, release or sweep ever touches the row again. */
  lemma {:induction false} ArchivedForever(dbs: seq<Db>, ops: seq<LifeOp>, at: seq<int>, j: nat, k: nat, t: Id)
    requires Run(dbs, ops, at) && j <= k < |dbs|
    requires t in dbs[j].trees && dbs[j].trees[t].state == Archived
    ensures t in dbs[k].trees && dbs[k].trees[t] == dbs[j].trees[t] && Unheld(dbs[k], t)
  {
    BooksOnEveryRun(dbs, ops, at, k);
    if j < k {
      ArchivedForever(dbs, ops, at, j, k - 1, t);
      assert Steps(dbs[k - 1], ops[k - 1], at[k - 1], dbs[k]);
    } else {
      assert Consistent(dbs[k].trees[t], dbs[k].refs[t]);
    }
  }

  /** Counts are not validated: claiming zero references of a scheduled tree
      makes it Active although nobody holds it, and no sweep will ever archive it. */
  lemma {:induction false} ZeroClaimLeaks(db: Db, t: Id, owner: string, now: int)
    requires AllConsistent(db) && t in db.trees && db.trees[t].state == ScheduledDelete
    ensures var db' := db.TreeClaim(t, owner, 0).0;
            db'.trees[t].state == Active && db'.trees[t].refCount == 0 && db'.Cleanup(now).trees[t] == db'.trees[t]
  {
    assert Consistent(db.trees[t], db.refs[t]);
    TotalCount(db.refs[t]);
  }
}
