/** Walking the sessions a session has spawned: delegation_projection.go. */
module Delegation {
  import opened Events
  import opened Sequences

  /** A stored session: its links to the session that spawned it, and its log. */
  datatype Stored = Stored(id: string, parentID: string, spawnID: string, log: seq<Event>)

  type Store = map<string, Stored>

  datatype DelegationError =
    | Cycle(id: string)
    | NotFound(id: string)
    | BrokenLink(parentID: string, spawnID: string, childID: string)
    | SeveralResults(spawnID: string)

  function Spawns(log: seq<Event>): (r: seq<Body>)
    ensures forall b :: b in r ==> b.AgentSpawn?
  {
    if log == [] then []
    else Spawns(log[..|log| - 1]) + if log[|log| - 1].body.AgentSpawn? then [log[|log| - 1].body] else []
  }

  ghost function SpawnsOf(log: seq<Event>): (int, Body) -> bool {
    (i, b) => 0 <= i < |log| && b == log[i].body && b.AgentSpawn?
  }

  lemma {:induction false} SpawnsInOrder(log: seq<Event>, n: nat) returns (at: seq<nat>)
    requires n <= |log|
    ensures Placed(n, Spawns(log[..n]), at, SpawnsOf(log))
  {
    if n == 0 {
      at := [];
    } else {
      var k := n - 1;
      at := SpawnsInOrder(log, k);
      assert log[..n][..k] == log[..k];
      if log[k].body.AgentSpawn? {
        PlaceOne(k, Spawns(log[..k]), at, SpawnsOf(log), log[k].body);
        at := at + [k];
      } else {
        PlaceNone(k, Spawns(log[..k]), at, SpawnsOf(log));
      }
    }
  }

  /** What the child says of its origin agrees with what the parent recorded. */
  predicate LinkOK(store: Store, parent: Stored, spawn: Body)
    requires spawn.AgentSpawn?
  {
    && spawn.childID in store
    && store[spawn.childID].parentID == parent.id && store[spawn.childID].spawnID == spawn.spawnID
  }

  method ValidateChildLink(store: Store, parent: Stored, spawn: Body) returns (broken: Option<DelegationError>)
    requires spawn.AgentSpawn?
    ensures broken == None <==> LinkOK(store, parent, spawn)
    ensures broken == Some(NotFound(spawn.childID)) <==> spawn.childID !in store
    ensures broken in {None, Some(NotFound(spawn.childID)),
                       Some(BrokenLink(parent.id, spawn.spawnID, spawn.childID))}
  {
    if spawn.childID !in store {
      return Some(NotFound(spawn.childID));
    }
    var child := store[spawn.childID];
    if child.parentID != parent.id || child.spawnID != spawn.spawnID {
      return Some(BrokenLink(parent.id, spawn.spawnID, spawn.childID));
    }
    return None;
  }

  // ---------- The traversal as a function ----------

  function Left(store: Store, visiting: set<string>): nat { |store.Keys - visiting| }

  lemma {:induction false} LeftShrinks(store: Store, visiting: set<string>, id: string)
    requires id in store && id !in visiting
    ensures Left(store, visiting + {id}) < Left(store, visiting)
  {
    var before, after := store.Keys - visiting, store.Keys - (visiting + {id});
    assert before == after + {id};
  }

  /** The ids collected from `id` on, parents first, or none if the traversal fails. */
  ghost function Collected(store: Store, id: string, visiting: set<string>): Option<seq<string>>
    decreases Left(store, visiting), 0
  {
    if id in visiting || id !in store then None
    else
      LeftShrinks(store, visiting, id);
      match CollectedBelow(store, id, |Spawns(store[id].log)|, visiting + {id})
      case None => None
      case Some(below) => Some([id] + below)
  }

  /** The same for the first `n` sessions `id` spawned. */
  ghost function CollectedBelow(store: Store, id: string, n: nat, visiting: set<string>): Option<seq<string>>
    requires id in store && n <= |Spawns(store[id].log)|
    decreases Left(store, visiting), n
  {
    if n == 0 then Some([])
    else
      var spawn := Spawns(store[id].log)[n - 1];
      match CollectedBelow(store, id, n - 1, visiting)
      case None => None
      case Some(others) =>
        if !LinkOK(store, store[id], spawn) then None
        else match Collected(store, spawn.childID, visiting)
          case None => None
          case Some(more) => Some(others + more)
  }

  // ---------- The traversal ----------

  class Traversal {
    const store: Store
    var visiting: set<string>

    constructor (store: Store)
      ensures this.store == store && visiting == {}
    {
      this.store := store;
      visiting := {};
    }

    method AgentSpawns(log: seq<Event>) returns (spawns: seq<Body>)
      ensures spawns == Spawns(log)
    {
      spawns := [];
      for i := 0 to |log|
        invariant spawns == Spawns(log[..i])
      {
        assert log[..i + 1][..i] == log[..i];
        if log[i].body.AgentSpawn? {
          spawns := spawns + [log[i].body];
        }
      }
      assert log[..|log|] == log;
    }

    /** The path is restored on the way out, whatever happens. */
    method CollectDescendants(id: string) returns (r: Result<seq<string>, DelegationError>)
      modifies this`visiting
      ensures visiting == old(visiting)
      ensures Agrees(r, Collected(store, id, visiting))
      ensures id in old(visiting) ==> r == Failure(Cycle(id))
      decreases Left(store, visiting), 1
    {
      if id in visiting {
        return Failure(Cycle(id));
      }
      ghost var before := visiting;
      visiting := visiting + {id};
      if id !in store {
        r := Failure(NotFound(id));
      } else {
        LeftShrinks(store, before, id);
        var below := CollectBelow(id);
        r := if below.Success? then Success([id] + below.value) else Failure(below.error);
      }
      visiting := visiting - {id};
      assert visiting == before;
    }

    method CollectBelow(id: string) returns (r: Result<seq<string>, DelegationError>)
      requires id in store
      modifies this`visiting
      ensures visiting == old(visiting)
      ensures Agrees(r, CollectedBelow(store, id, |Spawns(store[id].log)|, visiting))
      decreases Left(store, visiting), 2
    {
      var below: seq<string> := [];
      var spawns := AgentSpawns(store[id].log);
      for i := 0 to |spawns|
        invariant visiting == old(visiting)
        invariant CollectedBelow(store, id, i, visiting) == Some(below)
      {
        var broken := ValidateChildLink(store, store[id], spawns[i]);
        if broken.Some? {
          FailedBelow(store, id, i, |spawns|, visiting);
          return Failure(broken.value);
        }
        var children := CollectDescendants(spawns[i].childID);
        if children.Failure? {
          FailedBelow(store, id, i, |spawns|, visiting);
          return Failure(children.error);
        }
        below := below + children.value;
      }
      return Success(below);
    }

    method DelegationTree(id: string) returns (r: Result<Tree, DelegationError>)
      modifies this`visiting
      ensures visiting == old(visiting)
      ensures TreeOf(store, id, visiting) == if r.Success? then Some(r.value) else None
      decreases Left(store, visiting), 1
    {
      if id in visiting {
        return Failure(Cycle(id));
      }
      ghost var before := visiting;
      visiting := visiting + {id};
      if id !in store {
        r := Failure(NotFound(id));
      } else {
        LeftShrinks(store, before, id);
        var branches := Branches(id);
        r := if branches.Success? then Success(Tree(store[id].id, branches.value)) else Failure(branches.error);
      }
      visiting := visiting - {id};
      assert visiting == before;
    }

    method Branches(id: string) returns (r: Result<seq<Branch>, DelegationError>)
      requires id in store
      modifies this`visiting
      ensures visiting == old(visiting)
      ensures TreeBelow(store, id, |Spawns(store[id].log)|, visiting) == if r.Success? then Some(r.value) else None
      decreases Left(store, visiting), 3
    {
      var branches: seq<Branch> := [];
      var spawns := AgentSpawns(store[id].log);
      for i := 0 to |spawns|
        invariant visiting == old(visiting)
        invariant TreeBelow(store, id, i, visiting) == Some(branches)
      {
        var branch := BranchFor(id, spawns[i]);
        if branch.Failure? {
          NoTreeBelow(store, id, i, |spawns|, visiting);
          return Failure(branch.error);
        }
        branches := branches + [branch.value];
      }
      return Success(branches);
    }

    /** The branch of one spawn. */
    method BranchFor(id: string, spawn: Body) returns (r: Result<Branch, DelegationError>)
      requires id in store && spawn.AgentSpawn?
      modifies this`visiting
      ensures visiting == old(visiting)
      ensures BranchOf(store, id, spawn, visiting) == if r.Success? then Some(r.value) else None
      decreases Left(store, visiting), 2
    {
      var broken := ValidateChildLink(store, store[id], spawn);
      if broken.Some? {
        return Failure(broken.value);
      }
      var tree := DelegationTree(spawn.childID);
      if tree.Failure? {
        return Failure(tree.error);
      }
      var status := StatusForSpawn(store[id].log, spawn.spawnID);
      if status == None {
        return Failure(SeveralResults(spawn.spawnID));
      }
      return Success(Branch(spawn.spawnID, status.value, tree.value));
    }
  }

  ghost predicate ResultOf(log: seq<Event>, i: int, spawnID: string) {
    0 <= i < |log| && log[i].body.AgentResult? && log[i].body.spawnID == spawnID
  }

  function StatusesGiven(log: seq<Event>, spawnID: string): seq<Option<string>> {
    seq(|log|, i requires 0 <= i < |log| =>
      if log[i].body.AgentStatus? && log[i].body.spawnID == spawnID then Some(log[i].body.status) else None)
  }

  ghost function ResultsOf(log: seq<Event>, spawnID: string): (int, string) -> bool {
    (i, status) => ResultOf(log, i, spawnID) && status == log[i].body.status
  }

  lemma {:induction false} ResultsInOrder(log: seq<Event>, n: nat, spawnID: string) returns (at: seq<nat>)
    requires n <= |log|
    ensures Placed(n, ResultsFor(log[..n], spawnID), at, ResultsOf(log, spawnID))
  {
    if n == 0 {
      at := [];
    } else {
      var k := n - 1;
      at := ResultsInOrder(log, k, spawnID);
      assert log[..n][..k] == log[..k];
      if ResultOf(log, k, spawnID) {
        PlaceOne(k, ResultsFor(log[..k], spawnID), at, ResultsOf(log, spawnID), log[k].body.status);
        at := at + [k];
      } else {
        PlaceNone(k, ResultsFor(log[..k], spawnID), at, ResultsOf(log, spawnID));
      }
    }
  }

  lemma {:induction false} LastStatusIsLast(log: seq<Event>, spawnID: string)
    ensures LastGiven(StatusesGiven(log, spawnID), LastStatus(log, spawnID), "open")
  {
    if log != [] {
      var most, last := log[..|log| - 1], log[|log| - 1];
      LastStatusIsLast(most, spawnID);
      var next := if last.body.AgentStatus? && last.body.spawnID == spawnID then Some(last.body.status) else None;
      LastGivenMore(StatusesGiven(most, spawnID), LastStatus(most, spawnID), "open", next);
      assert StatusesGiven(log, spawnID) == StatusesGiven(most, spawnID) + [next];
    }
  }

  lemma {:induction false} SeveralResultsIff(log: seq<Event>, spawnID: string)
    ensures |ResultsFor(log, spawnID)| > 1 <==>
              exists i, j :: i < j && ResultOf(log, i, spawnID) && ResultOf(log, j, spawnID)
  {
    var at := ResultsInOrder(log, |log|, spawnID);
    assert log[..|log|] == log;
    SeveralPlaced(|log|, ResultsFor(log, spawnID), at, ResultsOf(log, spawnID));
    forall i | ResultOf(log, i, spawnID)
      ensures ResultsOf(log, spawnID)(i, log[i].body.status)
    {}
  }

  lemma {:induction false} OneResultIff(log: seq<Event>, spawnID: string)
    ensures ResultsFor(log, spawnID) == [] <==> forall i :: !ResultOf(log, i, spawnID)
    ensures ResultsFor(log, spawnID) != [] ==>
              exists i :: ResultOf(log, i, spawnID) && log[i].body.status == ResultsFor(log, spawnID)[0]
  {
    var results := ResultsFor(log, spawnID);
    var at := ResultsInOrder(log, |log|, spawnID);
    assert log[..|log|] == log;
    if results != [] {
      assert ResultsOf(log, spawnID)(at[0], results[0]);
    }
    if i :| ResultOf(log, i, spawnID) {
      assert ResultsOf(log, spawnID)(i, log[i].body.status);
      assert i in at;
    }
  }

  /** Several results are an error; one result decides; without one the status reported last does, or "open". */
  lemma {:induction false} StatusMeans(log: seq<Event>, spawnID: string)
    ensures StatusOf(log, spawnID) == None <==>
              exists i, j :: i < j && ResultOf(log, i, spawnID) && ResultOf(log, j, spawnID)
    ensures StatusOf(log, spawnID).Some? ==>
              || (exists i :: ResultOf(log, i, spawnID) && log[i].body.status == StatusOf(log, spawnID).value)
              || ((forall i :: !ResultOf(log, i, spawnID))
                  && LastGiven(StatusesGiven(log, spawnID), StatusOf(log, spawnID).value, "open"))
  {
    SeveralResultsIff(log, spawnID);
    OneResultIff(log, spawnID);
    LastStatusIsLast(log, spawnID);
  }

  /** The result recorded for a spawn, else its last status, else "open". */
  method StatusForSpawn(log: seq<Event>, spawnID: string) returns (status: Option<string>)
    ensures status == StatusOf(log, spawnID)
  {
    var found: Option<string> := None;
    var last := "open";
    for i := 0 to |log|
      invariant ResultsFor(log[..i], spawnID) == if found.Some? then [found.value] else []
      invariant last == LastStatus(log[..i], spawnID)
    {
      StatusOneMore(log, i, spawnID);
      var b := log[i].body;
      if b.AgentResult? && b.spawnID == spawnID {
        if found.Some? {
          MoreResults(log, i + 1, |log|, spawnID);
          return None;
        }
        found := Some(b.status);
      }
      if b.AgentStatus? && b.spawnID == spawnID {
        last := b.status;
      }
    }
    assert log[..|log|] == log;
    return Some(if found.Some? then found.value else last);
  }

  lemma {:induction false} StatusOneMore(log: seq<Event>, i: nat, spawnID: string)
    requires i < |log|
    ensures var b := log[i].body;
            && ResultsFor(log[..i + 1], spawnID)
              == ResultsFor(log[..i], spawnID) + (if b.AgentResult? && b.spawnID == spawnID then [b.status] else [])
            && LastStatus(log[..i + 1], spawnID) == if b.AgentStatus? && b.spawnID == spawnID then b.status
              else LastStatus(log[..i], spawnID)
  {
    assert log[..i + 1][..i] == log[..i];
  }

  lemma {:induction false} MoreResults(log: seq<Event>, n: nat, m: nat, spawnID: string)
    requires n <= m <= |log|
    ensures |ResultsFor(log[..n], spawnID)| <= |ResultsFor(log[..m], spawnID)|
    ensures log[..|log|] == log
  {
    if n < m {
      MoreResults(log, n, m - 1, spawnID);
      StatusOneMore(log, m - 1, spawnID);
    }
  }

  /** One failing branch fails all. */
  lemma {:induction false} NoTreeBelow(store: Store, id: string, n: nat, m: nat, visiting: set<string>)
    requires id in store && n < m <= |Spawns(store[id].log)|
    requires var spawn := Spawns(store[id].log)[n];
             !LinkOK(store, store[id], spawn) || TreeOf(store, spawn.childID, visiting) == None
               || StatusOf(store[id].log, spawn.spawnID) == None
    ensures TreeBelow(store, id, m, visiting) == None
  {
    if n < m - 1 {
      NoTreeBelow(store, id, n, m - 1, visiting);
    }
  }

  ghost predicate Agrees(r: Result<seq<string>, DelegationError>, spec: Option<seq<string>>) {
    spec == if r.Success? then Some(r.value) else None
  }

  /** One failing family fails all. */
  lemma {:induction false} FailedBelow(store: Store, id: string, n: nat, m: nat, visiting: set<string>)
    requires id in store && n < m <= |Spawns(store[id].log)|
    requires var spawn := Spawns(store[id].log)[n];
             !LinkOK(store, store[id], spawn) || Collected(store, spawn.childID, visiting) == None
    ensures CollectedBelow(store, id, m, visiting) == None
  {
    if n < m - 1 {
      FailedBelow(store, id, n, m - 1, visiting);
    }
  }

  lemma {:induction false} OneMoreCollected(store: Store, id: string, n: nat, visiting: set<string>)
    requires id in store && 0 < n <= |Spawns(store[id].log)|
    ensures var spawn := Spawns(store[id].log)[n - 1];
            var others, more := CollectedBelow(store, id, n - 1, visiting), Collected(store, spawn.childID, visiting);
            var all := CollectedBelow(store, id, n, visiting);
            && (all.Some? <==> others.Some? && LinkOK(store, store[id], spawn) && more.Some?)
            && (all.Some? ==> all.value == others.value + more.value)
  {}

  // ---------- What is collected ----------

  ghost predicate Child(store: Store, p: string, c: string) {
    && p in store
    && exists k :: 0 <= k < |Spawns(store[p].log)| && SpawnAt(store, p, k, c)
  }

  ghost predicate SpawnAt(store: Store, p: string, k: int, c: string) {
    p in store && 0 <= k < |Spawns(store[p].log)| && Spawns(store[p].log)[k].childID == c
  }

  /** Keys are the sessions' own ids. */
  ghost predicate WellKeyed(store: Store) {
    forall k :: k in store ==> store[k].id == k
  }

  ghost predicate DistinctSpawnIDs(store: Store) {
    forall p, j, k :: p in store && 0 <= j < k < |Spawns(store[p].log)| ==>
      Spawns(store[p].log)[j].spawnID != Spawns(store[p].log)[k].spawnID
  }

  /** Position `k` is reached from an earlier one, over a link both ends agree on. */
  ghost predicate ParentBefore(store: Store, out: seq<string>, k: int) {
    exists j :: 0 <= j < k && IsParent(store, out, j, k)
  }

  ghost predicate IsParent(store: Store, out: seq<string>, j: int, k: int) {
    && 0 <= j < |out| && 0 <= k < |out|
    && Child(store, out[j], out[k]) && out[k] in store && store[out[k]].parentID == out[j]
  }

  /** A traversal's result: the root first, everything else after its parent, nothing that was on the path. */
  ghost predicate Traced(store: Store, id: string, out: seq<string>, visiting: set<string>) {
    && out != [] && out[0] == id
    && (forall k :: 1 <= k < |out| ==> ParentBefore(store, out, k))
    && (forall x :: x in out ==> x in store && x !in visiting)
  }

  /** The same for what lies below `id`, given that `id` itself comes first. */
  ghost predicate TracedBelow(store: Store, id: string, below: seq<string>, visiting: set<string>) {
    && (forall k :: 1 <= k < |[id] + below| ==> ParentBefore(store, [id] + below, k))
    && (forall x :: x in below ==> x in store && x !in visiting)
  }

  lemma {:induction false} CollectedIsTraced(store: Store, id: string, visiting: set<string>)
    requires WellKeyed(store) && Collected(store, id, visiting).Some?
    ensures Traced(store, id, Collected(store, id, visiting).value, visiting)
    decreases Left(store, visiting), 0
  {
    LeftShrinks(store, visiting, id);
    BelowIsTraced(store, id, |Spawns(store[id].log)|, visiting + {id});
  }

  lemma {:induction false} BelowIsTraced(store: Store, id: string, n: nat, visiting: set<string>)
    requires WellKeyed(store) && id in store && n <= |Spawns(store[id].log)|
             && CollectedBelow(store, id, n, visiting).Some?
    ensures TracedBelow(store, id, CollectedBelow(store, id, n, visiting).value, visiting)
    decreases Left(store, visiting), n
  {
    if n > 0 {
      BelowIsTraced(store, id, n - 1, visiting);
      var c := Spawns(store[id].log)[n - 1].childID;
      CollectedIsTraced(store, c, visiting);
      assert SpawnAt(store, id, n - 1, c);
      OneMoreChild(store, id, CollectedBelow(store, id, n - 1, visiting).value, c, Collected(store, c, visiting).value,
        visiting);
    }
  }

  lemma {:induction false} OneMoreChild(store: Store, id: string, others: seq<string>, c: string, more: seq<string>,
                                        visiting: set<string>)
    requires TracedBelow(store, id, others, visiting) && Traced(store, c, more, visiting)
    requires Child(store, id, c) && store[c].parentID == id
    ensures TracedBelow(store, id, others + more, visiting)
  {
    var all := [id] + (others + more);
    var n := 1 + |others|;
    assert all[..n] == [id] + others && all[n..] == more;
    forall k | 1 <= k < |all|
      ensures ParentBefore(store, all, k)
    {
      if k < n {
        assert ParentBefore(store, [id] + others, k);
        var j :| 0 <= j < k && IsParent(store, [id] + others, j, k);
        assert all[j] == ([id] + others)[j] && all[k] == ([id] + others)[k];
        assert IsParent(store, all, j, k);
      } else if k == n {
        assert IsParent(store, all, 0, k);
      } else {
        assert ParentBefore(store, more, k - n);
        var j :| 0 <= j < k - n && IsParent(store, more, j, k - n);
        assert IsParent(store, all, n + j, k);
      }
    }
  }

  // ---------- Nobody is collected twice ----------

  ghost predicate Distinct(out: seq<string>) {
    forall j, k :: 0 <= j < k < |out| ==> out[j] != out[k]
  }

  lemma {:induction false} ParentIsThere(store: Store, id: string, out: seq<string>, visiting: set<string>,
                                         k: nat) returns (j: nat)
    requires Traced(store, id, out, visiting) && 1 <= k < |out|
    ensures j < k && out[k] in store && out[j] == store[out[k]].parentID && out[j] in out
  {
    assert ParentBefore(store, out, k);
    j :| 0 <= j < k && IsParent(store, out, j, k);
  }

  /** Two siblings' families have nobody in common: going up from a common member would lead from one sibling to the
      parent of the other, and that is on the path. */
  lemma {:induction false} FamiliesAreDisjoint(store: Store, p: string, c: string, out: seq<string>, d: string,
                                               other: seq<string>, visiting: set<string>, k: nat)
    requires Traced(store, c, out, visiting) && Traced(store, d, other, visiting)
    requires p in visiting && c != d && c in store && d in store && store[c].parentID == p && store[d].parentID == p
    requires k < |out|
    ensures out[k] !in other
    decreases k
  {
    if k > 0 {
      var j := ParentIsThere(store, c, out, visiting, k);
      FamiliesAreDisjoint(store, p, c, out, d, other, visiting, j);
    }
    forall l | 0 <= l < |other|
      ensures other[l] != out[k]
    {
      if l > 0 {
        var i := ParentIsThere(store, d, other, visiting, l);
      }
    }
  }

  /** Of the first `n` spawns of `x`, no two have the same child. */
  ghost predicate ChildrenOnce(store: Store, x: string, n: nat) {
    && x in store && n <= |Spawns(store[x].log)|
    && forall j, k :: 0 <= j < k < n ==> Spawns(store[x].log)[j].childID != Spawns(store[x].log)[k].childID
  }

  ghost predicate SpawnsOnce(store: Store, x: string) {
    x in store && ChildrenOnce(store, x, |Spawns(store[x].log)|)
  }

  ghost predicate AllSpawnOnce(store: Store, ids: seq<string>) {
    forall x :: x in ids ==> SpawnsOnce(store, x)
  }

  ghost predicate Disjoint(a: seq<string>, b: seq<string>) {
    forall x :: x in a ==> x !in b
  }

  lemma {:induction false} DistinctParts(a: seq<string>, b: seq<string>)
    requires Distinct(a + b)
    ensures Distinct(a) && Distinct(b) && Disjoint(a, b)
  {
    var all := a + b;
    assert forall i :: 0 <= i < |a| ==> all[i] == a[i];
    forall j, k | 0 <= j < k < |b|
      ensures b[j] != b[k]
    {
      assert all[|a| + j] == b[j] && all[|a| + k] == b[k];
    }
    forall j, k | 0 <= j < |a| && 0 <= k < |b|
      ensures a[j] != b[k]
    {
      assert all[j] == a[j] && all[|a| + k] == b[k];
    }
  }

  lemma {:induction false} DistinctWhole(a: seq<string>, b: seq<string>)
    requires Distinct(a) && Distinct(b) && Disjoint(a, b)
    ensures Distinct(a + b)
  {
    assert forall i :: 0 <= i < |a| ==> a[i] in a;
    assert forall i :: 0 <= i < |b| ==> b[i] in b;
  }

  lemma {:induction false} DistinctSum(a: seq<string>, b: seq<string>)
    ensures Distinct(a + b) <==> Distinct(a) && Distinct(b) && Disjoint(a, b)
  {
    if Distinct(a + b) {
      DistinctParts(a, b);
    } else if Distinct(a) && Distinct(b) && Disjoint(a, b) {
      DistinctWhole(a, b);
    }
  }

  lemma {:induction false} SpawnOnceInSum(store: Store, a: seq<string>, b: seq<string>)
    ensures AllSpawnOnce(store, a + b) <==> AllSpawnOnce(store, a) && AllSpawnOnce(store, b)
  {
    assert forall x :: x in a + b <==> x in a || x in b;
  }

  /** In a store keyed by session ids, nobody is collected twice exactly if no collected session spawned a child
      twice. */
  lemma {:induction false} DistinctIffSpawnedOnce(store: Store, id: string, visiting: set<string>)
    requires WellKeyed(store) && Collected(store, id, visiting).Some?
    ensures var out := Collected(store, id, visiting).value; Distinct(out) <==> AllSpawnOnce(store, out)
    decreases Left(store, visiting), 0
  {
    LeftShrinks(store, visiting, id);
    var n := |Spawns(store[id].log)|;
    var below := CollectedBelow(store, id, n, visiting + {id}).value;
    BelowDistinctIff(store, id, n, visiting + {id});
    BelowIsTraced(store, id, n, visiting + {id});
    DistinctSum([id], below);
    SpawnOnceInSum(store, [id], below);
    assert AllSpawnOnce(store, [id]) <==> SpawnsOnce(store, id);
  }

  lemma {:induction false} BelowDistinctIff(store: Store, id: string, n: nat, visiting: set<string>)
    requires WellKeyed(store) && id in store && id in visiting && n <= |Spawns(store[id].log)|
    requires CollectedBelow(store, id, n, visiting).Some?
    ensures var below := CollectedBelow(store, id, n, visiting).value;
            Distinct(below) <==> ChildrenOnce(store, id, n) && AllSpawnOnce(store, below)
    decreases Left(store, visiting), n
  {
    if n > 0 {
      var c := Spawns(store[id].log)[n - 1].childID;
      var others, more := CollectedBelow(store, id, n - 1, visiting).value, Collected(store, c, visiting).value;
      BelowDistinctIff(store, id, n - 1, visiting);
      DistinctIffSpawnedOnce(store, c, visiting);
      DistinctSum(others, more);
      SpawnOnceInSum(store, others, more);
      SiblingsDisjointIff(store, id, n - 1, visiting);
    }
  }

  /** The family of the next sibling is new exactly if the sibling was not spawned before. */
  lemma {:induction false} SiblingsDisjointIff(store: Store, id: string, n: nat, visiting: set<string>)
    requires WellKeyed(store) && id in store && id in visiting && n < |Spawns(store[id].log)|
    requires CollectedBelow(store, id, n, visiting).Some? && LinkOK(store, store[id], Spawns(store[id].log)[n])
    requires Collected(store, Spawns(store[id].log)[n].childID, visiting).Some?
    ensures var spawns := Spawns(store[id].log);
            Disjoint(CollectedBelow(store, id, n, visiting).value, Collected(store, spawns[n].childID, visiting).value)
            <==> forall j :: 0 <= j < n ==> spawns[j].childID != spawns[n].childID
  {
    var spawns := Spawns(store[id].log);
    var others, more := CollectedBelow(store, id, n, visiting).value,
        Collected(store, spawns[n].childID, visiting).value;
    BelowAreCovered(store, id, n, visiting);
    CollectedIsTraced(store, spawns[n].childID, visiting);
    assert more[0] in more;
    if forall j :: 0 <= j < n ==> spawns[j].childID != spawns[n].childID {
      forall x | x in others
        ensures x !in more
      {
        NewSiblingIsDisjoint(store, id, n, n, visiting, x);
      }
    }
  }

  /** Nobody below the first `m` siblings is in the family of the `n`-th, if that is none of them. */
  lemma {:induction false} NewSiblingIsDisjoint(store: Store, id: string, m: nat, n: nat, visiting: set<string>,
                                                x: string)
    requires WellKeyed(store) && id in store && id in visiting && m <= n < |Spawns(store[id].log)|
    requires forall j :: 0 <= j < m ==> Spawns(store[id].log)[j].childID != Spawns(store[id].log)[n].childID
    requires CollectedBelow(store, id, m, visiting).Some? && x in CollectedBelow(store, id, m, visiting).value
    requires LinkOK(store, store[id], Spawns(store[id].log)[n])
    requires Collected(store, Spawns(store[id].log)[n].childID, visiting).Some?
    ensures x !in Collected(store, Spawns(store[id].log)[n].childID, visiting).value
    decreases m
  {
    if m > 0 {
      var spawns := Spawns(store[id].log);
      var c, d := spawns[m - 1].childID, spawns[n].childID;
      var family := Collected(store, c, visiting).value;
      if x in family {
        var k :| 0 <= k < |family| && family[k] == x;
        CollectedIsTraced(store, c, visiting);
        CollectedIsTraced(store, d, visiting);
        FamiliesAreDisjoint(store, id, c, family, d, Collected(store, d, visiting).value, visiting, k);
      } else {
        NewSiblingIsDisjoint(store, id, m - 1, n, visiting, x);
      }
    }
  }

  /** Where no log repeats a spawn id, nobody is collected twice: children whose links hold differ as their spawn ids
      do. */
  lemma {:induction false} CollectedAreDistinct(store: Store, id: string, visiting: set<string>)
    requires WellKeyed(store) && DistinctSpawnIDs(store) && Collected(store, id, visiting).Some?
    ensures Distinct(Collected(store, id, visiting).value)
  {
    var out := Collected(store, id, visiting).value;
    CollectedAreCovered(store, id, visiting);
    forall x | x in out
      ensures SpawnsOnce(store, x)
    {
      assert Covered(store, x, out[1..]);
    }
    DistinctIffSpawnedOnce(store, id, visiting);
  }

  // ---------- Everybody is collected ----------

  ghost predicate Chain(store: Store, path: seq<string>, id: string, x: string) {
    && path != [] && path[0] == id && path[|path| - 1] == x
    && forall i, j :: 0 <= i && j == i + 1 && j < |path| ==> Child(store, path[i], path[j])
  }

  /** `x` was spawned by `id`, directly or through others, or is `id` itself. */
  ghost predicate Descends(store: Store, id: string, x: string) {
    exists path :: Chain(store, path, id, x)
  }

  lemma {:induction false} DescendsFurther(store: Store, id: string, x: string, c: string)
    requires Descends(store, id, x) && Child(store, x, c)
    ensures Descends(store, id, c)
  {
    var path :| Chain(store, path, id, x);
    assert Chain(store, path + [c], id, c);
  }

  lemma {:induction false} DescendsItself(store: Store, id: string)
    ensures Descends(store, id, id)
  {
    assert Chain(store, [id], id, id);
  }

  lemma {:induction false} CollectedDescend(store: Store, id: string, out: seq<string>, visiting: set<string>, k: nat)
    requires Traced(store, id, out, visiting) && k < |out|
    ensures Descends(store, id, out[k])
    decreases k
  {
    if k == 0 {
      DescendsItself(store, id);
    } else {
      assert ParentBefore(store, out, k);
      var j :| 0 <= j < k && IsParent(store, out, j, k);
      CollectedDescend(store, id, out, visiting, j);
      DescendsFurther(store, id, out[j], out[k]);
    }
  }

  /** All of `x`'s links hold and all it spawned is in `out`. */
  ghost predicate Covered(store: Store, x: string, out: seq<string>) {
    && x in store
    && forall k :: 0 <= k < |Spawns(store[x].log)| ==>
         LinkOK(store, store[x], Spawns(store[x].log)[k]) && Spawns(store[x].log)[k].childID in out
  }

  lemma {:induction false} CollectedAreCovered(store: Store, id: string, visiting: set<string>)
    requires Collected(store, id, visiting).Some?
    ensures var out := Collected(store, id, visiting).value;
            out != [] && out[0] == id && forall x :: x in out ==> Covered(store, x, out[1..])
    decreases Left(store, visiting), 0
  {
    LeftShrinks(store, visiting, id);
    BelowAreCovered(store, id, |Spawns(store[id].log)|, visiting + {id});
  }

  lemma {:induction false} BelowAreCovered(store: Store, id: string, n: nat, visiting: set<string>)
    requires id in store && n <= |Spawns(store[id].log)| && CollectedBelow(store, id, n, visiting).Some?
    ensures var below := CollectedBelow(store, id, n, visiting).value;
            && (forall k :: 0 <= k < n ==>
              LinkOK(store, store[id], Spawns(store[id].log)[k]) && Spawns(store[id].log)[k].childID in below)
            && (forall x :: x in below ==> Covered(store, x, below))
    decreases Left(store, visiting), n
  {
    if n > 0 {
      BelowAreCovered(store, id, n - 1, visiting);
      CollectedAreCovered(store, Spawns(store[id].log)[n - 1].childID, visiting);
    }
  }

  lemma {:induction false} DescendantsAreIn(store: Store, out: seq<string>, path: seq<string>, id: string, x: string)
    requires id in out && (forall y :: y in out ==> Covered(store, y, out))
    requires Chain(store, path, id, x)
    ensures x in out
  {
    if |path| > 1 {
      var most := path[..|path| - 1];
      var before := most[|most| - 1];
      assert Chain(store, most, id, before);
      DescendantsAreIn(store, out, most, id, before);
      assert Child(store, before, x);
      var k :| 0 <= k < |Spawns(store[before].log)| && SpawnAt(store, before, k, x);
    }
  }

  /** A successful traversal collects exactly the sessions descended from its root. */
  lemma {:induction false} CollectedIffDescends(store: Store, id: string)
    requires WellKeyed(store) && Collected(store, id, {}).Some?
    ensures forall x :: x in Collected(store, id, {}).value <==> Descends(store, id, x)
  {
    var out := Collected(store, id, {}).value;
    CollectedIsTraced(store, id, {});
    CollectedAreCovered(store, id, {});
    assert out == [id] + out[1..];
    forall x
      ensures x in out <==> Descends(store, id, x)
    {
      if x in out {
        var k :| 0 <= k < |out| && out[k] == x;
        CollectedDescend(store, id, out, {}, k);
      }
      if path :| Chain(store, path, id, x) {
        DescendantsAreIn(store, out, path, id, x);
      }
    }
  }

  // ---------- When a traversal succeeds ----------

  /** Every descendant's links hold at both ends. */
  ghost predicate LinksHold(store: Store, id: string) {
    forall x, k :: Descends(store, id, x) && x in store && 0 <= k < |Spawns(store[x].log)| ==>
      LinkOK(store, store[x], Spawns(store[x].log)[k])
  }

  /** Some descendant spawned `id` again. */
  ghost predicate Returns(store: Store, id: string) {
    exists x :: Descends(store, id, x) && Child(store, x, id)
  }

  function SetOf(path: seq<string>): set<string> { set x | x in path }

  /** The way down from the root to the session about to be visited. */
  ghost predicate OnTheWay(store: Store, root: string, path: seq<string>, id: string) {
    && Distinct(path) && id in store && Descends(store, root, id)
    && (forall x :: x in path ==> x in store && Descends(store, root, x))
    && (if path == [] then id == root
        else path[0] == root && Child(store, path[|path| - 1], id) && store[id].parentID == path[|path| - 1])
    && (forall i, j :: 0 <= i && j == i + 1 && j < |path| ==> store[path[j]].parentID == path[i])
  }

  /** Since a session has one parent only, a way down can meet itself only at the root. */
  lemma {:induction false} NeverMeetsItself(store: Store, root: string, path: seq<string>, id: string)
    requires OnTheWay(store, root, path, id) && !Returns(store, root)
    ensures id !in path
  {
    forall j | 0 <= j < |path|
      ensures path[j] != id
    {
      var last := |path| - 1;
      assert path[last] in path;
      if j > 0 {
        var i := j - 1;
        assert store[path[j]].parentID == path[i] != path[last];
      }
    }
  }

  lemma {:induction false} OneLevelDown(store: Store, root: string, path: seq<string>, id: string, k: nat)
    requires WellKeyed(store) && OnTheWay(store, root, path, id) && id !in path && LinksHold(store, root)
    requires k < |Spawns(store[id].log)|
    ensures LinkOK(store, store[id], Spawns(store[id].log)[k])
    ensures OnTheWay(store, root, path + [id], Spawns(store[id].log)[k].childID)
    ensures SetOf(path + [id]) == SetOf(path) + {id}
  {
    var c := Spawns(store[id].log)[k].childID;
    assert LinkOK(store, store[id], Spawns(store[id].log)[k]);
    assert SpawnAt(store, id, k, c);
    DescendsFurther(store, root, id, c);
    var further := path + [id];
    forall i, j | 0 <= i && j == i + 1 && j < |further|
      ensures store[further[j]].parentID == further[i]
    {
      if j < |path| {
        assert store[path[j]].parentID == path[i];
      }
    }
  }

  lemma {:induction false} TraversalSucceeds(store: Store, root: string, path: seq<string>, id: string)
    requires WellKeyed(store) && OnTheWay(store, root, path, id) && LinksHold(store, root) && !Returns(store, root)
    ensures Collected(store, id, SetOf(path)).Some?
    decreases Left(store, SetOf(path))
  {
    NeverMeetsItself(store, root, path, id);
    LeftShrinks(store, SetOf(path), id);
    var further, spawns := path + [id], Spawns(store[id].log);
    assert SetOf(further) == SetOf(path) + {id};
    forall k | 0 <= k < |spawns|
      ensures LinkOK(store, store[id], spawns[k]) && Collected(store, spawns[k].childID, SetOf(further)).Some?
    {
      OneLevelDown(store, root, path, id, k);
      TraversalSucceeds(store, root, further, spawns[k].childID);
    }
    BelowSucceeds(store, id, |spawns|, SetOf(further));
  }

  lemma {:induction false} BelowSucceeds(store: Store, id: string, n: nat, visiting: set<string>)
    requires id in store && n <= |Spawns(store[id].log)|
    requires var spawns := Spawns(store[id].log);
             forall k :: 0 <= k < n ==>
                 LinkOK(store, store[id], spawns[k]) && Collected(store, spawns[k].childID, visiting).Some?
    ensures CollectedBelow(store, id, n, visiting).Some?
  {
    if n > 0 {
      BelowSucceeds(store, id, n - 1, visiting);
      OneMoreCollected(store, id, n, visiting);
    }
  }

  /** A traversal succeeds exactly when its root exists, every link below it holds, and no descendant spawned the
      root. */
  lemma {:induction false} SucceedsIff(store: Store, id: string)
    requires WellKeyed(store)
    ensures Collected(store, id, {}).Some? <==> id in store && LinksHold(store, id) && !Returns(store, id)
  {
    assert SetOf([]) == {};
    if Collected(store, id, {}).Some? {
      var out := Collected(store, id, {}).value;
      CollectedAreCovered(store, id, {});
      assert out == [id] + out[1..];
      forall x | Descends(store, id, x)
        ensures x in out && Covered(store, x, out[1..])
      {
        var path :| Chain(store, path, id, x);
        DescendantsAreIn(store, out, path, id, x);
      }
      RootIsNotBelow(store, id);
    } else if id in store && LinksHold(store, id) && !Returns(store, id) {
      DescendsItself(store, id);
      TraversalSucceeds(store, id, [], id);
    }
  }

  lemma {:induction false} RootIsNotBelow(store: Store, id: string)
    requires WellKeyed(store) && Collected(store, id, {}).Some?
    ensures id !in Collected(store, id, {}).value[1..]
  {
    BelowIsTraced(store, id, |Spawns(store[id].log)|, {} + {id});
  }

  // ---------- The tree ----------

  datatype Tree = Tree(id: string, branches: seq<Branch>)

  datatype Branch = Branch(spawnID: string, status: string, tree: Tree)

  /** The statuses of the results recorded for one spawn. */
  function ResultsFor(log: seq<Event>, spawnID: string): seq<string> {
    if log == [] then []
    else
      var b := log[|log| - 1].body;
      ResultsFor(log[..|log| - 1], spawnID) + if b.AgentResult? && b.spawnID == spawnID then [b.status] else []
  }

  /** The last status reported for one spawn, or "open". */
  function LastStatus(log: seq<Event>, spawnID: string): string {
    if log == [] then "open"
    else
      var b := log[|log| - 1].body;
      if b.AgentStatus? && b.spawnID == spawnID then b.status else LastStatus(log[..|log| - 1], spawnID)
  }

  /** How a spawn stands: as its one result says, else as its last status says; none if it has several results. */
  function StatusOf(log: seq<Event>, spawnID: string): Option<string> {
    var results := ResultsFor(log, spawnID);
    if |results| > 1 then None else Some(if results == [] then LastStatus(log, spawnID) else results[0])
  }

  ghost function TreeOf(store: Store, id: string, visiting: set<string>): Option<Tree>
    decreases Left(store, visiting), 0
  {
    if id in visiting || id !in store then None
    else
      LeftShrinks(store, visiting, id);
      match TreeBelow(store, id, |Spawns(store[id].log)|, visiting + {id})
      case None => None
      case Some(branches) => Some(Tree(store[id].id, branches))
  }

  ghost function TreeBelow(store: Store, id: string, n: nat, visiting: set<string>): Option<seq<Branch>>
    requires id in store && n <= |Spawns(store[id].log)|
    decreases Left(store, visiting), n
  {
    if n == 0 then Some([])
    else
      var spawn := Spawns(store[id].log)[n - 1];
      match TreeBelow(store, id, n - 1, visiting)
      case None => None
      case Some(others) =>
        if !LinkOK(store, store[id], spawn) then None
        else match (TreeOf(store, spawn.childID, visiting), StatusOf(store[id].log, spawn.spawnID))
          case (Some(tree), Some(status)) => Some(others + [Branch(spawn.spawnID, status, tree)])
          case _ => None
  }

  ghost function BranchOf(store: Store, id: string, spawn: Body, visiting: set<string>): Option<Branch>
    requires id in store && spawn.AgentSpawn?
  {
    var tree, status := TreeOf(store, spawn.childID, visiting), StatusOf(store[id].log, spawn.spawnID);
    if !LinkOK(store, store[id], spawn) || tree == None || status == None then None
    else Some(Branch(spawn.spawnID, status.value, tree.value))
  }

  /** The sessions of a tree, parents first. */
  function Preorder(t: Tree): seq<string> {
    [t.id] + PreorderAll(t.branches)
  }

  function PreorderAll(branches: seq<Branch>): seq<string> {
    if branches == [] then []
    else PreorderAll(branches[..|branches| - 1]) + Preorder(branches[|branches| - 1].tree)
  }

  /** A tree mirrors a session: one branch per spawn, in order, with the spawn's id, how it stands, and the tree of the
      child it names. */
  ghost predicate Mirrors(store: Store, id: string, t: Tree)
    decreases t
  {
    && id in store && t.id == store[id].id && |t.branches| == |Spawns(store[id].log)|
    && forall k :: 0 <= k < |t.branches| ==> MirrorsSpawn(store, id, Spawns(store[id].log)[k], t.branches[k])
  }

  ghost predicate MirrorsSpawn(store: Store, id: string, spawn: Body, b: Branch)
    requires id in store && spawn.AgentSpawn?
    decreases b
  {
    && b.spawnID == spawn.spawnID && StatusOf(store[id].log, spawn.spawnID) == Some(b.status)
    && LinkOK(store, store[id], spawn) && Mirrors(store, spawn.childID, b.tree)
  }

  ghost predicate MirrorsBelow(store: Store, id: string, n: nat, branches: seq<Branch>)
    requires id in store && n <= |Spawns(store[id].log)|
  {
    |branches| == n && forall k :: 0 <= k < n ==> MirrorsSpawn(store, id, Spawns(store[id].log)[k], branches[k])
  }

  lemma {:induction false} TreeMirrors(store: Store, id: string, visiting: set<string>)
    ensures TreeOf(store, id, visiting).Some? ==> Mirrors(store, id, TreeOf(store, id, visiting).value)
    decreases Left(store, visiting), 0
  {
    if TreeOf(store, id, visiting).Some? {
      LeftShrinks(store, visiting, id);
      BranchesMirror(store, id, |Spawns(store[id].log)|, visiting + {id});
    }
  }

  lemma {:induction false} BranchesMirror(store: Store, id: string, n: nat, visiting: set<string>)
    requires id in store && n <= |Spawns(store[id].log)|
    ensures TreeBelow(store, id, n, visiting).Some? ==>
              MirrorsBelow(store, id, n, TreeBelow(store, id, n, visiting).value)
    decreases Left(store, visiting), n + 1
  {
    if n > 0 && TreeBelow(store, id, n, visiting).Some? {
      BranchesMirror(store, id, n - 1, visiting);
      TreeMirrors(store, Spawns(store[id].log)[n - 1].childID, visiting);
    }
  }

  /** No spawn of this session has several results. */
  ghost predicate Settled(store: Store, x: string) {
    x in store && forall k :: 0 <= k < |Spawns(store[x].log)| ==>
      StatusOf(store[x].log, Spawns(store[x].log)[k].spawnID).Some?
  }

  /** The tree holds exactly the collected sessions, in the same order; it exists unless some spawn has several
      results. */
  lemma {:induction false} TreeIsCollected(store: Store, id: string, visiting: set<string>)
    requires WellKeyed(store)
    ensures TreeOf(store, id, visiting).Some? <==>
              Collected(store, id, visiting).Some? && AllSettled(store, Collected(store, id, visiting).value)
    ensures TreeOf(store, id, visiting).Some? ==>
            Preorder(TreeOf(store, id, visiting).value) == Collected(store, id, visiting).value
    decreases Left(store, visiting), 0
  {
    if id in store && id !in visiting {
      LeftShrinks(store, visiting, id);
      var n := |Spawns(store[id].log)|;
      BranchesAreCollected(store, id, n, visiting + {id});
      assert SettledUpTo(store, id, n) <==> Settled(store, id);
      if Collected(store, id, visiting).Some? {
        AllSettledInSum(store, [id], CollectedBelow(store, id, n, visiting + {id}).value);
      }
    }
  }

  ghost predicate AllSettled(store: Store, ids: seq<string>) {
    forall x :: x in ids ==> Settled(store, x)
  }

  lemma {:induction false} AllSettledInSum(store: Store, a: seq<string>, b: seq<string>)
    ensures AllSettled(store, a + b) <==> AllSettled(store, a) && AllSettled(store, b)
  {
    if AllSettled(store, a + b) {
      assert forall x :: x in a ==> x in a + b;
      assert forall x :: x in b ==> x in a + b;
    }
  }

  ghost predicate SettledUpTo(store: Store, x: string, n: nat) {
    && x in store && n <= |Spawns(store[x].log)|
    && forall k :: 0 <= k < n ==> StatusOf(store[x].log, Spawns(store[x].log)[k].spawnID).Some?
  }

  /** Where the tree and the collected sessions agree, and exist together. */
  ghost predicate TreeMatches(branches: Option<seq<Branch>>, ids: Option<seq<string>>, settled: bool) {
    && (branches.Some? <==> ids.Some? && settled)
    && (branches.Some? ==> PreorderAll(branches.value) == ids.value)
  }

  ghost predicate BelowSettled(store: Store, id: string, n: nat, visiting: set<string>)
    requires id in store && n <= |Spawns(store[id].log)|
  {
    && SettledUpTo(store, id, n) && CollectedBelow(store, id, n, visiting).Some?
    && AllSettled(store, CollectedBelow(store, id, n, visiting).value)
  }

  lemma {:induction false} PreorderOneMore(others: seq<Branch>, b: Branch)
    ensures PreorderAll(others + [b]) == PreorderAll(others) + Preorder(b.tree)
  {
    assert (others + [b])[..|others|] == others;
  }

  /** One spawn more is settled exactly if the others are, it has a status, and all collected below it are settled. */
  lemma {:induction false} OneMoreSettled(store: Store, id: string, n: nat, visiting: set<string>)
    requires id in store && 0 < n <= |Spawns(store[id].log)|
    ensures var spawn := Spawns(store[id].log)[n - 1];
            var more := Collected(store, spawn.childID, visiting);
            BelowSettled(store, id, n, visiting) <==>
              && BelowSettled(store, id, n - 1, visiting) && LinkOK(store, store[id], spawn)
              && StatusOf(store[id].log, spawn.spawnID).Some? && more.Some? && AllSettled(store, more.value)
  {
    var spawn := Spawns(store[id].log)[n - 1];
    var others, more := CollectedBelow(store, id, n - 1, visiting), Collected(store, spawn.childID, visiting);
    assert SettledUpTo(store, id, n) <==> SettledUpTo(store, id, n - 1) && StatusOf(store[id].log, spawn.spawnID).Some?;
    if others.Some? && more.Some? {
      AllSettledInSum(store, others.value, more.value);
    }
  }

  /** One branch more exists exactly if the others do, its link holds, and it has a tree and a status. */
  lemma {:induction false} OneMoreBranch(store: Store, id: string, n: nat, visiting: set<string>)
    requires id in store && 0 < n <= |Spawns(store[id].log)|
    ensures var spawn := Spawns(store[id].log)[n - 1];
            var others, tree := TreeBelow(store, id, n - 1, visiting), TreeOf(store, spawn.childID, visiting);
            var all := TreeBelow(store, id, n, visiting);
            && (all.Some? <==>
              others.Some? && LinkOK(store, store[id], spawn) && tree.Some?
                && StatusOf(store[id].log, spawn.spawnID).Some?)
            && (all.Some? ==> PreorderAll(all.value) == PreorderAll(others.value) + Preorder(tree.value))
  {
    var spawn := Spawns(store[id].log)[n - 1];
    var others, tree := TreeBelow(store, id, n - 1, visiting), TreeOf(store, spawn.childID, visiting);
    var status := StatusOf(store[id].log, spawn.spawnID);
    if others.Some? && tree.Some? && status.Some? {
      PreorderOneMore(others.value, Branch(spawn.spawnID, status.value, tree.value));
    }
  }

  ghost predicate TreeAgrees(tree: Option<Tree>, ids: Option<seq<string>>, settled: bool) {
    && (tree.Some? <==> ids.Some? && settled)
    && (tree.Some? ==> Preorder(tree.value) == ids.value)
  }

  ghost predicate CollectedSettled(store: Store, id: string, visiting: set<string>) {
    Collected(store, id, visiting).Some? && AllSettled(store, Collected(store, id, visiting).value)
  }

  lemma {:induction false} BranchesAreCollected(store: Store, id: string, n: nat, visiting: set<string>)
    requires WellKeyed(store) && id in store && n <= |Spawns(store[id].log)|
    ensures TreeMatches(TreeBelow(store, id, n, visiting), CollectedBelow(store, id, n, visiting),
            BelowSettled(store, id, n, visiting))
    decreases Left(store, visiting), n
  {
    if n > 0 {
      var child := Spawns(store[id].log)[n - 1].childID;
      BranchesAreCollected(store, id, n - 1, visiting);
      TreeIsCollected(store, child, visiting);
      assert TreeAgrees(TreeOf(store, child, visiting), Collected(store, child, visiting),
          CollectedSettled(store, child, visiting));
      BranchAgrees(store, id, n, visiting);
    }
  }

  lemma {:induction false} BranchAgrees(store: Store, id: string, n: nat, visiting: set<string>)
    requires id in store && 0 < n <= |Spawns(store[id].log)|
    requires TreeMatches(TreeBelow(store, id, n - 1, visiting), CollectedBelow(store, id, n - 1, visiting),
             BelowSettled(store, id, n - 1, visiting))
    requires var child := Spawns(store[id].log)[n - 1].childID;
             TreeAgrees(TreeOf(store, child, visiting), Collected(store, child, visiting),
               CollectedSettled(store, child, visiting))
    ensures TreeMatches(TreeBelow(store, id, n, visiting), CollectedBelow(store, id, n, visiting),
            BelowSettled(store, id, n, visiting))
  {
    OneMoreSettled(store, id, n, visiting);
    OneMoreBranch(store, id, n, visiting);
    OneMoreCollected(store, id, n, visiting);
  }

  // ---------- Usage ----------

  datatype Totals = Totals(prompt: nat, completion: nat, total: nat) {
    function Plus(t: Totals): Totals {
      Totals(prompt + t.prompt, completion + t.completion, total + t.total)
    }
  }

  const NOTHING := Totals(0, 0, 0)

  /** What a message or a result reports; the total is the sum if none is reported. */
  function UsageOf(b: Body): (t: Totals)
    ensures b.AssistantMessage? || b.AgentResult? ==>
              && t.prompt == b.usage.input && t.completion == b.usage.output
              && (b.usage.total > 0 ==> t.total == b.usage.total)
              && (b.usage.total == 0 ==> t.total == t.prompt + t.completion)
    ensures !b.AssistantMessage? && !b.AgentResult? ==> t == NOTHING
  {
    match b
    case AssistantMessage(_, _, u) => Totals(u.input, u.output, if u.total > 0 then u.total else u.input + u.output)
    case AgentResult(_, _, u) => Totals(u.input, u.output, if u.total > 0 then u.total else u.input + u.output)
    case _ => NOTHING
  }

  function UsageUpTo(log: seq<Event>, n: nat): Totals
    requires n <= |log|
  {
    if n == 0 then NOTHING else UsageUpTo(log, n - 1).Plus(UsageOf(log[n - 1].body))
  }

  function LogUsage(log: seq<Event>): Totals { UsageUpTo(log, |log|) }

  function UsageOfAll(store: Store, ids: seq<string>): Totals
    requires forall x :: x in ids ==> x in store
  {
    if ids == [] then NOTHING
    else UsageOfAll(store, ids[..|ids| - 1]).Plus(LogUsage(store[ids[|ids| - 1]].log))
  }

  method AddLog(total: Totals, log: seq<Event>) returns (r: Totals)
    ensures r == total.Plus(LogUsage(log))
  {
    r := total;
    for i := 0 to |log|
      invariant r == total.Plus(UsageUpTo(log, i))
    {
      r := r.Plus(UsageOf(log[i].body));
    }
  }

  /** Only stored sessions are collected. */
  lemma {:induction false} CollectedAreStored(store: Store, id: string, visiting: set<string>)
    ensures Collected(store, id, visiting).Some? ==>
            forall x :: x in Collected(store, id, visiting).value ==> x in store
    decreases Left(store, visiting), 0
  {
    if id in store && id !in visiting {
      LeftShrinks(store, visiting, id);
      BelowAreStored(store, id, |Spawns(store[id].log)|, visiting + {id});
    }
  }

  lemma {:induction false} BelowAreStored(store: Store, id: string, n: nat, visiting: set<string>)
    requires id in store && n <= |Spawns(store[id].log)|
    ensures var below := CollectedBelow(store, id, n, visiting);
            below.Some? ==> forall x :: x in below.value ==> x in store
    decreases Left(store, visiting), n
  {
    if n > 0 {
      BelowAreStored(store, id, n - 1, visiting);
      CollectedAreStored(store, Spawns(store[id].log)[n - 1].childID, visiting);
    }
  }

  method DescendantUsage(store: Store, id: string) returns (r: Result<Totals, DelegationError>)
    ensures r.Success? <==> Collected(store, id, {}).Some?
    ensures r.Success? ==>
              (forall x :: x in Collected(store, id, {}).value ==> x in store)
              && r.value == UsageOfAll(store, Collected(store, id, {}).value)
  {
    var traversal := new Traversal(store);
    var sessions := traversal.CollectDescendants(id);
    if sessions.Failure? {
      return Failure(sessions.error);
    }
    var ids := sessions.value;
    CollectedAreStored(store, id, {});
    var total := NOTHING;
    for i := 0 to |ids|
      invariant total == UsageOfAll(store, ids[..i])
    {
      assert ids[..i + 1][..i] == ids[..i];
      total := AddLog(total, store[ids[i]].log);
    }
    assert ids[..|ids|] == ids;
    return Success(total);
  }

  /** The usage of a set of sessions, each counted once. */
  ghost function UsageOfSet(store: Store, s: set<string>): Totals
    requires s <= store.Keys
  {
    if s == {} then NOTHING
    else
      var x :| x in s;
      UsageOfSet(store, s - {x}).Plus(LogUsage(store[x].log))
  }

  lemma {:induction false} PlusCommutes(a: Totals, b: Totals, c: Totals)
    ensures a.Plus(b).Plus(c) == a.Plus(c).Plus(b)
  {}

  /** It does not matter which session is counted first. */
  lemma {:induction false} CountAny(store: Store, s: set<string>, x: string)
    requires s <= store.Keys && x in s
    ensures UsageOfSet(store, s) == UsageOfSet(store, s - {x}).Plus(LogUsage(store[x].log))
    decreases s
  {
    var y :| y in s && UsageOfSet(store, s) == UsageOfSet(store, s - {y}).Plus(LogUsage(store[y].log));
    if y != x {
      var rest := s - {x} - {y};
      assert s - {y} - {x} == rest;
      CountAny(store, s - {y}, x);
      CountAny(store, s - {x}, y);
      PlusCommutes(UsageOfSet(store, rest), LogUsage(store[x].log), LogUsage(store[y].log));
    }
  }

  lemma {:induction false} SetOfLast(ids: seq<string>, most: seq<string>, last: string)
    requires ids == most + [last] && Distinct(ids)
    ensures Distinct(most) && SetOf(ids) == SetOf(most) + {last} && SetOf(ids) - {last} == SetOf(most)
  {
    assert forall i :: 0 <= i < |most| ==> ids[i] == most[i];
    assert ids[|most|] == last && last !in most;
  }

  lemma {:induction false} DistinctAreCountedOnce(store: Store, ids: seq<string>)
    requires Distinct(ids) && forall x :: x in ids ==> x in store
    ensures SetOf(ids) <= store.Keys && UsageOfAll(store, ids) == UsageOfSet(store, SetOf(ids))
  {
    if ids != [] {
      var most, last := ids[..|ids| - 1], ids[|ids| - 1];
      assert ids == most + [last];
      SetOfLast(ids, most, last);
      DistinctAreCountedOnce(store, most);
      CountAny(store, SetOf(ids), last);
    }
  }

  /** The reported usage is the sum over the descendants as a set: no session is counted twice and none is left out. */
  lemma {:induction false} UsageCountsEachOnce(store: Store, id: string, descendants: set<string>)
    requires WellKeyed(store) && Collected(store, id, {}).Some?
    requires forall x :: x in descendants <==> Descends(store, id, x)
    requires forall x :: x in descendants ==> SpawnsOnce(store, x)
    ensures descendants <= store.Keys && forall x :: x in Collected(store, id, {}).value ==> x in store
    ensures UsageOfAll(store, Collected(store, id, {}).value) == UsageOfSet(store, descendants)
  {
    CollectedIsTraced(store, id, {});
    CollectedIffDescends(store, id);
    DistinctIffSpawnedOnce(store, id, {});
    DistinctAreCountedOnce(store, Collected(store, id, {}).value);
    assert SetOf(Collected(store, id, {}).value) == descendants;
  }

  // ---------- Whose tokens are counted ----------

  datatype Kind = Prompt | Completion | Total

  function Of(t: Totals, kind: Kind): nat {
    match kind
    case Prompt => t.prompt
    case Completion => t.completion
    case Total => t.total
  }

  /** Tokens the models themselves reported, with their messages. */
  function OwnTokens(log: seq<Event>, n: nat, kind: Kind): nat
    requires n <= |log|
  {
    if n == 0 then 0
    else OwnTokens(log, n - 1, kind) + if log[n - 1].body.AssistantMessage? then
        Of(UsageOf(log[n - 1].body), kind) else 0
  }

  /** Tokens that the results of children's runs repeat. */
  function RepeatedTokens(log: seq<Event>, n: nat, kind: Kind): nat
    requires n <= |log|
  {
    if n == 0 then 0
    else RepeatedTokens(log, n - 1, kind) + if log[n - 1].body.AgentResult? then
        Of(UsageOf(log[n - 1].body), kind) else 0
  }

  function OwnTokensOfAll(store: Store, ids: seq<string>, kind: Kind): nat
    requires forall x :: x in ids ==> x in store
  {
    if ids == [] then 0
    else
      var log := store[ids[|ids| - 1]].log;
      OwnTokensOfAll(store, ids[..|ids| - 1], kind) + OwnTokens(log, |log|, kind)
  }

  function RepeatedTokensOfAll(store: Store, ids: seq<string>, kind: Kind): nat
    requires forall x :: x in ids ==> x in store
  {
    if ids == [] then 0
    else
      var log := store[ids[|ids| - 1]].log;
      RepeatedTokensOfAll(store, ids[..|ids| - 1], kind) + RepeatedTokens(log, |log|, kind)
  }

  /** None of the first `n` events is a result that carries tokens of the kind. */
  ghost predicate Silent(log: seq<Event>, n: nat, kind: Kind)
    requires n <= |log|
  {
    forall i :: 0 <= i < n && log[i].body.AgentResult? ==> Of(UsageOf(log[i].body), kind) == 0
  }

  ghost predicate AllSilent(store: Store, ids: seq<string>, kind: Kind)
    requires forall x :: x in ids ==> x in store
  {
    forall x :: x in ids ==> Silent(store[x].log, |store[x].log|, kind)
  }

  lemma {:induction false} LogSplits(log: seq<Event>, n: nat, kind: Kind)
    requires n <= |log|
    ensures Of(UsageUpTo(log, n), kind) == OwnTokens(log, n, kind) + RepeatedTokens(log, n, kind)
  {
    if n > 0 {
      LogSplits(log, n - 1, kind);
    }
  }

  lemma {:induction false} NothingRepeatedIff(log: seq<Event>, n: nat, kind: Kind)
    requires n <= |log|
    ensures RepeatedTokens(log, n, kind) == 0 <==> Silent(log, n, kind)
  {
    if n > 0 {
      NothingRepeatedIff(log, n - 1, kind);
    }
  }

  /** The total is what the models reported and, on top, whatever the results in the collected sessions repeat. So it is
      what the models reported exactly when no collected result carries tokens. */
  lemma {:induction false} RepeatedTokensCountAgain(store: Store, ids: seq<string>, kind: Kind)
    requires forall x :: x in ids ==> x in store
    ensures Of(UsageOfAll(store, ids), kind) == OwnTokensOfAll(store, ids, kind) + RepeatedTokensOfAll(store, ids, kind)
    ensures Of(UsageOfAll(store, ids), kind) == OwnTokensOfAll(store, ids, kind) <==> AllSilent(store, ids, kind)
  {
    if ids != [] {
      var most, last := ids[..|ids| - 1], ids[|ids| - 1];
      assert ids == most + [last];
      RepeatedTokensCountAgain(store, most, kind);
      LogSplits(store[last].log, |store[last].log|, kind);
      NothingRepeatedIff(store[last].log, |store[last].log|, kind);
      assert AllSilent(store, ids, kind) <==>
          AllSilent(store, most, kind) && Silent(store[last].log, |store[last].log|, kind);
    }
  }
}
