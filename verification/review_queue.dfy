/** The manual-review queue (`ValidationQueueService` and
    `PrescriptionValidator::queueForReview` in
    src/services/validation/PrescriptionValidator.php). The store keeps two
    structures: a hash from id to item and a list of pending ids. Both are
    values here, and every operation returns the new state. The id generator
    and the clock are parameters. */
module ReviewQueue {
  import opened Wrappers
  import opened Search
  import opened Validation

  type Id = string

  datatype Status = PendingReview | Approved

  /** What a caller hands to `add`. */
  datatype Submission = Submission(prescriptionData: Validated, timestamp: int, status: Status)

  /** A stored item: the submission with its id and, once approved, the
      reviewer's corrections and the approval time. */
  datatype Item = Item(
    id: Id,
    prescriptionData: Validated,
    timestamp: int,
    status: Status,
    corrections: Option<map<string, string>>,
    approvedAt: Option<int>)

  /** The `validation_queue` hash and the `validation_pending` list. */
  datatype QueueState = QueueState(store: map<Id, Item>, pending: seq<Id>)

  const NotFound: string := "Validation item not found"

  /** An id the generator may hand out: used by neither structure. */
  predicate Fresh(q: QueueState, id: Id) {
    id !in q.store && id !in q.pending
  }

  /** Every pending id has a stored item, and every item is stored under its
      own id. */
  predicate Consistent(q: QueueState) {
    && (forall id :: id in q.store ==> q.store[id].id == id)
    && (forall i :: 0 <= i < |q.pending| ==> q.pending[i] in q.store)
  }

  /** `add`: store the submission under `id` and append `id` to the pending list. */
  function Add(q: QueueState, id: Id, s: Submission): (r: QueueState)
    ensures r.store.Keys == q.store.Keys + {id}
    ensures r.store[id] == Item(id, s.prescriptionData, s.timestamp, s.status, None, None)
    ensures forall k :: k in q.store && k != id ==> r.store[k] == q.store[k]
    ensures r.pending == q.pending + [id]
  {
    QueueState(q.store[id := Item(id, s.prescriptionData, s.timestamp, s.status, None, None)], q.pending + [id])
  }

  /** `queueForReview`: add the validated record, stamped now, as pending review. */
  function QueueForReview(q: QueueState, id: Id, data: Validated, now: int): (r: (Id, QueueState))
    ensures r.0 == id
    ensures id in r.1.store && r.1.store[id].prescriptionData == data
    ensures r.1.store[id].status == PendingReview && r.1.store[id].timestamp == now
    ensures r.1.pending == q.pending + [id]
  {
    (id, Add(q, id, Submission(data, now, PendingReview)))
  }

  /** The stored item for a pending id; `None` when the hash has no entry. */
  function Lookup(q: QueueState): Id -> Option<Item> {
    (id: Id) => if id in q.store then Some(q.store[id]) else None
  }

  /** `getPending`: the stored items for the pending ids, in list order,
      skipping ids whose item is gone. */
  function GetPending(q: QueueState): (items: seq<Item>)
    ensures |items| <= |q.pending|
    ensures var o := Kept(q.pending, Lookup(q));
      && |o| == |items|
      && (forall j :: 0 <= j < |o| ==> o[j] < |q.pending| && q.pending[o[j]] in q.store && items[j] == q.store[q.pending[o[j]]])
      && (forall j, k :: 0 <= j < k < |o| ==> o[j] < o[k])
      && (forall i :: 0 <= i < |q.pending| && q.pending[i] in q.store ==> i in o)
  {
    var o := Kept(q.pending, Lookup(q));
    assert forall i :: 0 <= i < |q.pending| && q.pending[i] in q.store ==> Lookup(q)(q.pending[i]).Some?;
    FilterMap(q.pending, Lookup(q))
  }

  function Other(id: Id): Id -> Option<Id> {
    (x: Id) => if x == id then None else Some(x)
  }

  /** `lrem(key, 0, id)`: every occurrence of `id` leaves the list; the other
      ids stay, each copy in its place relative to the others. `Kept` gives
      the position in `xs` each remaining id comes from. */
  function RemoveAll(xs: seq<Id>, id: Id): (r: seq<Id>)
    ensures id !in r
    ensures forall x :: x != id ==> (x in r <==> x in xs)
    ensures id !in xs ==> r == xs
    ensures var o := Kept(xs, Other(id));
      && |o| == |r|
      && (forall j :: 0 <= j < |o| ==> o[j] < |xs| && xs[o[j]] != id && r[j] == xs[o[j]])
      && (forall j, k :: 0 <= j < k < |o| ==> o[j] < o[k])
      && (forall i :: 0 <= i < |xs| && xs[i] != id ==> i in o)
  {
    RemoveAllSpec(xs, id);
    var o := Kept(xs, Other(id));
    assert forall i :: 0 <= i < |xs| && xs[i] != id ==> Other(id)(xs[i]).Some?;
    FilterMap(xs, Other(id))
  }

  lemma {:induction false} RemoveAllSpec(xs: seq<Id>, id: Id)
    ensures id !in FilterMap(xs, Other(id))
    ensures forall x :: x != id ==> (x in FilterMap(xs, Other(id)) <==> x in xs)
    ensures id !in xs ==> FilterMap(xs, Other(id)) == xs
    decreases |xs|
  {
    if xs != [] {
      RemoveAllSpec(xs[1..], id);
      assert xs == [xs[0]] + xs[1..];
    }
  }

  /** What `approve` returns: the updated item and the new state. */
  datatype Approval = Approval(item: Item, state: QueueState)

  /** `approve`: an unknown id fails with "Validation item not found";
      otherwise the item is marked approved with the corrections and the
      time attached, written back, and its id leaves the pending list. */
  function Approve(q: QueueState, id: Id, corrections: map<string, string>, now: int): (r: Result<Approval, string>)
    ensures id in q.store <==> r.Success?
    ensures r.Failure? ==> r.error == NotFound
    ensures r.Success? ==>
      var item := r.value.item;
      && item.status == Approved && item.corrections == Some(corrections) && item.approvedAt == Some(now)
      && item.id == q.store[id].id
      && item.prescriptionData == q.store[id].prescriptionData
      && item.timestamp == q.store[id].timestamp
      && r.value.state.store.Keys == q.store.Keys
      && r.value.state.store[id] == item
      && (forall k :: k in q.store && k != id ==> r.value.state.store[k] == q.store[k])
      && r.value.state.pending == RemoveAll(q.pending, id)
  {
    if id !in q.store then Failure(NotFound)
    else
      var item := q.store[id].(status := Approved, corrections := Some(corrections), approvedAt := Some(now));
      Success(Approval(item, QueueState(q.store[id := item], RemoveAll(q.pending, id))))
  }

  /** The empty queue is consistent, and both operations keep it so. */
  lemma ConsistentPreserved(q: QueueState, id: Id, s: Submission, corrections: map<string, string>, now: int)
    requires Consistent(q)
    ensures Consistent(QueueState(map[], []))
    ensures Consistent(Add(q, id, s))
    ensures Approve(q, id, corrections, now).Success? ==> Consistent(Approve(q, id, corrections, now).value.state)
  {
    var r := Add(q, id, s);
    assert forall i :: 0 <= i < |r.pending| ==> r.pending[i] == id || r.pending[i] == q.pending[i];
    var a := Approve(q, id, corrections, now);
    if a.Success? {
      var p := a.value.state.pending;
      forall i | 0 <= i < |p|
        ensures p[i] in a.value.state.store
      {
        assert p[i] in p;
      }
    }
  }

  /** `getPending` right after `add` with a fresh id lists what it listed
      before, then the new item. */
  lemma GetPendingAfterAdd(q: QueueState, id: Id, s: Submission)
    requires Fresh(q, id)
    ensures GetPending(Add(q, id, s)) == GetPending(q) + [Add(q, id, s).store[id]]
  {
    var r := Add(q, id, s);
    FilterMapAppend(q.pending, [id], Lookup(r));
    LookupAgrees(q.pending, q, r);
    assert [id][1..] == [];
  }

  /** Two states that agree on the stored items of every id in `xs` list
      the same pending items. */
  lemma {:induction false} LookupAgrees(xs: seq<Id>, q: QueueState, r: QueueState)
    requires forall i :: 0 <= i < |xs| ==> (xs[i] in q.store <==> xs[i] in r.store)
    requires forall i :: 0 <= i < |xs| && xs[i] in q.store ==> q.store[xs[i]] == r.store[xs[i]]
    ensures FilterMap(xs, Lookup(q)) == FilterMap(xs, Lookup(r))
    decreases |xs|
  {
    if xs != [] {
      LookupAgrees(xs[1..], q, r);
    }
  }

  /** Approving an item just added with a fresh id gives back its data,
      approved, and restores the pending list it joined. */
  lemma ApproveAfterAdd(q: QueueState, id: Id, s: Submission, corrections: map<string, string>, now: int)
    requires Fresh(q, id)
    ensures var a := Approve(Add(q, id, s), id, corrections, now);
      && a.Success?
      && a.value.item == Item(id, s.prescriptionData, s.timestamp, Approved, Some(corrections), Some(now))
      && a.value.state.pending == q.pending
  {
    var r := Add(q, id, s);
    FilterMapAppend(q.pending, [id], Other(id));
    RemoveAllSpec(q.pending, id);
    assert [id][1..] == [];
  }

  /** An id queued twice is cleared by one approval. */
  lemma ApproveRemovesEveryCopy(item: Item, now: int)
    ensures var q := QueueState(map[item.id := item], [item.id, item.id]);
      var a := Approve(q, item.id, map[], now);
      a.Success? && a.value.state.pending == [] && GetPending(a.value.state) == []
  {
    var ids := [item.id, item.id];
    assert ids[1..] == [item.id];
    assert FilterMap(ids, Other(item.id)) == [];
  }

  /** Approving again overwrites the earlier corrections and time. */
  lemma ReapprovalOverwrites(q: QueueState, id: Id, c1: map<string, string>, t1: int, c2: map<string, string>, t2: int)
    requires id in q.store
    ensures var a1 := Approve(q, id, c1, t1);
      var a2 := Approve(a1.value.state, id, c2, t2);
      a2.Success? && a2.value.item.corrections == Some(c2) && a2.value.item.approvedAt == Some(t2)
  {
  }
}
