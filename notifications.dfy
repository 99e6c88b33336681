/** The notification queue of the store's `appState`: most recent entry first,
    ids taken from the clock (so two entries may share one). */
module Notifications {

  datatype Kind = Info | Success | Error

  datatype Notification = Notification(id: int, message: string, kind: Kind, timestamp: int)

  /** The multiset of ids in a queue. */
  function Ids(q: seq<Notification>): multiset<int>
  {
    if q == [] then multiset{} else multiset{q[0].id} + Ids(q[1..])
  }

  /** `findIndex(n => n.id === id)`: the first position holding `id`, or -1. */
  function FindIndex(q: seq<Notification>, id: int): (r: int)
    ensures -1 <= r < |q|
    ensures r == -1 <==> forall i :: 0 <= i < |q| ==> q[i].id != id
    ensures 0 <= r ==> q[r].id == id && forall i :: 0 <= i < r ==> q[i].id != id
  {
    if q == [] then -1
    else if q[0].id == id then 0
    else
      var k := FindIndex(q[1..], id);
      if k == -1 then -1 else k + 1
  }

  /** Reference definition of removal: drop the first entry carrying `id`, keep the rest in order. */
  function RemoveFirst(q: seq<Notification>, id: int): seq<Notification>
  {
    if q == [] then []
    else if q[0].id == id then q[1..]
    else [q[0]] + RemoveFirst(q[1..], id)
  }

  /** What `removeNotification` does (`findIndex`, then `splice(index, 1)` when `index > -1`)
      is the reference removal. */
  lemma {:induction false} SpliceIsRemoveFirst(q: seq<Notification>, id: int)
    ensures var k := FindIndex(q, id);
      RemoveFirst(q, id) == if k == -1 then q else q[..k] + q[k + 1..]
  {
    if q != [] && q[0].id != id {
      var t := q[1..];
      SpliceIsRemoveFirst(t, id);
      assert [q[0]] + t == q;
      var k := FindIndex(t, id);
      if k != -1 {
        PrependSplice(q[0], t, k);
      }
    }
  }

  /** Splicing one position out of a queue commutes with putting an entry in front. */
  lemma PrependSplice(x: Notification, t: seq<Notification>, k: nat)
    requires k < |t|
    ensures [x] + (t[..k] + t[k + 1..]) == ([x] + t)[..k + 1] + ([x] + t)[k + 2..]
  {
    assert ([x] + t)[..k + 1] == [x] + t[..k];
    assert ([x] + t)[k + 2..] == t[k + 1..];
  }

  lemma {:induction false} IdsOfPrepend(n: Notification, q: seq<Notification>)
    ensures Ids([n] + q) == multiset{n.id} + Ids(q)
  {
    assert ([n] + q)[1..] == q;
  }

  /** The id multiset has one element per entry. */
  lemma {:induction false} IdsSize(q: seq<Notification>)
    ensures |Ids(q)| == |q|
  {
    if q != [] {
      IdsSize(q[1..]);
    }
  }

  /** An id occurs in the multiset exactly when some entry carries it. */
  lemma {:induction false} IdsMembership(q: seq<Notification>, id: int)
    ensures id in Ids(q) <==> exists i :: 0 <= i < |q| && q[i].id == id
  {
    if q != [] {
      IdsMembership(q[1..], id);
      if id in Ids(q[1..]) {
        var i :| 0 <= i < |q[1..]| && q[1..][i].id == id;
        assert q[i + 1].id == id;
      }
      if exists i :: 0 <= i < |q| && q[i].id == id {
        var i :| 0 <= i < |q| && q[i].id == id;
        if i > 0 {
          assert q[1..][i - 1].id == id;
        }
      }
    }
  }

  /** Removal takes away exactly one occurrence of `id` when there is one, and nothing otherwise. */
  lemma {:induction false} RemoveFirstIds(q: seq<Notification>, id: int)
    ensures Ids(RemoveFirst(q, id)) == Ids(q) - multiset{id}
    ensures |RemoveFirst(q, id)| == if id in Ids(q) then |q| - 1 else |q|
  {
    if q != [] {
      RemoveFirstIds(q[1..], id);
      if q[0].id != id {
        IdsOfPrepend(q[0], RemoveFirst(q[1..], id));
      }
    }
  }

  /** Removing an id that no entry carries leaves the queue as it was. */
  lemma {:induction false} RemoveAbsent(q: seq<Notification>, id: int)
    requires forall i :: 0 <= i < |q| ==> q[i].id != id
    ensures RemoveFirst(q, id) == q
  {
    SpliceIsRemoveFirst(q, id);
  }

  /** The removed entry is the first one with `id`; everything before it and after it stays, in order. */
  lemma RemoveFirstMatch(q: seq<Notification>, id: int, k: nat)
    requires k < |q| && q[k].id == id
    requires forall i :: 0 <= i < k ==> q[i].id != id
    ensures RemoveFirst(q, id) == q[..k] + q[k + 1..]
  {
    SpliceIsRemoveFirst(q, id);
    assert FindIndex(q, id) == k;
  }

  /** When at most one entry carries `id`, removing it twice is removing it once. */
  lemma RemoveUniqueTwice(q: seq<Notification>, id: int)
    requires Ids(q)[id] <= 1
    ensures RemoveFirst(RemoveFirst(q, id), id) == RemoveFirst(q, id)
  {
    var r := RemoveFirst(q, id);
    RemoveFirstIds(q, id);
    IdsMembership(r, id);
    RemoveAbsent(r, id);
  }

  /** Two entries with one id: removing that id takes the newer (the head) and leaves the older. */
  lemma RemoveCollidingId(older: Notification, newer: Notification)
    requires older.id == newer.id
    ensures RemoveFirst([newer, older], older.id) == [older]
  {
  }
}
