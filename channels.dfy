/** The bounded queues through which the tasks talk, and the two
    disciplines the controller builds on them: `ultimul_mesaj` (publish,
    dropping the oldest message when full) and the drains (`goleste_coada`
    and the "keep the last one dequeued" loops). */
module Channels {
  import opened Wrappers

  function Min(a: nat, b: nat): nat
  {
    if a <= b then a else b
  }

  /** The last element of a queue, if any. */
  function Latest<T>(q: seq<T>): Option<T>
  {
    if q == [] then None else Some(q[|q| - 1])
  }

  /** The last element of `q`, or `previous` when `q` is empty: what a
      consumer holds after draining `q` into a variable that already held
      `previous`. */
  function LatestOr<T>(q: seq<T>, previous: Option<T>): Option<T>
  {
    if q == [] then previous else Latest(q)
  }

  /** `ultimul_mesaj` on the queue's contents: when the queue is full its
      head is dropped, then the message is appended. The queue keeps the
      newest messages, as many as fit. */
  function Offer<T>(q: seq<T>, capacity: nat, msg: T): (r: seq<T>)
    requires 1 <= capacity && |q| <= capacity
    ensures |r| == Min(|q| + 1, capacity)
    ensures r == (q + [msg])[|q| + 1 - |r|..]
    ensures r[|r| - 1] == msg
    ensures capacity == 1 ==> r == [msg]
  {
    if |q| == capacity then q[1..] + [msg] else q + [msg]
  }

  /** A full queue loses exactly its head; a queue with room loses nothing. */
  lemma OfferDropsOnlyHead<T>(q: seq<T>, capacity: nat, msg: T)
    requires 1 <= capacity && |q| <= capacity
    ensures |q| == capacity ==> Offer(q, capacity, msg) == q[1..] + [msg]
    ensures |q| < capacity ==> Offer(q, capacity, msg) == q + [msg]
  {
  }

  /** Publishing brings in no message other than the one published. */
  lemma OfferElements<T>(q: seq<T>, capacity: nat, msg: T, x: T)
    requires 1 <= capacity && |q| <= capacity
    ensures x in Offer(q, capacity, msg) ==> x in q || x == msg
  {
    var r := Offer(q, capacity, msg);
    if x in r {
      var i :| 0 <= i < |r| && r[i] == x;
      var all := q + [msg];
      assert r[i] == all[|all| - |r| + i];
    }
  }

  /** Several messages published one after the other. */
  function PublishAll<T>(q: seq<T>, capacity: nat, msgs: seq<T>): (r: seq<T>)
    requires 1 <= capacity && |q| <= capacity
    ensures |r| <= capacity
    decreases |msgs|
  {
    if msgs == [] then q
    else Offer(PublishAll(q, capacity, msgs[..|msgs| - 1]), capacity, msgs[|msgs| - 1])
  }

  /** Dropping `i` elements, then `j` more, drops `i + j`. */
  lemma DropDrop<T>(s: seq<T>, i: nat, j: nat)
    requires i + j <= |s|
    ensures s[i..][j..] == s[i + j..]
  {
  }

  /** One publish onto the newest messages of `before` leaves the newest
      messages of `before + [m]`. */
  lemma OfferKeepsNewest<T>(before: seq<T>, capacity: nat, m: T)
    requires 1 <= capacity
    ensures var all := before + [m];
      Offer(before[|before| - Min(|before|, capacity)..], capacity, m) == all[|all| - Min(|all|, capacity)..]
  {
    var all := before + [m];
    var k := |before| - Min(|before|, capacity);
    var p := before[k..];
    assert p + [m] == all[k..];
    var r := Offer(p, capacity, m);
    var j := |p| + 1 - |r|;
    DropDrop(all, k, j);
  }

  /** Whatever is published, the queue holds exactly the newest messages
      of everything it ever held, as many as its capacity allows. */
  lemma {:induction false} PublishAllKeepsNewest<T>(q: seq<T>, capacity: nat, msgs: seq<T>)
    requires 1 <= capacity && |q| <= capacity
    ensures var all := q + msgs;
      PublishAll(q, capacity, msgs) == all[|all| - Min(|all|, capacity)..]
    decreases |msgs|
  {
    if msgs != [] {
      var init := msgs[..|msgs| - 1];
      var m := msgs[|msgs| - 1];
      assert msgs == init + [m];
      var before := q + init;
      assert q + msgs == before + [m];
      var p := PublishAll(q, capacity, init);
      assert PublishAll(q, capacity, msgs) == Offer(p, capacity, m);
      PublishAllKeepsNewest(q, capacity, init);
      assert p == before[|before| - Min(|before|, capacity)..];
      OfferKeepsNewest(before, capacity, m);
    }
  }

  /** Latest wins: after a non-empty run of publishes, the last element of
      the queue is the last message published, and a single-slot queue
      holds nothing else. */
  lemma {:induction false} LatestWins<T>(q: seq<T>, capacity: nat, msgs: seq<T>)
    requires 1 <= capacity && |q| <= capacity && msgs != []
    ensures Latest(PublishAll(q, capacity, msgs)) == Some(msgs[|msgs| - 1])
    ensures capacity == 1 ==> PublishAll(q, capacity, msgs) == [msgs[|msgs| - 1]]
  {
  }

  /** A bounded FIFO (`queue.Queue(maxsize=capacity)`) used without
      blocking. */
  class BoundedQueue<T> {
    var items: seq<T>
    const capacity: nat

    ghost predicate Valid()
      reads this
    {
      1 <= capacity && |items| <= capacity
    }

    constructor (capacity: nat)
      requires 1 <= capacity
      ensures Valid() && this.capacity == capacity && items == []
    {
      this.capacity := capacity;
      items := [];
    }

    /** `full()`: for a valid queue, exactly when it holds as many
        messages as its capacity. */
    predicate IsFull()
      reads this
      ensures Valid() ==> (IsFull() <==> |items| == capacity)
    {
      |items| >= capacity
    }

    /** `get_nowait()`: the head, or None where Python raises `Empty`. */
    method GetNoWait() returns (r: Option<T>)
      requires Valid()
      modifies this
      ensures Valid()
      ensures old(items) == [] ==> r == None && items == []
      ensures old(items) != [] ==> r == Some(old(items)[0]) && items == old(items)[1..]
    {
      if items == [] {
        r := None;
      } else {
        r := Some(items[0]);
        items := items[1..];
      }
    }

    /** `put_nowait(x)`: appends when there is room; `ok` is false where
        Python raises `Full`. */
    method PutNoWait(x: T) returns (ok: bool)
      requires Valid()
      modifies this
      ensures Valid()
      ensures ok <==> |old(items)| < capacity
      ensures items == if ok then old(items) + [x] else old(items)
    {
      ok := |items| < capacity;
      if ok {
        items := items + [x];
      }
    }

    /** `ultimul_mesaj(coada, msg)`. */
    method Publish(msg: T)
      requires Valid()
      modifies this
      ensures Valid()
      ensures items == Offer(old(items), capacity, msg)
    {
      if IsFull() {
        var _ := GetNoWait();
      }
      var _ := PutNoWait(msg);
    }

    /** `goleste_coada(coada)`: dequeue until the queue reports empty. */
    method Clear()
      requires Valid()
      modifies this
      ensures Valid() && items == []
    {
      while true
        invariant Valid()
        decreases |items|
      {
        var r := GetNoWait();
        if r.None? {
          break;
        }
      }
    }

    /** The "take latest" drain: one `get_nowait`, then more while any
        remain, keeping the last element dequeued. */
    method TakeLatest() returns (latest: Option<T>)
      requires Valid()
      modifies this
      ensures Valid() && items == []
      ensures latest == Latest(old(items))
    {
      latest := GetNoWait();
      if latest.None? {
        return;
      }
      while true
        invariant Valid()
        invariant latest.Some?
        invariant LatestOr(items, latest) == Latest(old(items))
        decreases |items|
      {
        var next := GetNoWait();
        if next.None? {
          break;
        }
        latest := next;
      }
    }
  }

}
