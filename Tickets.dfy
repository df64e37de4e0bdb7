/**
 * The ordering-gate ticket sets both node kinds keep: a map from key to a
 * `TreeMap` whose keys are the outstanding time strings of that key. A
 * TreeMap's key set is modelled by the strictly increasing sequence of its
 * keys in `String.compareTo` order; `put` of a present key changes no key,
 * `remove` of an absent key does nothing.
 */
module Tickets {
  import opened Lex

  /** The keys of one TreeMap, in the order the TreeMap iterates them. */
  type Queue = seq<string>

  /** The per-key ticket maps (`timeQueues`) of one node. */
  type Queues = map<string, Queue>

  /** The outcome of one check of a monitor loop's exit condition. */
  datatype Gate =
    | Proceed  // the condition holds: the caller leaves the loop
    | Wait     // the condition fails: the caller waits for a notify
    | Throws   // evaluating the condition throws (null map, empty map, bad number)

  predicate StrictlySorted(q: Queue)
  {
    forall i, j :: 0 <= i < j < |q| ==> LexLess(q[i], q[j])
  }

  function Elements(q: Queue): set<string>
  {
    set x | x in q
  }

  lemma ConsElements(x: string, q: Queue)
    ensures Elements([x] + q) == {x} + Elements(q)
  {
    assert forall y :: y in [x] + q <==> y == x || y in q;
  }

  /** Every element of a sorted queue other than its head comes after the head. */
  lemma HeadIsLeast(q: Queue, x: string)
    requires StrictlySorted(q) && x in q
    ensures x == q[0] || LexLess(q[0], x)
  {
    var j :| 0 <= j < |q| && q[j] == x;
  }

  lemma ConsSorted(x: string, r: Queue)
    requires StrictlySorted(r)
    requires forall y :: y in Elements(r) ==> LexLess(x, y)
    ensures StrictlySorted([x] + r)
  {
    forall j | 1 <= j <= |r| ensures LexLess(x, ([x] + r)[j]) {
      assert r[j - 1] in Elements(r);
    }
  }

  lemma TailAbove(q: Queue)
    requires StrictlySorted(q) && q != []
    ensures StrictlySorted(q[1..])
    ensures forall y :: y in Elements(q[1..]) ==> LexLess(q[0], y)
  {
    forall y | y in Elements(q[1..]) ensures LexLess(q[0], y) {
      var k :| 0 <= k < |q| - 1 && q[1..][k] == y;
      assert q[k + 1] == y;
    }
  }

  /** `TreeMap.put(t, _)` on the key set. */
  function Put(q: Queue, t: string): (r: Queue)
    ensures Elements(r) == Elements(q) + {t}
    ensures StrictlySorted(q) ==> StrictlySorted(r)
  {
    if q == [] then [t]
    else if t == q[0] then q
    else if LexLess(t, q[0]) then
      ConsElements(t, q);
      assert StrictlySorted(q) ==> StrictlySorted([t] + q) by {
        if StrictlySorted(q) {
          forall y | y in Elements(q) ensures LexLess(t, y) {
            HeadIsLeast(q, y);
            if y != q[0] { Transitive(t, q[0], y); }
          }
          ConsSorted(t, q);
        }
      }
      [t] + q
    else
      var rest := Put(q[1..], t);
      assert Elements(q) == {q[0]} + Elements(q[1..]) by { assert q == [q[0]] + q[1..]; }
      ConsElements(q[0], rest);
      assert StrictlySorted(q) ==> StrictlySorted([q[0]] + rest) by {
        if StrictlySorted(q) {
          Total(t, q[0]);
          TailAbove(q);
          ConsSorted(q[0], rest);
        }
      }
      [q[0]] + rest
  }

  /** `TreeMap.remove(t)` on the key set. */
  function Remove(q: Queue, t: string): (r: Queue)
    ensures Elements(r) == Elements(q) - {t}
    ensures StrictlySorted(q) ==> StrictlySorted(r)
  {
    if q == [] then []
    else
      var rest := Remove(q[1..], t);
      assert Elements(q) == {q[0]} + Elements(q[1..]) by { assert q == [q[0]] + q[1..]; }
      if q[0] == t then
        assert StrictlySorted(q) ==> t !in Elements(q[1..]) by {
          if StrictlySorted(q) {
            TailAbove(q);
            Irreflexive(t);
          }
        }
        rest
      else
        ConsElements(q[0], rest);
        assert StrictlySorted(q) ==> StrictlySorted([q[0]] + rest) by {
          if StrictlySorted(q) {
            TailAbove(q);
            ConsSorted(q[0], rest);
          }
        }
        [q[0]] + rest
  }

  /** A sorted queue is determined by its set of tickets: the TreeMap's key set. */
  lemma {:induction false} SortedUnique(a: Queue, b: Queue)
    requires StrictlySorted(a) && StrictlySorted(b) && Elements(a) == Elements(b)
    ensures a == b
  {
    if a != [] {
      assert a[0] in Elements(b);
      assert b != [] && b[0] in Elements(a);
      HeadIsLeast(a, b[0]);
      HeadIsLeast(b, a[0]);
      if a[0] != b[0] { Asymmetric(a[0], b[0]); }
      assert a[0] == b[0];
      TailElements(a);
      TailElements(b);
      SortedUnique(a[1..], b[1..]);
      assert a == [a[0]] + a[1..] && b == [b[0]] + b[1..];
    } else {
      EmptyElements(b);
    }
  }

  lemma EmptyElements(q: Queue)
    ensures Elements(q) == {} <==> q == []
  {
    if q != [] { assert q[0] in Elements(q); }
  }

  lemma TailElements(q: Queue)
    requires StrictlySorted(q) && q != []
    ensures StrictlySorted(q[1..])
    ensures Elements(q[1..]) == Elements(q) - {q[0]}
  {
    assert q == [q[0]] + q[1..];
    if q[0] in q[1..] {
      var k :| 0 <= k < |q| - 1 && q[1..][k] == q[0];
      assert LexLess(q[0], q[k + 1]);
      Irreflexive(q[0]);
    }
  }

  /** Putting a time that is already a ticket changes nothing. */
  lemma PutPresent(q: Queue, t: string)
    requires StrictlySorted(q) && t in q
    ensures Put(q, t) == q
  {
    SortedUnique(Put(q, t), q);
  }

  /** Removing a time that is not a ticket changes nothing. */
  lemma {:induction false} RemoveAbsent(q: Queue, t: string)
    requires t !in q
    ensures Remove(q, t) == q
  {
    if q != [] {
      RemoveAbsent(q[1..], t);
      assert q == [q[0]] + q[1..];
    }
  }

  /** Putting a fresh time and then removing it gives back the same queue. */
  lemma {:induction false} RemovePutFresh(q: Queue, t: string)
    requires t !in q
    ensures Remove(Put(q, t), t) == q
  {
    if q == [] {
    } else if LexLess(t, q[0]) {
      assert Put(q, t) == [t] + q;
      assert ([t] + q)[1..] == q;
      RemoveAbsent(q, t);
    } else {
      var r := Put(q, t);
      assert r == [q[0]] + Put(q[1..], t);
      assert r[1..] == Put(q[1..], t);
      RemovePutFresh(q[1..], t);
      assert q == [q[0]] + q[1..];
    }
  }

  predicate QueuesValid(qs: Queues)
  {
    forall k :: k in qs ==> StrictlySorted(qs[k])
  }

  /** The outstanding tickets of `key`; none when the key has no TreeMap. */
  function TicketsOf(qs: Queues, key: string): set<string>
  {
    if key in qs then Elements(qs[key]) else {}
  }

  /**
   * `add_to_queue(key, time, _)` (the same code in both node kinds): a new key
   * gets a fresh TreeMap holding `time`, a known key's TreeMap gets `time` put.
   */
  function PutTicket(qs: Queues, key: string, time: string): (r: Queues)
    ensures r.Keys == qs.Keys + {key}
    ensures TicketsOf(r, key) == TicketsOf(qs, key) + {time}
    ensures forall k :: k in qs && k != key ==> r[k] == qs[k]
    ensures QueuesValid(qs) ==> QueuesValid(r)
  {
    if key in qs then qs[key := Put(qs[key], time)] else qs[key := [time]]
  }

  /**
   * `signal_done` / `remove_from_queue(key, time)`: `remove(time)` on the key's
   * TreeMap. A key with no TreeMap makes Java throw a NullPointerException
   * before anything is changed, so the model leaves the state as it was.
   */
  function RemoveTicket(qs: Queues, key: string, time: string): (r: Queues)
    ensures r.Keys == qs.Keys
    ensures TicketsOf(r, key) == TicketsOf(qs, key) - {time}
    ensures forall k :: k in qs && k != key ==> r[k] == qs[k]
    ensures QueuesValid(qs) ==> QueuesValid(r)
  {
    if key in qs then qs[key := Remove(qs[key], time)] else qs
  }

  /** Adding a time that is already a ticket leaves every ticket map as it was. */
  lemma PutTicketPresent(qs: Queues, key: string, time: string)
    requires QueuesValid(qs) && time in TicketsOf(qs, key)
    ensures PutTicket(qs, key, time) == qs
  {
    PutPresent(qs[key], time);
  }

  /**
   * Adding a fresh time and then removing it restores every key's ticket set;
   * the map itself comes back unchanged when the key already had a TreeMap
   * (otherwise the key is left with an empty one).
   */
  lemma PutThenRemove(qs: Queues, key: string, time: string)
    requires time !in TicketsOf(qs, key)
    ensures forall k :: TicketsOf(RemoveTicket(PutTicket(qs, key, time), key, time), k) == TicketsOf(qs, k)
    ensures key in qs ==> RemoveTicket(PutTicket(qs, key, time), key, time) == qs
    ensures key !in qs ==> RemoveTicket(PutTicket(qs, key, time), key, time) == qs[key := []]
  {
    if key in qs {
      RemovePutFresh(qs[key], time);
    } else {
      assert [time][1..] == [];
      assert Remove([time], time) == Remove([], time) == [];
    }
  }
}
