/**
 * The data-center store: per key, the list of (timestamp, value) entries it
 * has applied, the way it places a new entry in each mode, the reply to a
 * read, and the no-earlier-or-equal gate that holds back strong reads.
 */
module KeyValueStore {
  import opened Wrappers
  import opened Numerals
  import opened Tickets

  /** One applied write: its time after skew correction and its payload. */
  datatype StoreValue = StoreValue(timestamp: Long, value: string)

  type Values = seq<StoreValue>

  /** The `store` HashMap: key to the ArrayList of its entries. */
  type Table = map<string, Values>

  predicate SortedByTime(vs: Values)
  {
    forall i, j :: 0 <= i < j < |vs| ==> vs[i].timestamp <= vs[j].timestamp
  }

  predicate AllSorted(table: Table)
  {
    forall k :: k in table ==> SortedByTime(table[k])
  }

  /** The first index whose entry is strictly later than `t` (`|vs|` if none is). */
  function InsertPos(vs: Values, t: Long): (i: nat)
    ensures i <= |vs|
  {
    if vs == [] || t < vs[0].timestamp then 0 else 1 + InsertPos(vs[1..], t)
  }

  lemma {:induction false} InsertPosIsFirstLater(vs: Values, t: Long)
    ensures forall j :: 0 <= j < InsertPos(vs, t) ==> vs[j].timestamp <= t
    ensures InsertPos(vs, t) < |vs| ==> t < vs[InsertPos(vs, t)].timestamp
  {
    if vs != [] && vs[0].timestamp <= t {
      InsertPosIsFirstLater(vs[1..], t);
      forall j | 1 <= j < InsertPos(vs, t) ensures vs[j].timestamp <= t {
        assert vs[j] == vs[1..][j - 1];
      }
    }
  }

  /** Any index with the first-later property is the one `InsertPos` gives. */
  lemma {:induction false} InsertPosUnique(vs: Values, t: Long, i: nat)
    requires i <= |vs|
    requires forall j :: 0 <= j < i ==> vs[j].timestamp <= t
    requires i < |vs| ==> t < vs[i].timestamp
    ensures InsertPos(vs, t) == i
  {
    if i > 0 {
      assert vs[0].timestamp <= t;
      forall j | 0 <= j < i - 1 ensures vs[1..][j].timestamp <= t {
        assert vs[1..][j] == vs[j + 1];
      }
      InsertPosUnique(vs[1..], t, i - 1);
    }
  }

  /**
   * The search loop of the causal and strong `/put` paths: the index of the
   * first entry later than `t`, or the end of the list.
   */
  method FindInsertIndex(values: Values, t: Long) returns (i: nat)
    ensures i <= |values|
    ensures forall j :: 0 <= j < i ==> values[j].timestamp <= t
    ensures i < |values| ==> t < values[i].timestamp
    ensures i == InsertPos(values, t)
  {
    i := 0;
    while i < |values|
      invariant i <= |values|
      invariant forall j :: 0 <= j < i ==> values[j].timestamp <= t
    {
      if t < values[i].timestamp {
        break;
      }
      i := i + 1;
    }
    InsertPosUnique(values, t, i);
  }

  /** `values.add(i, sv)` at the first index later than the new entry. */
  function SortedInsert(vs: Values, sv: StoreValue): Values
  {
    var i := InsertPos(vs, sv.timestamp);
    vs[..i] + [sv] + vs[i..]
  }

  /**
   * An insert grows the list by one: the entries before the index stay, the
   * new entry sits at the index, the rest follow shifted by one, and the
   * multiset gains exactly the new entry.
   */
  lemma SortedInsertShape(vs: Values, sv: StoreValue)
    ensures var i, r := InsertPos(vs, sv.timestamp), SortedInsert(vs, sv);
      |r| == |vs| + 1 && r[..i] == vs[..i] && r[i] == sv && r[i + 1..] == vs[i..] &&
      multiset(r) == multiset(vs) + multiset{sv}
  {
    var i := InsertPos(vs, sv.timestamp);
    assert vs == vs[..i] + vs[i..];
  }

  /** On a list sorted by time, the insert keeps it sorted. */
  lemma SortedInsertKeepsSorted(vs: Values, sv: StoreValue)
    requires SortedByTime(vs)
    ensures SortedByTime(SortedInsert(vs, sv))
  {
    var i := InsertPos(vs, sv.timestamp);
    var r := SortedInsert(vs, sv);
    InsertPosIsFirstLater(vs, sv.timestamp);
    SortedInsertShape(vs, sv);
    forall a, b | 0 <= a < b < |r| ensures r[a].timestamp <= r[b].timestamp {
      if b < i {
        assert r[a] == vs[a] && r[b] == vs[b];
      } else if b == i {
        assert r[a] == vs[a];
      } else if a == i {
        assert r[b] == vs[b - 1];
        assert vs[i].timestamp <= vs[b - 1].timestamp;
      } else if a < i {
        assert r[a] == vs[a] && r[b] == vs[b - 1];
      } else {
        assert r[a] == vs[a - 1] && r[b] == vs[b - 1];
      }
    }
  }

  /**
   * On a sorted list exactly the entries not later than the new one come
   * before it; so entries with an equal time stay ahead of it, in arrival order.
   */
  lemma SortedInsertAfterEqual(vs: Values, sv: StoreValue)
    requires SortedByTime(vs)
    ensures forall j :: 0 <= j < |vs| ==>
      (vs[j].timestamp <= sv.timestamp <==> j < InsertPos(vs, sv.timestamp))
  {
    var i := InsertPos(vs, sv.timestamp);
    InsertPosIsFirstLater(vs, sv.timestamp);
    forall j | 0 <= j < |vs| && i <= j ensures sv.timestamp < vs[j].timestamp {
      assert vs[i].timestamp <= vs[j].timestamp;
    }
  }

  /**
   * The `/put` handler's effect on the table: an unseen key gets a one-entry
   * list; otherwise "eventual" appends and every other mode inserts by time.
   */
  function ApplyPut(table: Table, key: string, sv: StoreValue, consistency: string): Table
  {
    if key !in table then table[key := [sv]]
    else if consistency == "eventual" then table[key := table[key] + [sv]]
    else table[key := SortedInsert(table[key], sv)]
  }

  /** What a PUT does to the table, and what it leaves alone. */
  lemma ApplyPutEffect(table: Table, key: string, sv: StoreValue, consistency: string)
    ensures var r := ApplyPut(table, key, sv, consistency);
      r.Keys == table.Keys + {key} &&
      (forall k :: k in table && k != key ==> r[k] == table[k]) &&
      (key !in table ==> r[key] == [sv]) &&
      (key in table ==> multiset(r[key]) == multiset(table[key]) + multiset{sv}) &&
      (key in table && consistency == "eventual" ==>
        |r[key]| == |table[key]| + 1 && r[key][..|table[key]|] == table[key] && r[key][|table[key]|] == sv)
  {
    if key in table {
      SortedInsertShape(table[key], sv);
      if consistency == "eventual" { assert (table[key] + [sv])[..|table[key]|] == table[key]; }
    }
  }

  /** Outside eventual mode every list stays sorted by time. */
  lemma ApplyPutKeepsSorted(table: Table, key: string, sv: StoreValue, consistency: string)
    requires AllSorted(table) && consistency != "eventual"
    ensures AllSorted(ApplyPut(table, key, sv, consistency))
  {
    if key in table { SortedInsertKeepsSorted(table[key], sv); }
  }

  /** The reply to a read: each payload followed by one space, in list order. */
  function Joined(vs: Values): (r: string)
    ensures r == "" <==> vs == []
    ensures vs != [] ==> r[|r| - 1] == ' '
  {
    if vs == [] then "" else Joined(vs[..|vs| - 1]) + vs[|vs| - 1].value + " "
  }

  lemma {:induction false} JoinedConcat(a: Values, b: Values)
    ensures Joined(a + b) == Joined(a) + Joined(b)
    decreases |b|
  {
    if b == [] {
      assert a + b == a;
    } else {
      var b', last := b[..|b| - 1], b[|b| - 1];
      assert (a + b)[..|a + b| - 1] == a + b';
      assert (a + b)[|a + b| - 1] == last;
      JoinedConcat(a, b');
      calc {
        Joined(a + b);
        Joined(a + b') + last.value + " ";
        Joined(a) + Joined(b') + last.value + " ";
        Joined(a) + (Joined(b') + last.value + " ");
        Joined(a) + Joined(b);
      }
    }
  }

  /** The reply to a `/get` of `key`: empty for an unseen key. */
  function Lookup(table: Table, key: string): (r: string)
    ensures r == "" <==> key !in table || table[key] == []
  {
    if key in table then Joined(table[key]) else ""
  }

  /**
   * After a PUT the reply to a read of its key contains the new payload: at
   * the end in eventual mode (or for an unseen key), between the replies for
   * the earlier-or-equal and the later entries otherwise.
   */
  lemma ReadAfterPut(table: Table, key: string, sv: StoreValue, consistency: string)
    ensures var before := if key in table then table[key] else [];
      var i := InsertPos(before, sv.timestamp);
      Lookup(ApplyPut(table, key, sv, consistency), key) ==
        if key in table && consistency != "eventual"
        then Joined(before[..i]) + sv.value + " " + Joined(before[i..])
        else Lookup(table, key) + sv.value + " "
  {
    if key !in table {
      JoinedPair([], sv);
    } else if consistency == "eventual" {
      assert (table[key] + [sv])[..|table[key]|] == table[key];
    } else {
      var vs := table[key];
      var i := InsertPos(vs, sv.timestamp);
      JoinedConcat(vs[..i] + [sv], vs[i..]);
      JoinedConcat(vs[..i], [sv]);
      JoinedPair([], sv);
    }
  }

  /** A PUT leaves the reply for every other key as it was. */
  lemma ReadOtherKey(table: Table, key: string, other: string, sv: StoreValue, consistency: string)
    requires other != key
    ensures Lookup(ApplyPut(table, key, sv, consistency), other) == Lookup(table, other)
  {
  }

  /**
   * Causal mode orders by time, not by arrival: 200 "late" then 100 "early"
   * reads "early late "; eventual mode keeps arrival order.
   */
  lemma CausalOrdersByTime()
    ensures var sv1, sv2 := StoreValue(200, "late"), StoreValue(100, "early");
      Lookup(ApplyPut(ApplyPut(map[], "x", sv1, "causal"), "x", sv2, "causal"), "x") == "early late " &&
      Lookup(ApplyPut(ApplyPut(map[], "x", sv1, "eventual"), "x", sv2, "eventual"), "x") == "late early "
  {
    var sv1, sv2 := StoreValue(200, "late"), StoreValue(100, "early");
    var t1 := ApplyPut(map[], "x", sv1, "causal");
    assert t1 == map["x" := [sv1]];
    assert InsertPos([sv1], 100) == 0;
    assert SortedInsert([sv1], sv2) == [sv2, sv1];
    assert ApplyPut(t1, "x", sv2, "causal") == map["x" := [sv2, sv1]];
    JoinedPair([], sv2);
    JoinedPair([sv2], sv1);
    assert [sv2] + [sv1] == [sv2, sv1];
    var e1 := ApplyPut(map[], "x", sv1, "eventual");
    assert e1 == map["x" := [sv1]];
    assert e1["x"] + [sv2] == [sv1, sv2];
    assert ApplyPut(e1, "x", sv2, "eventual") == map["x" := [sv1, sv2]];
    JoinedPair([], sv1);
    JoinedPair([sv1], sv2);
    assert [sv1] + [sv2] == [sv1, sv2];
  }

  lemma JoinedPair(vs: Values, sv: StoreValue)
    ensures Joined(vs + [sv]) == Joined(vs) + sv.value + " "
  {
    assert (vs + [sv])[..|vs|] == vs;
  }

  /**
   * The exit test of the store's `wait_until_free(key, time, _)`: a read may go
   * when the key has no TreeMap, an empty one, or when `time` is below the
   * TreeMap's first key, both read with `Integer.parseInt`; a string that
   * does not parse as an int makes the test throw.
   */
  function ReadGate(qs: Queues, key: string, time: string): (g: Gate)
    ensures TicketsOf(qs, key) == {} ==> g == Proceed
  {
    if key !in qs then Proceed
    else
      EmptyElements(qs[key]);
      if qs[key] == [] then Proceed
      else match (ParseInt(time), ParseInt(qs[key][0]))
        case (Some(t), Some(first)) => if t < first then Proceed else Wait
        case _ => Throws
  }

  /**
   * Under the assumption that the read time and every ticket are numerals of
   * one width within int range, a strong read proceeds exactly when every
   * outstanding ticket of the key is later than it: it waits exactly while a
   * ticket earlier than or equal to its time is outstanding.
   */
  lemma ReadGateByTime(qs: Queues, key: string, time: string, w: nat)
    requires QueuesValid(qs) && w > 0
    requires forall x :: x in TicketsOf(qs, key) + {time} ==>
      |x| == w && AllDigits(x) && Value(x) <= INT_MAX
    ensures ReadGate(qs, key, time) != Throws
    ensures ReadGate(qs, key, time) == Proceed <==>
      forall x :: x in TicketsOf(qs, key) ==> Value(time) < Value(x)
  {
    if key in qs && qs[key] != [] {
      var q := qs[key];
      assert q[0] in TicketsOf(qs, key);
      ParseIntOfDigits(time);
      ParseIntOfDigits(q[0]);
      if Value(time) < Value(q[0]) {
        forall x | x in TicketsOf(qs, key) ensures Value(time) < Value(x) {
          HeadIsLeast(q, x);
          if x != q[0] {
            Lex.EqualWidthIsNumeric(q[0], x);
          }
        }
      }
    }
  }

  /**
   * With one-width numeral times, a read is held back while a ticket not later
   * than its time is outstanding: it waits when its time fits an int, and the
   * test throws when it does not.
   */
  lemma ReadWaitsBehindTicket(qs: Queues, key: string, ticket: string, time: string, w: nat)
    requires QueuesValid(qs) && w > 0 && ticket in TicketsOf(qs, key)
    requires forall x :: x in TicketsOf(qs, key) ==> |x| == w && AllDigits(x)
    requires |time| == w && AllDigits(time) && Value(ticket) <= Value(time)
    ensures ReadGate(qs, key, time) != Proceed
    ensures ReadGate(qs, key, time) == Wait <==> Value(time) <= INT_MAX
  {
    var q := qs[key];
    assert q[0] in TicketsOf(qs, key);
    HeadIsLeast(q, ticket);
    if ticket != q[0] {
      Lex.EqualWidthIsNumeric(q[0], ticket);
    }
    ParseIntOfDigits(time);
    ParseIntOfDigits(q[0]);
  }

  /**
   * A strong read at a millisecond time (eleven or more digits) finds the test
   * throwing whenever the key has an outstanding ticket, so it never replies.
   */
  lemma WideReadTimeThrows(qs: Queues, key: string, time: string)
    requires TicketsOf(qs, key) != {}
    requires |time| >= 11 && AllDigits(time) && time[0] != '0'
    ensures ReadGate(qs, key, time) == Throws
  {
    WideNumeralExceedsInt(time);
  }

  /** Without that assumption a read of 9 passes a pending write at 9 when "10" is also pending. */
  lemma MixedWidthReadOvertakes()
    ensures QueuesValid(map["k" := ["10", "9"]])
    ensures ReadGate(map["k" := ["10", "9"]], "k", "9") == Proceed
  {
    assert Lex.LexLess("10", "9");
    ParseIntOfDigits("9");
    ParseIntOfDigits("10");
    assert Value("9") == 9 by { assert "9"[..0] == []; }
    assert Value("10") == 10 by { assert "10"[..1] == "1" && "1"[..0] == []; }
  }

  /**
   * One data-center process. In the Java code the value table and the ticket
   * sets sit on two different objects of the same class; they are one here.
   */
  class Store {
    var store: Table
    var timeQueues: Queues

    ghost predicate Valid()
      reads this
    {
      QueuesValid(timeQueues)
    }

    constructor ()
      ensures store == map[] && timeQueues == map[]
      ensures Valid()
    {
      store := map[];
      timeQueues := map[];
    }

    /**
     * The `/put` handler: correct the timestamp for the sending region, then
     * append (eventual) or insert by time (any other mode).
     */
    method Put(key: string, value: string, timestamp: Long, region: int, consistency: string,
               handleSkew: (Long, int) -> Long)
      modifies this`store
      ensures store == ApplyPut(old(store), key, StoreValue(handleSkew(timestamp, region), value), consistency)
    {
      var sv := StoreValue(handleSkew(timestamp, region), value);
      if key in store {
        var values := store[key];
        if consistency == "eventual" {
          store := store[key := values + [sv]];
        } else {
          var i := FindInsertIndex(values, sv.timestamp);
          store := store[key := values[..i] + [sv] + values[i..]];
        }
      } else {
        store := store[key := [sv]];
      }
    }

    /** The reply of the `/get` handler, built by appending payload and space per entry. */
    method Get(key: string) returns (response: string)
      ensures response == Lookup(store, key)
    {
      response := "";
      if key in store {
        var values := store[key];
        var i := 0;
        while i < |values|
          invariant 0 <= i <= |values|
          invariant response == Joined(values[..i])
        {
          assert values[..i + 1][..i] == values[..i];
          response := response + values[i].value + " ";
          i := i + 1;
        }
        assert values[..|values|] == values;
      }
    }

    /** One check of the exit test of the strong read path's `wait_until_free`. */
    function WaitUntilFree(key: string, time: string): Gate
      reads this
    {
      ReadGate(timeQueues, key, time)
    }

    /**
     * One attempt of a `/get`: outside strong mode the reply at once; in strong
     * mode the reply only if the gate lets the read of `Render(timestamp)`
     * through, None while it would wait or when the test throws.
     */
    method TryGet(key: string, timestamp: Long, consistency: string) returns (reply: Option<string>)
      ensures consistency != "strong" ==> reply == Some(Lookup(store, key))
      ensures consistency == "strong" ==>
        reply == if ReadGate(timeQueues, key, Render(timestamp as int)) == Proceed
                 then Some(Lookup(store, key)) else None
    {
      if consistency == "strong" && ReadGate(timeQueues, key, Render(timestamp as int)) != Proceed {
        return None;
      }
      var response := Get(key);
      reply := Some(response);
    }

    /** The `/ahead` handler: reserve the time, as `Long.toString` writes it. */
    method Ahead(key: string, timestamp: Long)
      requires Valid()
      modifies this`timeQueues
      ensures Valid()
      ensures timeQueues == PutTicket(old(timeQueues), key, Render(timestamp as int))
    {
      timeQueues := PutTicket(timeQueues, key, Render(timestamp as int));
    }

    /** The `/complete` handler: retire the time. */
    method Complete(key: string, timestamp: Long)
      requires Valid()
      modifies this`timeQueues
      ensures Valid()
      ensures timeQueues == RemoveTicket(old(timeQueues), key, Render(timestamp as int))
    {
      timeQueues := RemoveTicket(timeQueues, key, Render(timestamp as int));
    }

    /** The `/reset` handler: forget every key; tickets in flight are not touched. */
    method Reset()
      modifies this`store
      ensures store == map[]
      ensures forall k :: Lookup(store, k) == ""
    {
      store := map[];
    }
  }
}
