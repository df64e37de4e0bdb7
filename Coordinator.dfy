/**
 * The regional coordinator: which coordinator owns a key, how the time of a
 * write is fixed, the strict-earliest ordering gate guarding writes at the
 * primary, and the list of remote calls one `/put` worker issues.
 */
module Coordinator {
  import opened Wrappers
  import opened Numerals
  import opened Lex
  import opened Tickets

  /** The three regions; each has one coordinator and one data center. */
  datatype Region = USE | USW | SING

  /**
   * Region number to region: 1 is US-East, 2 is US-West, anything else
   * Singapore. With host names abstracted to regions this is both `local_dc`
   * (the node's data center) and `local_cr` (the node's own coordinator).
   */
  function RegionOf(n: int): Region
  {
    if n == 1 then USE else if n == 2 then USW else SING
  }

  /** Regions 1, 2 and 3 are three different places; every other number falls to Singapore. */
  lemma RegionOfNumbers()
    ensures RegionOf(1) != RegionOf(2) && RegionOf(2) != RegionOf(3) && RegionOf(1) != RegionOf(3)
    ensures forall n :: n != 1 && n != 2 ==> RegionOf(n) == SING
  {
  }

  /** The sum of the character codes of `s`, accumulated left to right. */
  function CharSum(s: string): nat
  {
    if s == [] then 0 else CharSum(s[..|s| - 1]) + s[|s| - 1] as int
  }

  /** The primary coordinator of `key`. */
  function Owner(key: string): Region
  {
    if key == "a" then USE
    else if key == "b" then USW
    else if key == "c" then SING
    else RegionOf(CharSum(key) % 3 + 1)
  }

  /** `key_to_cr`: the fixed keys first, then the character-code sum taken mod 3. */
  method KeyToCr(key: string) returns (owner: Region)
    ensures owner == Owner(key)
  {
    if key == "a" { return USE; }
    if key == "b" { return USW; }
    if key == "c" { return SING; }
    var len := |key|;
    var i := 0;
    var sum := 0;
    while i < len
      invariant 0 <= i <= len
      invariant sum == CharSum(key[..i])
    {
      assert key[..i + 1][..i] == key[..i];
      sum := sum + key[i] as int;
      i := i + 1;
    }
    assert key[..len] == key;
    var j := sum % 3 + 1;
    if j == 1 { return USE; }
    if j == 2 { return USW; }
    return SING;
  }

  /**
   * The three test keys are pinned to three different coordinators, each other
   * than the one the character-code sum would give.
   */
  lemma FixedKeys()
    ensures Owner("a") == USE && Owner("b") == USW && Owner("c") == SING
    ensures RegionOf(CharSum("a") % 3 + 1) == USW
    ensures RegionOf(CharSum("b") % 3 + 1) == SING
    ensures RegionOf(CharSum("c") % 3 + 1) == USE
  {
  }

  /** Every coordinator is primary for some key outside the pinned three. */
  lemma EveryRegionOwnsAKey(r: Region)
    ensures exists key :: key !in {"a", "b", "c"} && Owner(key) == r
  {
    var c := if r == USE then 'f' else if r == USW then 'd' else 'e';
    CharSumSingle(c);
    assert [c] !in {"a", "b", "c"};
    assert Owner([c]) == r;
  }

  lemma CharSumSingle(c: char)
    ensures CharSum([c]) == c as int
  {
    assert [c][..0] == [];
  }

  lemma {:induction false} CharSumConcat(a: string, b: string)
    ensures CharSum(a + b) == CharSum(a) + CharSum(b)
    decreases |b|
  {
    if b == [] {
      assert a + b == a;
    } else {
      var b' := b[..|b| - 1];
      assert (a + b)[..|a + b| - 1] == a + b';
      CharSumConcat(a, b');
    }
  }

  /** Rearranging the characters of a key does not change its character-code sum. */
  lemma {:induction false} CharSumPermutation(a: string, b: string)
    requires multiset(a) == multiset(b)
    ensures CharSum(a) == CharSum(b)
    decreases |a|
  {
    if a != [] {
      var n := |a| - 1;
      var x := a[n];
      assert x in multiset(b);
      var j :| 0 <= j < |b| && b[j] == x;
      var b' := b[..j] + b[j + 1..];
      assert b == b[..j] + [x] + b[j + 1..];
      CharSumConcat(b[..j] + [x], b[j + 1..]);
      CharSumConcat(b[..j], [x]);
      CharSumConcat(b[..j], b[j + 1..]);
      CharSumSingle(x);
      assert a == a[..n] + [x];
      assert multiset(a) == multiset(a[..n]) + multiset{x};
      assert multiset(b) == multiset(b[..j]) + multiset{x} + multiset(b[j + 1..]);
      assert multiset(b') == multiset(b[..j]) + multiset(b[j + 1..]);
      assert multiset(a[..n]) == multiset(a) - multiset{x};
      assert multiset(b') == multiset(b) - multiset{x};
      CharSumPermutation(a[..n], b');
    }
  }

  lemma SingletonMultiset(s: string, c: char)
    requires multiset(s) == multiset{c}
    ensures s == [c]
  {
    assert |s| == |multiset(s)| == 1;
    assert s[0] in multiset(s);
  }

  /** Two keys that are anagrams of each other have the same primary coordinator. */
  lemma OwnerPermutation(k1: string, k2: string)
    requires multiset(k1) == multiset(k2)
    ensures Owner(k1) == Owner(k2)
  {
    if k1 in {"a", "b", "c"} {
      SingletonMultiset(k2, k1[0]);
    } else if k2 in {"a", "b", "c"} {
      SingletonMultiset(k1, k2[0]);
    } else {
      CharSumPermutation(k1, k2);
    }
  }

  /** The region tag a forwarded request carries, as `get_time` reads it. */
  function RegionCode(tag: string): int
  {
    if tag == "1" then 1 else if tag == "2" then 2 else 3
  }

  /**
   * `get_time`: the time string of a `/put`. A first-hop request keeps its own
   * timestamp; a forwarded one is corrected by `handleSkew` for the region it
   * came from. A forwarded request without a region tag makes Java throw.
   */
  function GetTime(timestamp: Long, forwarded: Option<string>, forwardedRegion: Option<string>,
                   handleSkew: (Long, int) -> Long): (r: Option<string>)
    ensures forwarded.None? ==> r == Some(Render(timestamp as int)) && ParseLong(r.value) == Some(timestamp)
    ensures forwarded.Some? && forwardedRegion.None? ==> r.None?
    ensures forwarded.Some? && forwardedRegion.Some? ==>
      var code := RegionCode(forwardedRegion.value);
      r == Some(Render(handleSkew(timestamp, code) as int)) &&
      ParseLong(r.value) == Some(handleSkew(timestamp, code))
  {
    if forwarded.None? then
      ParseLongRender(timestamp);
      Some(Render(timestamp as int))
    else if forwardedRegion.None? then
      None
    else
      var adjusted := handleSkew(timestamp, RegionCode(forwardedRegion.value));
      ParseLongRender(adjusted);
      Some(Render(adjusted as int))
  }

  /**
   * The exit test of the coordinator's `wait_until_free(key, time)`: the write
   * may go once `time` is the first key of the key's TreeMap. A key with no
   * TreeMap, or an empty one, makes the test throw.
   */
  function Admission(qs: Queues, key: string, time: string): (g: Gate)
    ensures g == Throws <==> TicketsOf(qs, key) == {}
  {
    if key !in qs then Throws
    else
      EmptyElements(qs[key]);
      if qs[key] == [] then Throws
      else if qs[key][0] == time then Proceed
      else Wait
  }

  /** A write is admitted exactly when its time is the least outstanding ticket of its key. */
  lemma AdmissionIsLeastTicket(qs: Queues, key: string, time: string)
    requires QueuesValid(qs)
    ensures Admission(qs, key, time) == Proceed <==>
      time in TicketsOf(qs, key) && forall x :: x in TicketsOf(qs, key) && x != time ==> LexLess(time, x)
  {
    if key in qs && qs[key] != [] {
      var q := qs[key];
      if q[0] == time {
        forall x | x in TicketsOf(qs, key) && x != time ensures LexLess(time, x) {
          HeadIsLeast(q, x);
        }
      } else if time in TicketsOf(qs, key) {
        HeadIsLeast(q, time);
        assert q[0] in TicketsOf(qs, key);
        if LexLess(time, q[0]) { Asymmetric(time, q[0]); }
      }
    }
  }

  /** At most one time of a key is admitted at any moment. */
  lemma AdmissionExclusive(qs: Queues, key: string, t1: string, t2: string)
    requires Admission(qs, key, t1) == Proceed && Admission(qs, key, t2) == Proceed
    ensures t1 == t2
  {
  }

  /** Digit strings all of one width. */
  predicate UniformWidth(times: set<string>, w: nat)
  {
    forall x :: x in times ==> |x| == w && AllDigits(x)
  }

  /**
   * Under the assumption that every time string is a numeral of one width, the
   * write admitted is the one with the numerically least outstanding time.
   */
  lemma AdmissionByTime(qs: Queues, key: string, time: string, w: nat)
    requires QueuesValid(qs)
    requires UniformWidth(TicketsOf(qs, key) + {time}, w)
    ensures Admission(qs, key, time) == Proceed <==>
      time in TicketsOf(qs, key) && forall x :: x in TicketsOf(qs, key) ==> Value(time) <= Value(x)
  {
    AdmissionIsLeastTicket(qs, key, time);
    var ts := TicketsOf(qs, key);
    if Admission(qs, key, time) == Proceed {
      forall x | x in ts ensures Value(time) <= Value(x) {
        if x != time { EqualWidthIsNumeric(time, x); }
      }
    } else if time in ts && forall x :: x in ts ==> Value(time) <= Value(x) {
      forall x | x in ts && x != time ensures LexLess(time, x) {
        EqualWidthIsNumeric(time, x);
        EqualWidthIsNumeric(x, time);
        Total(time, x);
      }
      assert false;
    }
  }

  /** Without that assumption string order is not time order: "10" is admitted before "9". */
  lemma MixedWidthAdmitsOutOfOrder()
    ensures QueuesValid(map["k" := ["10", "9"]])
    ensures Admission(map["k" := ["10", "9"]], "k", "10") == Proceed
    ensures Value("9") < Value("10")
  {
    assert LexLess("10", "9");
  }

  /** One coordinator process: its region, its consistency mode and its ticket sets. */
  class Node {
    const region: int
    var consistencyType: string
    var timeQueues: Queues

    ghost predicate Valid()
      reads this
    {
      QueuesValid(timeQueues)
    }

    constructor (region: int)
      ensures this.region == region
      ensures consistencyType == "strong" && timeQueues == map[]
      ensures Valid()
    {
      this.region := region;
      consistencyType := "strong";
      timeQueues := map[];
    }

    /** The `/consistency` endpoint. */
    method SetConsistency(mode: string)
      modifies this`consistencyType
      ensures consistencyType == mode
    {
      consistencyType := mode;
    }

    /** `add_to_queue(key, time, _)`: reserve `time` in the key's ticket set. */
    method AddToQueue(key: string, time: string)
      requires Valid()
      modifies this`timeQueues
      ensures Valid()
      ensures timeQueues == PutTicket(old(timeQueues), key, time)
    {
      timeQueues := PutTicket(timeQueues, key, time);
    }

    /** `signal_done(key, time)`: retire `time` from the key's ticket set. */
    method SignalDone(key: string, time: string)
      requires Valid()
      modifies this`timeQueues
      ensures Valid()
      ensures timeQueues == RemoveTicket(old(timeQueues), key, time)
    {
      timeQueues := RemoveTicket(timeQueues, key, time);
    }

    /** One check of the exit test of `wait_until_free(key, time)`. */
    function WaitUntilFree(key: string, time: string): Gate
      reads this
    {
      Admission(timeQueues, key, time)
    }
  }

  /** The remote calls and gate steps of the coordinator, as abstract events. */
  datatype Action =
    | Ahead(key: string, time: string)
    | Enqueue(key: string, time: string)
    | Await(key: string, time: string)
    | Write(dataCenter: Region, key: string, value: string, time: string, consistency: string)
    | Complete(key: string, time: string)
    | Release(key: string, time: string)
    | Forward(coordinator: Region, key: string, value: string, time: string)
    | Read(dataCenter: Region, key: string, time: string, consistency: string)

  predicate IsGateStep(a: Action)
  {
    a.Ahead? || a.Enqueue? || a.Await? || a.Complete? || a.Release?
  }

  /** Some call of `acts` is a write to a data center. */
  predicate HasWrite(acts: seq<Action>)
  {
    exists i :: 0 <= i < |acts| && acts[i].Write?
  }

  /** The three `KeyValueLib.PUT` calls, one per data center. */
  function Broadcast(key: string, value: string, time: string, consistency: string): seq<Action>
  {
    [Write(USE, key, value, time, consistency),
     Write(USW, key, value, time, consistency),
     Write(SING, key, value, time, consistency)]
  }

  /**
   * The `/put` worker of the coordinator of region `region`, for a request whose
   * raw timestamp is `raw` and whose time after `get_time` is `adjusted`. The
   * mode is read once for the whole request.
   */
  function PutActions(region: int, consistency: string, key: string, value: string,
                      raw: Long, adjusted: string): (acts: seq<Action>)
    ensures forall i :: 0 <= i < |acts| ==> acts[i].key == key
    ensures HasWrite(acts) <==> Owner(key) == RegionOf(region)
  {
    var strong := consistency == "strong";
    var owner := Owner(key);
    if owner == RegionOf(region) then
      var pre := if strong then [Ahead(key, adjusted), Enqueue(key, adjusted), Await(key, adjusted)] else [];
      var acts := pre + Broadcast(key, value, adjusted, consistency)
        + (if strong then [Complete(key, adjusted), Release(key, adjusted)] else []);
      assert acts[|pre|].Write?;
      acts
    else
      (if strong then [Ahead(key, adjusted)] else [])
      + [Forward(owner, key, value, Render(raw as int))]
  }

  /** The `/get` worker: delegate to this region's own data center, ungated. */
  function GetAction(region: int, consistency: string, key: string, raw: Long): (a: Action)
    ensures a.Read? && a.dataCenter == RegionOf(region)
    ensures a.key == key && a.consistency == consistency
    ensures a.time == Render(raw as int) && ParseLong(a.time) == Some(raw)
  {
    ParseLongRender(raw);
    Read(RegionOf(region), key, Render(raw as int), consistency)
  }

  /** Of the three coordinators, exactly one runs the write path for a key. */
  lemma ExactlyOnePrimary(key: string)
    ensures exists r :: 1 <= r <= 3 && Owner(key) == RegionOf(r)
    ensures forall r1, r2 :: 1 <= r1 <= 3 && 1 <= r2 <= 3 && Owner(key) == RegionOf(r1) == RegionOf(r2) ==> r1 == r2
  {
    var r := match Owner(key) case USE => 1 case USW => 2 case SING => 3;
    assert Owner(key) == RegionOf(r);
  }

  /**
   * Run at the coordinators of regions 1, 2 and 3, a `/put` of `key` writes to
   * the data centers at exactly one of them, the key's owner.
   */
  lemma WritesAtExactlyOneCoordinator(consistency: string, key: string, value: string, raw: Long, adjusted: string)
    ensures exists r :: 1 <= r <= 3 && HasWrite(PutActions(r, consistency, key, value, raw, adjusted))
    ensures forall r1, r2 ::
      (1 <= r1 <= 3 && 1 <= r2 <= 3 &&
       HasWrite(PutActions(r1, consistency, key, value, raw, adjusted)) &&
       HasWrite(PutActions(r2, consistency, key, value, raw, adjusted))) ==> r1 == r2
  {
    ExactlyOnePrimary(key);
    var r :| 1 <= r <= 3 && Owner(key) == RegionOf(r);
    assert HasWrite(PutActions(r, consistency, key, value, raw, adjusted));
  }

  /**
   * Strong mode at the primary: reserve at the stores, enqueue, wait for the
   * turn, write to the three data centers with the adjusted time, complete
   * at the stores, release the local ticket, in this order.
   */
  lemma StrongPrimaryActions(region: int, key: string, value: string, raw: Long, adjusted: string)
    requires Owner(key) == RegionOf(region)
    ensures var acts := PutActions(region, "strong", key, value, raw, adjusted);
      |acts| == 8 &&
      acts[..3] == [Ahead(key, adjusted), Enqueue(key, adjusted), Await(key, adjusted)] &&
      acts[3..6] == Broadcast(key, value, adjusted, "strong") &&
      acts[6..] == [Complete(key, adjusted), Release(key, adjusted)]
  {
  }

  /** Other modes at the primary: only the three writes, and no gate step at all. */
  lemma WeakPrimaryActions(region: int, consistency: string, key: string, value: string, raw: Long, adjusted: string)
    requires Owner(key) == RegionOf(region) && consistency != "strong"
    ensures PutActions(region, consistency, key, value, raw, adjusted) == Broadcast(key, value, adjusted, consistency)
  {
  }

  /**
   * Away from the primary: a reservation at the stores in strong mode only,
   * then one forward to the owner, carrying the raw timestamp and not the
   * adjusted one; nothing is written.
   */
  lemma NonPrimaryActions(region: int, consistency: string, key: string, value: string, raw: Long, adjusted: string)
    requires Owner(key) != RegionOf(region)
    ensures var acts := PutActions(region, consistency, key, value, raw, adjusted);
      |acts| == (if consistency == "strong" then 2 else 1) &&
      (consistency == "strong" ==> acts[0] == Ahead(key, adjusted)) &&
      var last := acts[|acts| - 1];
      last.Forward? && last.coordinator == Owner(key) && last.coordinator != RegionOf(region) &&
      last.key == key && last.value == value &&
      last.time == Render(raw as int) && ParseLong(last.time) == Some(raw) &&
      forall i :: 0 <= i < |acts| ==> !acts[i].Write?
  {
    ParseLongRender(raw);
  }

  /** Outside strong mode a worker takes no gate step anywhere. */
  lemma WeakModeHasNoGateSteps(region: int, consistency: string, key: string, value: string, raw: Long, adjusted: string)
    requires consistency != "strong"
    ensures var acts := PutActions(region, consistency, key, value, raw, adjusted);
      forall i :: 0 <= i < |acts| ==> !IsGateStep(acts[i])
  {
  }
}
