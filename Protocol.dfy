/**
 * The `/put` worker's calls replayed against the ticket sets of the two node
 * kinds: the primary's own gate (enqueue, release) and the stores' gates
 * (`/ahead`, `/complete`). Writes, forwards and reads touch no ticket.
 */
module Protocol {
  import opened Numerals
  import opened Tickets
  import opened Coordinator
  import KeyValueStore

  /** One step on the coordinator's own ticket sets. */
  function CoordinatorStep(qs: Queues, a: Action): Queues
  {
    match a
    case Enqueue(k, t) => PutTicket(qs, k, t)
    case Release(k, t) => RemoveTicket(qs, k, t)
    case _ => qs
  }

  /**
   * One call on a store's ticket sets. `/ahead` and `/complete` read the time
   * with `Long.parseLong` and use `Long.toString` of it; a time that does not
   * parse makes the handler throw before anything changes.
   */
  function StoreStep(qs: Queues, a: Action): Queues
  {
    match a
    case Ahead(k, t) =>
      (match ParseLong(t) case Some(n) => PutTicket(qs, k, Render(n as int)) case None => qs)
    case Complete(k, t) =>
      (match ParseLong(t) case Some(n) => RemoveTicket(qs, k, Render(n as int)) case None => qs)
    case _ => qs
  }

  /** The calls that change a ticket set somewhere; waiting for a turn changes none. */
  predicate ChangesTickets(a: Action)
  {
    a.Ahead? || a.Enqueue? || a.Complete? || a.Release?
  }

  function RunCoordinator(qs: Queues, acts: seq<Action>): Queues
    decreases |acts|
  {
    if acts == [] then qs else RunCoordinator(CoordinatorStep(qs, acts[0]), acts[1..])
  }

  function RunStore(qs: Queues, acts: seq<Action>): Queues
    decreases |acts|
  {
    if acts == [] then qs else RunStore(StoreStep(qs, acts[0]), acts[1..])
  }

  lemma {:induction false} RunCoordinatorConcat(qs: Queues, a: seq<Action>, b: seq<Action>)
    ensures RunCoordinator(qs, a + b) == RunCoordinator(RunCoordinator(qs, a), b)
    decreases |a|
  {
    if a != [] {
      assert (a + b)[1..] == a[1..] + b;
      RunCoordinatorConcat(CoordinatorStep(qs, a[0]), a[1..], b);
    } else {
      assert a + b == b;
    }
  }

  lemma {:induction false} RunStoreConcat(qs: Queues, a: seq<Action>, b: seq<Action>)
    ensures RunStore(qs, a + b) == RunStore(RunStore(qs, a), b)
    decreases |a|
  {
    if a != [] {
      assert (a + b)[1..] == a[1..] + b;
      RunStoreConcat(StoreStep(qs, a[0]), a[1..], b);
    } else {
      assert a + b == b;
    }
  }

  /** Calls that change no ticket set leave both kinds of ticket sets alone. */
  lemma {:induction false} RunWithoutTicketChanges(cq: Queues, sq: Queues, acts: seq<Action>)
    requires forall i :: 0 <= i < |acts| ==> !ChangesTickets(acts[i])
    ensures RunCoordinator(cq, acts) == cq && RunStore(sq, acts) == sq
    decreases |acts|
  {
    if acts != [] {
      assert !ChangesTickets(acts[0]);
      RunWithoutTicketChanges(cq, sq, acts[1..]);
    }
  }

  /** A store keeps, for a time written by `Long.toString`, the very same string. */
  lemma StoreTicketIsSentTime(qs: Queues, key: string, n: Long)
    ensures StoreStep(qs, Ahead(key, Render(n as int))) == PutTicket(qs, key, Render(n as int))
    ensures StoreStep(qs, Complete(key, Render(n as int))) == RemoveTicket(qs, key, Render(n as int))
  {
    ParseLongRender(n);
  }

  lemma RunPair(cq: Queues, sq: Queues, a: Action, b: Action)
    ensures RunCoordinator(cq, [a, b]) == CoordinatorStep(CoordinatorStep(cq, a), b)
    ensures RunStore(sq, [a, b]) == StoreStep(StoreStep(sq, a), b)
  {
    assert [a, b][1..] == [b] && [b][1..] == [];
    var c1, s1 := CoordinatorStep(cq, a), StoreStep(sq, a);
    assert RunCoordinator(cq, [a, b]) == RunCoordinator(c1, [b]);
    assert RunCoordinator(c1, [b]) == RunCoordinator(CoordinatorStep(c1, b), []);
    assert RunStore(sq, [a, b]) == RunStore(s1, [b]);
    assert RunStore(s1, [b]) == RunStore(StoreStep(s1, b), []);
  }

  /** The four ticket-changing calls of a strong write at the primary, two at a time. */
  lemma StrongGateSteps(cq: Queues, sq: Queues, key: string, n: Long)
    ensures var t := Render(n as int);
      RunCoordinator(cq, [Ahead(key, t), Enqueue(key, t)]) == PutTicket(cq, key, t) &&
      RunStore(sq, [Ahead(key, t), Enqueue(key, t)]) == PutTicket(sq, key, t) &&
      RunCoordinator(cq, [Complete(key, t), Release(key, t)]) == RemoveTicket(cq, key, t) &&
      RunStore(sq, [Complete(key, t), Release(key, t)]) == RemoveTicket(sq, key, t)
  {
    var t := Render(n as int);
    StoreTicketIsSentTime(sq, key, n);
    RunPair(cq, sq, Ahead(key, t), Enqueue(key, t));
    RunPair(cq, sq, Complete(key, t), Release(key, t));
  }

  /** The stores hold the reservation of a strong write at the primary while its writes go out. */
  lemma StoresHoldReservationDuringWrites(region: int, key: string, value: string, raw: Long, n: Long,
                                          cq: Queues, sq: Queues)
    requires Owner(key) == RegionOf(region)
    ensures var t := Render(n as int);
      var acts := PutActions(region, "strong", key, value, raw, t);
      acts[2] == Await(key, t) &&
      RunCoordinator(cq, acts[..2]) == PutTicket(cq, key, t) &&
      RunStore(sq, acts[..6]) == PutTicket(sq, key, t)
  {
    var t := Render(n as int);
    var acts := PutActions(region, "strong", key, value, raw, t);
    StrongPrimaryActions(region, key, value, raw, t);
    var gate1 := [Ahead(key, t), Enqueue(key, t)];
    var mid := [Await(key, t)] + Broadcast(key, value, t, "strong");
    assert acts[..2] == gate1;
    assert acts[..6] == gate1 + mid;
    StrongGateSteps(cq, sq, key, n);
    RunWithoutTicketChanges(PutTicket(cq, key, t), PutTicket(sq, key, t), mid);
    RunStoreConcat(sq, gate1, mid);
  }

  /**
   * A strong write at the primary, with a time fresh at both gates: when it
   * waits for its turn its own ticket is in place (so the test cannot throw),
   * and when the worker is done every ticket set of both node kinds is as
   * before.
   */
  lemma StrongPrimaryRetiresItsTickets(region: int, key: string, value: string, raw: Long, n: Long,
                                       cq: Queues, sq: Queues)
    requires Owner(key) == RegionOf(region)
    requires Render(n as int) !in TicketsOf(cq, key) && Render(n as int) !in TicketsOf(sq, key)
    ensures var t := Render(n as int);
      var acts := PutActions(region, "strong", key, value, raw, t);
      Admission(RunCoordinator(cq, acts[..2]), key, t) != Throws &&
      (forall k :: TicketsOf(RunCoordinator(cq, acts), k) == TicketsOf(cq, k)) &&
      (forall k :: TicketsOf(RunStore(sq, acts), k) == TicketsOf(sq, k))
  {
    var t := Render(n as int);
    var mid := [Await(key, t)] + Broadcast(key, value, t, "strong");
    StrongPrimaryLayout(region, key, value, raw, t);
    BracketRetires(cq, sq, key, n, mid);
  }

  /** A fresh reservation bracketing calls that change no ticket is retired without trace. */
  lemma BracketRetires(cq: Queues, sq: Queues, key: string, n: Long, mid: seq<Action>)
    requires forall i :: 0 <= i < |mid| ==> !ChangesTickets(mid[i])
    requires Render(n as int) !in TicketsOf(cq, key) && Render(n as int) !in TicketsOf(sq, key)
    ensures var t := Render(n as int);
      var acts := [Ahead(key, t), Enqueue(key, t)] + mid + [Complete(key, t), Release(key, t)];
      Admission(RunCoordinator(cq, acts[..2]), key, t) != Throws &&
      (forall k :: TicketsOf(RunCoordinator(cq, acts), k) == TicketsOf(cq, k)) &&
      (forall k :: TicketsOf(RunStore(sq, acts), k) == TicketsOf(sq, k))
  {
    var t := Render(n as int);
    var acts := [Ahead(key, t), Enqueue(key, t)] + mid + [Complete(key, t), Release(key, t)];
    assert acts[..2] == [Ahead(key, t), Enqueue(key, t)];
    StrongGateSteps(cq, sq, key, n);
    assert t in TicketsOf(RunCoordinator(cq, acts[..2]), key);
    BracketedRun(cq, sq, key, n, mid);
    PutThenRemove(cq, key, t);
    PutThenRemove(sq, key, t);
  }

  lemma StrongPrimaryLayout(region: int, key: string, value: string, raw: Long, t: string)
    requires Owner(key) == RegionOf(region)
    ensures PutActions(region, "strong", key, value, raw, t) ==
      [Ahead(key, t), Enqueue(key, t)] + ([Await(key, t)] + Broadcast(key, value, t, "strong")) +
      [Complete(key, t), Release(key, t)]
  {
    StrongPrimaryActions(region, key, value, raw, t);
  }

  /**
   * Two strong writes of one key with the same adjusted time share a single
   * ticket: the second enqueue changes nothing, both pass the admission test
   * on the same state, and the first release retires the only ticket while
   * the second write's PUTs may still be going out.
   */
  lemma EqualTimesShareOneTicket(cq: Queues, key: string, t: string)
    requires QueuesValid(cq)
    requires forall x :: x in TicketsOf(cq, key) ==> Lex.LexLess(t, x)
    ensures var one := CoordinatorStep(cq, Enqueue(key, t));
      CoordinatorStep(one, Enqueue(key, t)) == one &&
      Admission(one, key, t) == Proceed &&
      TicketsOf(CoordinatorStep(one, Release(key, t)), key) == TicketsOf(cq, key)
  {
    var one := PutTicket(cq, key, t);
    PutTicketPresent(one, key, t);
    AdmissionIsLeastTicket(one, key, t);
    Lex.Irreflexive(t);
  }

  /** Reserving, then calls that change no ticket, then retiring, as one run. */
  lemma BracketedRun(cq: Queues, sq: Queues, key: string, n: Long, mid: seq<Action>)
    requires forall i :: 0 <= i < |mid| ==> !ChangesTickets(mid[i])
    ensures var t := Render(n as int);
      var acts := [Ahead(key, t), Enqueue(key, t)] + mid + [Complete(key, t), Release(key, t)];
      RunCoordinator(cq, acts) == RemoveTicket(PutTicket(cq, key, t), key, t) &&
      RunStore(sq, acts) == RemoveTicket(PutTicket(sq, key, t), key, t)
  {
    var t := Render(n as int);
    var gate1 := [Ahead(key, t), Enqueue(key, t)];
    var gate2 := [Complete(key, t), Release(key, t)];
    StrongGateSteps(cq, sq, key, n);
    StrongGateSteps(PutTicket(cq, key, t), PutTicket(sq, key, t), key, n);
    RunWithoutTicketChanges(PutTicket(cq, key, t), PutTicket(sq, key, t), mid);
    RunCoordinatorConcat(cq, gate1, mid);
    RunCoordinatorConcat(cq, gate1 + mid, gate2);
    RunStoreConcat(sq, gate1, mid);
    RunStoreConcat(sq, gate1 + mid, gate2);
  }

  /**
   * While those writes go out, a strong read of the key at a time not earlier
   * than the write's is held back at every store, under the one-width
   * assumption for the time strings: it waits when its time fits an int, and
   * the store's test throws otherwise.
   */
  lemma ReadsWaitForStrongWrite(region: int, key: string, value: string, raw: Long, n: Long,
                                sq: Queues, readTime: string, w: nat)
    requires Owner(key) == RegionOf(region) && QueuesValid(sq)
    requires 0 <= n as int && |Render(n as int)| == w
    requires |readTime| == w && AllDigits(readTime) && n as int <= Value(readTime)
    requires forall x :: x in TicketsOf(sq, key) ==> |x| == w && AllDigits(x)
    ensures var acts := PutActions(region, "strong", key, value, raw, Render(n as int));
      var g := KeyValueStore.ReadGate(RunStore(sq, acts[..6]), key, readTime);
      g != Gate.Proceed && (g == Gate.Wait <==> Value(readTime) <= INT_MAX)
  {
    var t := Render(n as int);
    assert t == Decimal(n as int);
    StoresHoldReservationDuringWrites(region, key, value, raw, n, map[], sq);
    KeyValueStore.ReadWaitsBehindTicket(PutTicket(sq, key, t), key, t, readTime, w);
  }

  /**
   * A strong write away from the primary reserves its time at the stores and
   * leaves that reservation for someone else to retire; it does not touch the
   * coordinator's own gate.
   */
  lemma NonPrimaryLeavesReservation(region: int, key: string, value: string, raw: Long, n: Long,
                                    cq: Queues, sq: Queues)
    requires Owner(key) != RegionOf(region)
    ensures var t := Render(n as int);
      var acts := PutActions(region, "strong", key, value, raw, t);
      RunCoordinator(cq, acts) == cq &&
      TicketsOf(RunStore(sq, acts), key) == TicketsOf(sq, key) + {t} &&
      (forall k :: k != key ==> TicketsOf(RunStore(sq, acts), k) == TicketsOf(sq, k))
  {
    var t := Render(n as int);
    var acts := PutActions(region, "strong", key, value, raw, t);
    var fwd := [Forward(Owner(key), key, value, Render(raw as int))];
    assert acts == [Ahead(key, t)] + fwd;
    StoreTicketIsSentTime(sq, key, n);
    RunCoordinatorConcat(cq, [Ahead(key, t)], fwd);
    RunStoreConcat(sq, [Ahead(key, t)], fwd);
    RunWithoutTicketChanges(cq, PutTicket(sq, key, t), fwd);
  }

  /** Outside strong mode a worker changes no ticket set anywhere. */
  lemma WeakModeLeavesGatesAlone(region: int, consistency: string, key: string, value: string,
                                 raw: Long, adjusted: string, cq: Queues, sq: Queues)
    requires consistency != "strong"
    ensures var acts := PutActions(region, consistency, key, value, raw, adjusted);
      RunCoordinator(cq, acts) == cq && RunStore(sq, acts) == sq
  {
    WeakModeHasNoGateSteps(region, consistency, key, value, raw, adjusted);
    RunWithoutTicketChanges(cq, sq, PutActions(region, consistency, key, value, raw, adjusted));
  }
}
