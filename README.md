# Geo-replicated key-value store: coordinator and replica-store core

This project models the sequential core of a key-value store replicated over
three regions (US-East, US-West, Singapore). Each region runs a coordinator and
a data-center store. The model covers:

- **Ownership routing**: which coordinator is primary for a key (`key_to_cr`).
- **Time selection**: the time string a `/put` uses (`get_time`). The skew
  correction `Skews.handleSkew` is an external class outside Coordinator.java
  and KeyValueStore.java, so it is an uninterpreted function parameter.
- **Ordering gates**: each node keeps per-key ticket sets (`timeQueues`, a
  `HashMap` of `TreeMap<String, String>`). The coordinator admits the write
  whose time is the first ticket. The store lets a strong read go only while
  its time is below the first ticket.
- **Write orchestration**: a coordinator `/put` worker, written as the ordered
  list of remote calls and gate steps it issues. A protocol module replays
  that list against the ticket sets of both kinds of node.
- **Replica apply and read**: the per-key list of (timestamp, value) entries.
  Eventual mode appends. Every other mode inserts at the first later entry.
  A read concatenates each payload and a space. Reset empties the table.

Modules:

- `Wrappers`: `Option`.
- `Numerals`: Java `long`, `Long.toString`, `Long.parseLong` and
  `Integer.parseInt` over ASCII digits.
- `Lex`: the order of `String.compareTo`.
- `Tickets`: TreeMap key sets and the `add_to_queue` / `signal_done` /
  `remove_from_queue` updates.
- `Coordinator`: routing, `get_time`, the strict-earliest gate, class `Node`,
  and the action list.
- `KeyValueStore`: apply/read, the read gate, and class `Store`.
- `Protocol`: the action list replayed against the ticket sets.

Each ticket or table update is a method of `Coordinator.Node` or
`KeyValueStore.Store`. Its `ensures` ties the new state to a pure function of
the old state, and lemmas prove what the Java code promises about those functions.
A blocking monitor loop (`wait_until_free`) is modelled by one check of its
exit condition. That check returns `Proceed`, `Wait` or `Throws`, the last
where Java would raise an exception. The coordinator's `/put` worker is not a
`Node` method: it is the action list `Coordinator.PutActions`, which
`Protocol.RunCoordinator` and `Protocol.RunStore` replay against the ticket sets.

Assumption on times: the ticket sets are ordered as strings, but the times are
numbers. The model proves that the two orders agree only for decimal numerals
of one width, such as epoch milliseconds of equal length
(`Lex.EqualWidthIsNumeric`). Two lemmas show the orders disagreeing when widths
differ (`Coordinator.MixedWidthAdmitsOutOfOrder`,
`KeyValueStore.MixedWidthReadOvertakes`).

Points where the model follows the code's exact behaviour:

- The store appends only for the mode string `"eventual"`. Any other string,
  including unknown ones, inserts by time.
- The store's read gate compares `Integer.parseInt` of the read time with the
  lexicographically first ticket, not with the numerically least one.
- A strong write at a non-primary coordinator reserves its own unadjusted
  time at the stores. Nothing in Coordinator.java or KeyValueStore.java retires that ticket
  (`Protocol.NonPrimaryLeavesReservation`). Whether the primary's later
  `COMPLETE` hits the same string depends on `handleSkew` and on the RPC
  library, which are not part of this model.
- In the Java code, a store's value table and its ticket sets sit on two
  different objects of the same class. The model keeps them in one
  `KeyValueStore.Store`.

## Model

| member | source | states |
|---|---|---|
| Numerals.Decimal | Coordinator.java:137 | the numeral `Long.toString` writes for a non-negative number is a non-empty digit string with no leading zero that denotes exactly that number |
| Numerals.ParseLong | KeyValueStore.java:104 | `Long.parseLong` succeeds exactly on a signed digit string within the 64-bit range, and returns its value |
| Numerals.ParseInt | KeyValueStore.java:74 | `Integer.parseInt` succeeds exactly on a signed digit string within the 32-bit range, and returns its value |
| Numerals.Render | Coordinator.java:137 | `Long.toString`: a minus sign for negative numbers, then the numeral `Decimal` gives; its partner is `Numerals.ParseRender` |
| Numerals.ParseIntOfDigits | KeyValueStore.java:74 | a digit string is read by `parseInt` as its value when that fits an int, and rejected otherwise |
| Numerals.WideNumeralExceedsInt | KeyValueStore.java:74 | a numeral of eleven or more digits without a leading zero is beyond the int range, so `parseInt` rejects it |
| Numerals.ParseRender | Coordinator.java:137-147 | reading back what `Long.toString` wrote gives the same number, negative numbers included |
| Numerals.ParseLongRender | KeyValueStore.java:246-251 | `Long.parseLong` of `Long.toString(n)` is `n`, so `/ahead` files the very string the coordinator sent |
| Lex.LexLess | Coordinator.java:52 | the `String.compareTo` order the ticket TreeMaps keep their keys in (also KeyValueStore.java:35); its partners are `Lex.Transitive`, `Lex.Total` and `Lex.EqualWidthIsNumeric` |
| Lex.Transitive | Coordinator.java:52 | the TreeMap key order is transitive |
| Lex.Total | Coordinator.java:52 | any two different time strings are ordered one way or the other |
| Lex.EqualWidthIsNumeric | Coordinator.java:52 | on digit strings of one width, string order is numeric order, in both directions |
| Tickets.HeadIsLeast | Coordinator.java:77 | the first key of a sorted ticket map comes before every other ticket |
| Tickets.Put | Coordinator.java:67 | `TreeMap.put` adds exactly the new time to the key set and keeps it sorted |
| Tickets.Remove | Coordinator.java:90 | `TreeMap.remove` takes exactly that time out of the key set and keeps it sorted |
| Tickets.SortedUnique | Coordinator.java:51-52 | a sorted ticket sequence is determined by its set of tickets, so it is a faithful stand-in for the TreeMap key set |
| Tickets.PutPresent | Coordinator.java:67 | putting a time that is already a ticket leaves the key set unchanged (deduplication) |
| Tickets.RemoveAbsent | Coordinator.java:90 | removing a time that is not a ticket changes nothing |
| Tickets.RemovePutFresh | Coordinator.java:67-90 | a put of a fresh time followed by its remove gives back the same sequence |
| Tickets.PutTicket | Coordinator.java:57-69 | `add_to_queue` creates the key if needed, leaves the key with its old tickets plus the new time, keeps every other key's map and keeps all maps sorted |
| Tickets.RemoveTicket | Coordinator.java:87-94 | `signal_done` removes exactly that time from the key and changes no other key; a key with no map is left as it is, because the NullPointerException is thrown before any change |
| Tickets.PutTicketPresent | KeyValueStore.java:40-54 | adding a time that is already a ticket leaves all ticket maps unchanged |
| Tickets.PutThenRemove | KeyValueStore.java:40-65 | adding a fresh time and then retiring it restores every key's ticket set, and restores the map itself when the key existed |
| Coordinator.RegionOf | Coordinator.java:97-108 | region number to region, standing for `local_dc`, `local_cr` and the last step of `key_to_cr`; its partners are `Coordinator.RegionOfNumbers`, `Coordinator.ExactlyOnePrimary` and `Coordinator.WritesAtExactlyOneCoordinator` |
| Coordinator.CharSum | Coordinator.java:121-125 | the character-code sum of a key; its partner is `Coordinator.CharSumPermutation`, and `Coordinator.KeyToCr` proves the loop computes it |
| Coordinator.RegionCode | Coordinator.java:140-147 | the region number `get_time` passes to `handleSkew`; used by the contract of `Coordinator.GetTime` |
| Coordinator.RegionOfNumbers | Coordinator.java:97-108 | region numbers 1, 2 and 3 name three different regions, and any other number means Singapore |
| Coordinator.Owner | Coordinator.java:111-132 | the primary of a key: "a", "b" and "c" pinned, every other key by its character-code sum mod 3 plus 1; its partners are `Coordinator.KeyToCr` and `Coordinator.OwnerPermutation` |
| Coordinator.KeyToCr | Coordinator.java:111-132 | the loop that sums character codes returns the specified owner for every key |
| Coordinator.FixedKeys | Coordinator.java:112-131 | "a", "b" and "c" go to US-East, US-West and Singapore, and each of these differs from what the hash would give |
| Coordinator.EveryRegionOwnsAKey | Coordinator.java:116-131 | each of the three coordinators is primary for some key other than the pinned three |
| Coordinator.CharSumPermutation | Coordinator.java:121-125 | the character-code sum depends only on the multiset of characters |
| Coordinator.OwnerPermutation | Coordinator.java:111-132 | two keys that are permutations of each other have the same primary, pinned keys included |
| Coordinator.GetTime | Coordinator.java:135-150 | a first-hop request keeps its own timestamp; a forwarded one gets `handleSkew` applied with region 1 for "1", 2 for "2" and 3 otherwise; a forwarded request without a region fails; the result is exactly the `Long.toString` string of that number, and parses back to it |
| Coordinator.Admission | Coordinator.java:77 | the admission test throws exactly when the key has no tickets |
| Coordinator.AdmissionIsLeastTicket | Coordinator.java:77 | a write is admitted iff its time is a ticket of its key and comes before every other ticket of that key |
| Coordinator.AdmissionExclusive | Coordinator.java:73-84 | at most one time per key is admissible at any moment |
| Coordinator.AdmissionByTime | Coordinator.java:77 | with one-width numeral times, the admitted write is the one with the numerically least outstanding time |
| Coordinator.MixedWidthAdmitsOutOfOrder | Coordinator.java:77 | with tickets "10" and "9", the test admits "10" first even though 9 < 10 |
| Coordinator.Node.WaitUntilFree | Coordinator.java:73-84 | one check of the coordinator's monitor-loop exit test on the node's own tickets, i.e. `Coordinator.Admission` of them |
| Coordinator.Node.constructor | Coordinator.java:31-52 | a coordinator starts in strong mode with no tickets |
| Coordinator.Node.SetConsistency | Coordinator.java:252-260 | `/consistency` sets the mode and nothing else |
| Coordinator.Node.AddToQueue | Coordinator.java:57-69 | the ticket sets become `PutTicket` of the old ones and stay sorted |
| Coordinator.Node.SignalDone | Coordinator.java:87-94 | the ticket sets become `RemoveTicket` of the old ones and stay sorted |
| Coordinator.PutActions | Coordinator.java:183-219 | every call the worker issues concerns the request's key, and it writes to the data centers exactly when the node's region owns the key |
| Coordinator.WritesAtExactlyOneCoordinator | Coordinator.java:97-108 | run at the coordinators of regions 1, 2 and 3, a `/put` of a key writes to the data centers at exactly one of them |
| Coordinator.GetAction | Coordinator.java:237-242 | a `/get` goes ungated to the node's own data center, carrying the request's key and mode and the `Long.toString` string of its timestamp, which parses back to it |
| Coordinator.ExactlyOnePrimary | Coordinator.java:183-186 | for every key, exactly one of the regions 1, 2 and 3 is primary |
| Coordinator.StrongPrimaryActions | Coordinator.java:186-211 | strong mode at the primary issues AHEAD, enqueue, await, then PUT to US-East, US-West and Singapore with the adjusted time, then COMPLETE and release |
| Coordinator.WeakPrimaryActions | Coordinator.java:199-202 | any other mode at the primary issues only the three PUTs |
| Coordinator.NonPrimaryActions | Coordinator.java:212-219 | away from the primary the worker issues AHEAD only in strong mode, then one FORWARD to the owner carrying the raw timestamp, and no PUT |
| Coordinator.WeakModeHasNoGateSteps | Coordinator.java:188-215 | outside strong mode no reservation, enqueue, await, completion or release is issued |
| KeyValueStore.InsertPos | KeyValueStore.java:120-126 | the insert index never exceeds the list length |
| KeyValueStore.InsertPosIsFirstLater | KeyValueStore.java:121-125 | every entry before the insert index is no later than the new time, and the entry at the index is strictly later |
| KeyValueStore.InsertPosUnique | KeyValueStore.java:121-125 | the first-later index is unique |
| KeyValueStore.FindInsertIndex | KeyValueStore.java:120-126 | the search loop stops at the first entry strictly later than the new time, or at the end |
| KeyValueStore.SortedInsert | KeyValueStore.java:120-127 | `values.add(i, sv)` at the first later index; its partners are `SortedInsertShape`, `SortedInsertKeepsSorted` and `SortedInsertAfterEqual` |
| KeyValueStore.SortedInsertShape | KeyValueStore.java:127 | the insert grows the list by one; the prefix stays, the new entry sits at the index, the rest is shifted, and the multiset gains exactly the new entry |
| KeyValueStore.SortedInsertKeepsSorted | KeyValueStore.java:120-127 | on a list sorted by time the insert keeps it sorted |
| KeyValueStore.SortedInsertAfterEqual | KeyValueStore.java:152-159 | on a sorted list exactly the entries not later than the new one come before it, so equal times keep arrival order |
| KeyValueStore.ApplyPut | KeyValueStore.java:111-168 | the `/put` handler's effect on the table; its partners are `ApplyPutEffect`, `ApplyPutKeepsSorted` and `ReadAfterPut` |
| KeyValueStore.ApplyPutEffect | KeyValueStore.java:111-168 | an unseen key gets the one-entry list; eventual mode appends and keeps the prefix; every mode adds exactly the new entry; other keys are untouched |
| KeyValueStore.ApplyPutKeepsSorted | KeyValueStore.java:147-168 | outside eventual mode every list of the table stays sorted by time |
| KeyValueStore.Joined | KeyValueStore.java:197-199 | the reply is empty exactly when the list is, and otherwise ends in a space |
| KeyValueStore.Lookup | KeyValueStore.java:192-200 | the reply is empty exactly when the key is unseen or has no entries |
| KeyValueStore.JoinedConcat | KeyValueStore.java:197-199 | the reply for two lists in a row is the two replies in a row |
| KeyValueStore.ReadAfterPut | KeyValueStore.java:192-200 | after a PUT the reply for its key holds the new payload and a space, at the end in eventual mode or for an unseen key, between the replies for earlier and later entries otherwise |
| KeyValueStore.ReadOtherKey | KeyValueStore.java:192-200 | a PUT leaves the reply for every other key unchanged |
| KeyValueStore.CausalOrdersByTime | KeyValueStore.java:115-127 | causal PUTs of 200 "late" then 100 "early" read "early late "; eventual ones read "late early " |
| KeyValueStore.ReadGate | KeyValueStore.java:72-74 | a read proceeds when the key has no tickets |
| KeyValueStore.ReadGateByTime | KeyValueStore.java:72-74 | with one-width numeral times in int range the test never throws, and a read proceeds iff every outstanding ticket is strictly later than it |
| KeyValueStore.ReadWaitsBehindTicket | KeyValueStore.java:68-81 | with the read time and every ticket numerals of one width, a read is never let through while a ticket not later than its time is outstanding: it waits when its time fits an int, and the test throws when it does not |
| KeyValueStore.WideReadTimeThrows | KeyValueStore.java:72-74 | a read time of eleven or more digits, such as a current time in milliseconds, makes the test throw whenever the key has an outstanding ticket, so the strong read never replies |
| KeyValueStore.MixedWidthReadOvertakes | KeyValueStore.java:72-74 | with tickets "10" and "9", a read at 9 proceeds past the pending write at 9 |
| KeyValueStore.Store.constructor | KeyValueStore.java:28-35 | a store starts with no keys and no tickets |
| KeyValueStore.Store.Put | KeyValueStore.java:93-168 | the table becomes `ApplyPut` of the old one with the skew-corrected entry |
| KeyValueStore.Store.Get | KeyValueStore.java:192-200 | the accumulation loop returns the payloads of the key's list, each followed by a space, in list order, or "" for an unseen key |
| KeyValueStore.Store.WaitUntilFree | KeyValueStore.java:68-81 | one check of the store's monitor-loop exit test on the store's tickets, i.e. `KeyValueStore.ReadGate` of them |
| KeyValueStore.Store.TryGet | KeyValueStore.java:190-226 | outside strong mode the reply comes at once; in strong mode it comes only when the read gate admits the read's time |
| KeyValueStore.Store.Ahead | KeyValueStore.java:240-259 | `/ahead` adds `Long.toString` of the time to the key's tickets |
| KeyValueStore.Store.Complete | KeyValueStore.java:262-281 | `/complete` retires `Long.toString` of the time from the key's tickets |
| KeyValueStore.Store.Reset | KeyValueStore.java:284-293 | after reset the table is empty and every read replies "" |
| Protocol.StoreStep | KeyValueStore.java:240-281 | `/ahead` and `/complete` on a store's tickets: parse the time, then add or retire `Long.toString` of it; a time that does not parse changes nothing; its partner is `Protocol.StoreTicketIsSentTime` |
| Protocol.StoreTicketIsSentTime | KeyValueStore.java:240-281 | a store files and retires exactly the time string the coordinator sent |
| Protocol.EqualTimesShareOneTicket | Coordinator.java:67-90 | two strong writes of a key with the same adjusted time share one ticket: the second enqueue changes nothing, both are admitted on the same state, and the first release retires the ticket the second still relies on |
| Protocol.StoresHoldReservationDuringWrites | Coordinator.java:188-202 | while a strong primary's three PUTs go out, its own ticket is in the coordinator gate it awaits on, and the stores hold its reservation |
| Protocol.StrongPrimaryRetiresItsTickets | Coordinator.java:186-210 | in the run where no remote call fails, a strong write at the primary with a fresh time cannot hit a throwing admission test, and leaves every ticket set of both node kinds as it found it |
| Protocol.BracketRetires | Coordinator.java:188-210 | a fresh reservation taken at both gates, followed by calls that change no ticket and then its completion and release, finds a non-empty gate and leaves every ticket set as it found it |
| Protocol.ReadsWaitForStrongWrite | Coordinator.java:189-206 | with one-width numeral times, while those PUTs go out a strong store read at a time not earlier than the write is never let through: it waits when its time fits an int, and the store's test throws otherwise |
| Protocol.NonPrimaryLeavesReservation | Coordinator.java:212-219 | a strong write away from the primary adds its time to the stores' tickets, retires nothing and leaves the coordinator gate alone |
| Protocol.WeakModeLeavesGatesAlone | Coordinator.java:188-210 | outside strong mode a worker changes no ticket set anywhere |

## Left out

- The Vert.x HTTP server, route matching, request-parameter parsing and response writing: this is I/O. Handlers take already-parsed values. Replies such as "stored", "Not found." and the coordinator's fallback "0" are not modelled.
- Threads, `synchronized`, `lock.wait()` and `notifyAll()`: this is concurrency. Each monitor loop is one check of its exit condition (`Gate`). Waking up and retrying are not modelled, and neither is the ordering between threads.
- The race on the static `consistencyType`: `PutActions` reads the mode once per request, while the Java code reads the field at every `if`.
- `KeyValueLib` calls (AHEAD, PUT, COMPLETE, FORWARD, GET, COUNT, RESET): the library is not part of this model, so the calls are abstract `Action` values. What region and arguments it sends to a store, the forward counter and the coordinator's `/reset` and `/forwardcount` are therefore not modelled.
- The address-book registration (Coordinator.java:154-159) is configuration. The DNS names become the three `Region` values.
- `Skews.handleSkew` is an external class outside Coordinator.java and KeyValueStore.java, so it is an uninterpreted function parameter.
- The values of the ticket TreeMaps (the request value, or "") are never read, so they are dropped.
- Number parsing: only ASCII digits with an optional sign are read. Java would also accept other Unicode digits.
- Characters are Dafny characters (Unicode scalar values). Java's `char` and `compareTo` work on UTF-16 code units, so keys outside the Basic Multilingual Plane are not modelled faithfully.
- Coordinator.CharSum: it uses unbounded integers, so Java `int` overflow of the sum for very long keys is not modelled.
- Coordinator.AdmissionByTime: it reads the admission order as time order only for numeral times of one width. `Coordinator.MixedWidthAdmitsOutOfOrder` shows the general case differs.
- KeyValueStore.ReadGateByTime: it reads the gate as "no earlier-or-equal ticket" only for one-width numerals in int range. `KeyValueStore.MixedWidthReadOvertakes` shows the general case differs.
- Coordinator.PutActions: models only the run in which no `KeyValueLib` call fails. The worker at Coordinator.java:182-220 swallows any exception. A failing call therefore skips the remaining PUTs, COMPLETE and `signal_done`, and leaves the tickets in place. `Protocol.StrongPrimaryRetiresItsTickets` holds only for the failure-free run.
- KeyValueStore.ReadWaitsBehindTicket: it states that reads are held back only for numeral times of one width. `KeyValueStore.MixedWidthReadOvertakes` shows a read at "9" passing the outstanding ticket "9".
- Protocol.ReadsWaitForStrongWrite: it rests on the same one-width premise as `KeyValueStore.ReadWaitsBehindTicket`, and says nothing for mixed widths.
- `local_dc` and `local_cr`: both become `Coordinator.RegionOf` of the node's region, because host names are abstracted to regions.
- Null request values: a missing `value` would be stored and read back as Java's "null", and a `/consistency` call without a mode sets `consistencyType` to null (Coordinator.java:256), after which every `/put` worker throws at its first mode test (Coordinator.java:188 or :214) and issues nothing. Payloads and modes here are always strings.
