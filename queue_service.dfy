/** The walk-in ticket queue of lib/queue-service.ts: a table of tickets, each
    `waiting`, `being_served`, `completed` or `abandoned`, and a single
    settings row holding the ticket being served and the last ticket number
    handed out. Enrolment, calling the next client, abandoning and completing
    a service write to that store step by step and send e-mails on the way.

    The store and the outgoing mail are the fields of class
    `QueueCoordinator`. The queries (`getQueueClients`, `getCurrentTicket`,
    the selection of `checkAndNotifyUpcoming`) are pure functions over the
    ticket list, and the lemmas say what they and the writes guarantee. */
module QueueService {
  import opened Base

  type TicketId = nat
  type Stamp = nat

  datatype Status = Waiting | BeingServed | Completed | Abandoned

  /** A row of the `queues` table. `position` is the number of waiting
      tickets when this one was enrolled; it is never renumbered. */
  datatype Ticket = Ticket(
    id: TicketId, name: string, phone: string, email: string,
    status: Status, position: nat, createdAt: Stamp,
    calledAt: Option<Stamp>, completedAt: Option<Stamp>)

  /** The `queue_settings` row. */
  datatype Settings = Settings(currentTicket: Option<TicketId>, lastTicketNumber: int)

  /** An e-mail handed to the gateway: the confirmation of an enrolment (with
      the ticket number and the place announced), the your-turn notice, and
      the almost-your-turn notice with the number of people ahead. */
  datatype Notice =
    | Confirmation(email: string, name: string, ticketNumber: int, place: nat)
    | YourTurn(email: string, name: string)
    | AlmostYourTurn(email: string, name: string, peopleAhead: nat)

  /** The errors the operations and their routes raise. */
  datatype QueueError =
    | SettingsNotFound          // "Configurações da fila não encontradas"
    | ClientNotFound            // "Cliente não encontrado"
    | DeliveryFailed(notice: Notice)
    | MissingFields             // 400 of POST /api/queue
    | MissingClientId           // 400 of POST /api/queue/abandon

  /** What a successful enrolment returns: the new row and its ticket number. */
  datatype Enrolment = Enrolment(ticket: Ticket, ticketNumber: int)

  // ---------------------------------------------------------------------------
  // Waiting tickets
  // ---------------------------------------------------------------------------

  /** `.eq("status", "waiting")`, in table order. */
  function WaitingTickets(ts: seq<Ticket>): (r: seq<Ticket>)
    ensures |r| <= |ts|
  {
    if ts == [] then [] else (if ts[0].status == Waiting then [ts[0]] else []) + WaitingTickets(ts[1..])
  }

  /** The waiting tickets are exactly the tickets whose status is `waiting`. */
  lemma {:induction false} WaitingMembers(ts: seq<Ticket>)
    ensures forall t :: t in WaitingTickets(ts) <==> t in ts && t.status == Waiting
  {
    if ts != [] {
      WaitingMembers(ts[1..]);
      assert ts == [ts[0]] + ts[1..];
    }
  }

  lemma {:induction false} WaitingAppend(a: seq<Ticket>, b: seq<Ticket>)
    ensures WaitingTickets(a + b) == WaitingTickets(a) + WaitingTickets(b)
  {
    if a == [] {
      assert a + b == b;
    } else {
      var ab := a + b;
      var h := if a[0].status == Waiting then [a[0]] else [];
      assert ab[0] == a[0];
      assert ab[1..] == a[1..] + b;
      WaitingAppend(a[1..], b);
      calc {
        WaitingTickets(ab);
        h + WaitingTickets(a[1..] + b);
        h + (WaitingTickets(a[1..]) + WaitingTickets(b));
        (h + WaitingTickets(a[1..])) + WaitingTickets(b);
      }
    }
  }

  // ---------------------------------------------------------------------------
  // getQueueClients: waiting tickets by ascending position
  // ---------------------------------------------------------------------------

  predicate SortedByPosition(q: seq<Ticket>)
  {
    forall i, j :: 0 <= i < j < |q| ==> q[i].position <= q[j].position
  }

  /** Inserts `x` before the first ticket whose position is not below its
      own, so `x` goes ahead of the tickets that share its position. */
  function InsertByPosition(q: seq<Ticket>, x: Ticket): (r: seq<Ticket>)
    ensures |r| == |q| + 1
    ensures r[0] == x || (q != [] && r[0] == q[0])
  {
    if q == [] then [x]
    else if q[0].position < x.position then [q[0]] + InsertByPosition(q[1..], x)
    else [x] + q
  }

  lemma {:induction false} InsertByPositionSorted(q: seq<Ticket>, x: Ticket)
    requires SortedByPosition(q)
    ensures SortedByPosition(InsertByPosition(q, x))
  {
    if q != [] && q[0].position < x.position {
      var rest := InsertByPosition(q[1..], x);
      assert SortedByPosition(q[1..]) by {
        forall i, j | 0 <= i < j < |q[1..]| ensures q[1..][i].position <= q[1..][j].position {
          assert q[1..][i] == q[i + 1] && q[1..][j] == q[j + 1];
        }
      }
      InsertByPositionSorted(q[1..], x);
      var r := [q[0]] + rest;
      assert r == InsertByPosition(q, x);
      assert q[0].position <= rest[0].position by {
        if |q| > 1 { assert q[0].position <= q[1].position; }
      }
      forall i, j | 0 <= i < j < |r| ensures r[i].position <= r[j].position {
        if i == 0 {
          assert r[j] == rest[j - 1];
          assert j - 1 == 0 || rest[0].position <= rest[j - 1].position;
        } else {
          assert r[i] == rest[i - 1] && r[j] == rest[j - 1];
        }
      }
    }
  }

  lemma {:induction false} InsertByPositionPermutes(q: seq<Ticket>, x: Ticket)
    ensures multiset(InsertByPosition(q, x)) == multiset(q) + multiset{x}
  {
    if q != [] && q[0].position < x.position {
      InsertByPositionPermutes(q[1..], x);
      assert InsertByPosition(q, x) == [q[0]] + InsertByPosition(q[1..], x);
      assert q == [q[0]] + q[1..];
    }
  }

  /** `.order("position", { ascending: true })`. Rows of equal position come
      back in an order the store does not fix; this model keeps table order
      among them (`SortHeadIsFirstMinimal`), which decides the ticket
      `NextClient` picks and which client `FirstAtPosition` finds. */
  function SortByPosition(q: seq<Ticket>): (r: seq<Ticket>)
    ensures SortedByPosition(r)
  {
    if q == [] then []
    else
      var rest := SortByPosition(q[1..]);
      InsertByPositionSorted(rest, q[0]);
      InsertByPosition(rest, q[0])
  }

  lemma {:induction false} SortByPositionPermutes(q: seq<Ticket>)
    ensures multiset(SortByPosition(q)) == multiset(q)
  {
    if q != [] {
      SortByPositionPermutes(q[1..]);
      InsertByPositionPermutes(SortByPosition(q[1..]), q[0]);
      assert q == [q[0]] + q[1..];
    }
  }

  /** The head of the ordered list is the earliest ticket, in input order,
      among those of minimal position: every ticket before it has a higher
      position. */
  lemma {:induction false} SortHeadIsFirstMinimal(q: seq<Ticket>)
    requires q != []
    ensures exists k :: 0 <= k < |q| && SortByPosition(q)[0] == q[k] &&
                        forall i :: 0 <= i < k ==> q[i].position > q[k].position
  {
    var x := q[0];
    var rest := SortByPosition(q[1..]);
    if rest == [] || x.position <= rest[0].position {
      assert SortByPosition(q)[0] == q[0];
    } else {
      SortHeadIsFirstMinimal(q[1..]);
      var k :| 0 <= k < |q[1..]| && rest[0] == q[1..][k] &&
               forall i :: 0 <= i < k ==> q[1..][i].position > q[1..][k].position;
      assert SortByPosition(q) == [rest[0]] + InsertByPosition(rest[1..], x);
      assert q[k + 1] == rest[0];
      forall i | 0 <= i < k + 1 ensures q[i].position > q[k + 1].position {
        if i > 0 { assert q[i] == q[1..][i - 1]; }
      }
    }
  }

  /** `getQueueClients`: the waiting tickets by ascending position. */
  function QueueClients(ts: seq<Ticket>): (r: seq<Ticket>)
    ensures SortedByPosition(r)
  {
    SortByPosition(WaitingTickets(ts))
  }

  /** The clients listed are the waiting tickets, each as often as it is
      in the table: no more, no fewer. */
  lemma QueueClientsAreWaiting(ts: seq<Ticket>)
    ensures multiset(QueueClients(ts)) == multiset(WaitingTickets(ts))
    ensures forall t :: t in QueueClients(ts) <==> t in ts && t.status == Waiting
  {
    SortByPositionPermutes(WaitingTickets(ts));
    WaitingMembers(ts);
    assert forall t :: t in QueueClients(ts) <==> t in multiset(QueueClients(ts));
    assert forall t :: t in WaitingTickets(ts) <==> t in multiset(WaitingTickets(ts));
  }

  /** The ticket `callNextClient` picks: the head of the same ordered query,
      limited to one row. */
  function NextClient(ts: seq<Ticket>): (r: Option<Ticket>)
    ensures r.None? <==> forall t :: t in ts ==> t.status != Waiting
    ensures r.Some? ==>
              r.value in ts && r.value.status == Waiting &&
              forall t :: t in ts && t.status == Waiting ==> r.value.position <= t.position
  {
    var cs := QueueClients(ts);
    QueueClientsAreWaiting(ts);
    if cs == [] then None
    else
      assert forall t :: t in cs ==> cs[0].position <= t.position by {
        forall t | t in cs ensures cs[0].position <= t.position {
          var k :| 0 <= k < |cs| && cs[k] == t;
          assert k == 0 || cs[0].position <= cs[k].position;
        }
      }
      Some(cs[0])
  }

  /** Among waiting tickets of equal position the next client is the one
      that comes first in the table. */
  lemma NextClientFirstAmongTies(ts: seq<Ticket>)
    requires NextClient(ts).Some?
    ensures exists k :: 0 <= k < |WaitingTickets(ts)| && WaitingTickets(ts)[k] == NextClient(ts).value &&
                        forall i :: 0 <= i < k ==> WaitingTickets(ts)[i].position > NextClient(ts).value.position
  {
    var ws := WaitingTickets(ts);
    assert QueueClients(ts) == SortByPosition(ws);
    assert ws != [];
    assert NextClient(ts).value == SortByPosition(ws)[0];
    SortHeadIsFirstMinimal(ws);
    var k :| 0 <= k < |ws| && SortByPosition(ws)[0] == ws[k] &&
             forall i :: 0 <= i < k ==> ws[i].position > ws[k].position;
    assert ws[k] == NextClient(ts).value;
  }

  // ---------------------------------------------------------------------------
  // Finding and updating tickets
  // ---------------------------------------------------------------------------

  /** Index of the ticket with id `id` (`.eq("id", id).single()`). */
  function FindTicket(ts: seq<Ticket>, id: TicketId): (r: Option<nat>)
    ensures r.None? <==> forall k :: 0 <= k < |ts| ==> ts[k].id != id
    ensures r.Some? ==> r.value < |ts| && ts[r.value].id == id &&
                        forall k :: 0 <= k < r.value ==> ts[k].id != id
  {
    if ts == [] then None
    else if ts[0].id == id then Some(0)
    else
      match FindTicket(ts[1..], id)
      case None => None
      case Some(k) => Some(k + 1)
  }

  /** `getCurrentTicket`: the ticket named by `current_ticket`, if the
      settings row exists, names one, and the table has it. */
  function CurrentTicket(ts: seq<Ticket>, settings: Option<Settings>): (r: Option<Ticket>)
    ensures r.Some? <==>
              settings.Some? && settings.value.currentTicket.Some? &&
              exists k :: 0 <= k < |ts| && ts[k].id == settings.value.currentTicket.value
    ensures r.Some? ==> r.value in ts && r.value.id == settings.value.currentTicket.value
  {
    if settings.None? || settings.value.currentTicket.None? then None
    else
      match FindTicket(ts, settings.value.currentTicket.value)
      case None => None
      case Some(k) => Some(ts[k])
  }

  /** The three status writes of the service. */
  datatype Change = Call(at: Stamp) | Complete(at: Stamp) | Abandon

  /** A status write on one row: only the status and its time stamp change. */
  function ApplyChange(t: Ticket, c: Change): (r: Ticket)
    ensures r.id == t.id && r.name == t.name && r.phone == t.phone && r.email == t.email
    ensures r.position == t.position && r.createdAt == t.createdAt
    ensures r.status != Waiting
    ensures c.Call? ==> r.status == BeingServed && r.calledAt == Some(c.at) && r.completedAt == t.completedAt
    ensures c.Complete? ==> r.status == Completed && r.completedAt == Some(c.at) && r.calledAt == t.calledAt
    ensures c.Abandon? ==> r.status == Abandoned && r.calledAt == t.calledAt && r.completedAt == t.completedAt
  {
    match c
    case Call(at) => t.(status := BeingServed, calledAt := Some(at))
    case Complete(at) => t.(status := Completed, completedAt := Some(at))
    case Abandon => t.(status := Abandoned)
  }

  /** `.update(change).eq("id", id)`: every row with that id changes. */
  function UpdateWhere(ts: seq<Ticket>, id: TicketId, c: Change): (r: seq<Ticket>)
    ensures |r| == |ts|
  {
    if ts == [] then []
    else [if ts[0].id == id then ApplyChange(ts[0], c) else ts[0]] + UpdateWhere(ts[1..], id, c)
  }

  /** A status write touches its target row only, and no row's id or stored
      position changes. */
  lemma {:induction false} UpdateTouchesOnlyTarget(ts: seq<Ticket>, id: TicketId, c: Change)
    ensures forall k :: 0 <= k < |ts| && ts[k].id != id ==> UpdateWhere(ts, id, c)[k] == ts[k]
    ensures forall k :: 0 <= k < |ts| && ts[k].id == id ==> UpdateWhere(ts, id, c)[k] == ApplyChange(ts[k], c)
    ensures forall k :: 0 <= k < |ts| ==>
              UpdateWhere(ts, id, c)[k].id == ts[k].id && UpdateWhere(ts, id, c)[k].position == ts[k].position
  {
    if ts != [] {
      UpdateTouchesOnlyTarget(ts[1..], id, c);
      var r := UpdateWhere(ts, id, c);
      forall k | 1 <= k < |ts| ensures r[k] == UpdateWhere(ts[1..], id, c)[k - 1] && ts[k] == ts[1..][k - 1] {
      }
    }
  }

  /** The tickets of `ws` other than `id`, in order. */
  function WithoutId(ws: seq<Ticket>, id: TicketId): (r: seq<Ticket>)
    ensures |r| <= |ws|
  {
    if ws == [] then [] else (if ws[0].id != id then [ws[0]] else []) + WithoutId(ws[1..], id)
  }

  /** After a status write on `id`, the waiting tickets are those that were
      waiting before except `id`, in the same order and with the same
      stored positions. */
  lemma {:induction false} WaitingAfterUpdate(ts: seq<Ticket>, id: TicketId, c: Change)
    ensures WaitingTickets(UpdateWhere(ts, id, c)) == WithoutId(WaitingTickets(ts), id)
  {
    if ts != [] {
      var t := ts[0];
      var u := if t.id == id then ApplyChange(t, c) else t;
      var rest := UpdateWhere(ts[1..], id, c);
      WaitingAfterUpdate(ts[1..], id, c);
      assert UpdateWhere(ts, id, c) == [u] + rest;
      assert ([u] + rest)[0] == u && ([u] + rest)[1..] == rest;
      var h := if t.status == Waiting then [t] else [];
      assert WaitingTickets(ts) == h + WaitingTickets(ts[1..]);
      WithoutIdAppend(h, WaitingTickets(ts[1..]), id);
      if t.status == Waiting {
        assert [t][1..] == [];
      }
    }
  }

  lemma {:induction false} WithoutIdAppend(a: seq<Ticket>, b: seq<Ticket>, id: TicketId)
    ensures WithoutId(a + b, id) == WithoutId(a, id) + WithoutId(b, id)
  {
    if a == [] {
      assert a + b == b;
    } else {
      var ab := a + b;
      var h := if a[0].id != id then [a[0]] else [];
      assert ab[0] == a[0];
      assert ab[1..] == a[1..] + b;
      WithoutIdAppend(a[1..], b, id);
      calc {
        WithoutId(ab, id);
        h + WithoutId(a[1..] + b, id);
        h + (WithoutId(a[1..], id) + WithoutId(b, id));
        (h + WithoutId(a[1..], id)) + WithoutId(b, id);
      }
    }
  }

  lemma {:induction false} WithoutIdMembers(ws: seq<Ticket>, id: TicketId)
    ensures forall t :: t in WithoutId(ws, id) <==> t in ws && t.id != id
  {
    if ws != [] {
      WithoutIdMembers(ws[1..], id);
      assert ws == [ws[0]] + ws[1..];
    }
  }

  /** A status write on `id` takes that ticket out of the listed clients and
      leaves every other client listed. */
  lemma UpdateLeavesQueue(ts: seq<Ticket>, id: TicketId, c: Change)
    ensures forall t :: t in QueueClients(UpdateWhere(ts, id, c)) <==> t in QueueClients(ts) && t.id != id
  {
    var us := UpdateWhere(ts, id, c);
    QueueClientsAreWaiting(ts);
    QueueClientsAreWaiting(us);
    WaitingAfterUpdate(ts, id, c);
    WaitingMembers(ts);
    WaitingMembers(us);
    WithoutIdMembers(WaitingTickets(ts), id);
  }

  predicate DistinctIds(ts: seq<Ticket>)
  {
    forall i, j :: 0 <= i < j < |ts| ==> ts[i].id != ts[j].id
  }

  /** After the next client is called and made `current_ticket`, the
      current ticket is that client, now being served. */
  lemma CalledIsCurrent(ts: seq<Ticket>, k: nat, now: Stamp, s: Settings)
    requires k < |ts| && DistinctIds(ts)
    ensures CurrentTicket(UpdateWhere(ts, ts[k].id, Call(now)), Some(s.(currentTicket := Some(ts[k].id))))
            == Some(ApplyChange(ts[k], Call(now)))
  {
    var id := ts[k].id;
    var us := UpdateWhere(ts, id, Call(now));
    UpdateTouchesOnlyTarget(ts, id, Call(now));
    assert us[k].id == id;
    var f := FindTicket(us, id);
    assert f.Some?;
    assert f.value == k;
  }

  /** Calling a client does not complete the one already being served: both
      are `being_served` afterwards, so at most one such ticket is not kept. */
  lemma CallKeepsEarlierServed(ts: seq<Ticket>, k: nat, j: nat, now: Stamp)
    requires k < |ts| && j < |ts| && DistinctIds(ts) && k != j
    requires ts[j].status == BeingServed
    ensures UpdateWhere(ts, ts[k].id, Call(now))[j].status == BeingServed
    ensures UpdateWhere(ts, ts[k].id, Call(now))[k].status == BeingServed
  {
    UpdateTouchesOnlyTarget(ts, ts[k].id, Call(now));
    assert ts[j].id != ts[k].id;
  }

  // ---------------------------------------------------------------------------
  // addToQueue: the new row
  // ---------------------------------------------------------------------------

  /** The row inserted by `addToQueue`: waiting, at the given position. */
  function NewTicket(id: TicketId, name: string, phone: string, email: string, position: nat, now: Stamp): (r: Ticket)
    ensures r.status == Waiting && r.position == position && r.id == id
    ensures r.name == name && r.phone == phone && r.email == email
    ensures r.calledAt == None && r.completedAt == None
  {
    Ticket(id, name, phone, email, Waiting, position, now, None, None)
  }

  /** The insert of `addToQueue`: the position stored is the number of
      tickets waiting at that moment. */
  function Enrol(ts: seq<Ticket>, id: TicketId, name: string, phone: string, email: string, now: Stamp): (r: seq<Ticket>)
    ensures |r| == |ts| + 1 && r[..|ts|] == ts
    ensures r[|ts|].status == Waiting && r[|ts|].id == id && r[|ts|].position == |WaitingTickets(ts)|
  {
    ts + [NewTicket(id, name, phone, email, |WaitingTickets(ts)|, now)]
  }

  /** Enrolment appends the new ticket to the waiting list, so the place the
      confirmation announces (`position + 1`) is the new length of that list. */
  lemma EnrolJoinsQueue(ts: seq<Ticket>, id: TicketId, name: string, phone: string, email: string, now: Stamp)
    ensures var t := NewTicket(id, name, phone, email, |WaitingTickets(ts)|, now);
            WaitingTickets(Enrol(ts, id, name, phone, email, now)) == WaitingTickets(ts) + [t] &&
            t.position + 1 == |WaitingTickets(Enrol(ts, id, name, phone, email, now))|
  {
    var t := NewTicket(id, name, phone, email, |WaitingTickets(ts)|, now);
    WaitingAppend(ts, [t]);
    assert WaitingTickets([t]) == [t] by {
      assert [t][1..] == [];
    }
  }

  /** Stored positions equal the places in the waiting list (0-based). */
  predicate PositionsAreRanks(ts: seq<Ticket>)
  {
    var ws := WaitingTickets(ts);
    forall k :: 0 <= k < |ws| ==> ws[k].position == k
  }

  /** Enrolment alone keeps positions equal to places. */
  lemma EnrolKeepsRanks(ts: seq<Ticket>, id: TicketId, name: string, phone: string, email: string, now: Stamp)
    requires PositionsAreRanks(ts)
    ensures PositionsAreRanks(Enrol(ts, id, name, phone, email, now))
  {
    EnrolJoinsQueue(ts, id, name, phone, email, now);
    var ws := WaitingTickets(ts);
    var ws' := WaitingTickets(Enrol(ts, id, name, phone, email, now));
    forall k | 0 <= k < |ws'| ensures ws'[k].position == k {
      if k < |ws| { assert ws'[k] == ws[k]; }
    }
  }

  /** Positions are never renumbered: after two enrolments and a call, a
      third enrolment is stored at the same position as the client still
      waiting, so two waiting tickets share position 1 and positions are no
      longer places. */
  lemma StalePositionCollision(n: seq<string>, p: seq<string>, e: seq<string>, now: Stamp)
    requires |n| == 3 && |p| == 3 && |e| == 3
    ensures var ts := Enrol(UpdateWhere(Enrol(Enrol([], 0, n[0], p[0], e[0], now), 1, n[1], p[1], e[1], now),
                                        0, Call(now)),
                            2, n[2], p[2], e[2], now);
            ts[1].status == Waiting && ts[2].status == Waiting &&
            ts[1].position == 1 && ts[2].position == 1 && !PositionsAreRanks(ts)
  {
    var t0 := NewTicket(0, n[0], p[0], e[0], 0, now);
    var t1 := NewTicket(1, n[1], p[1], e[1], 1, now);
    var a := Enrol([], 0, n[0], p[0], e[0], now);
    assert a == [t0];
    assert WaitingTickets(a) == [t0] by { assert a[1..] == []; }
    var b := Enrol(a, 1, n[1], p[1], e[1], now);
    assert b == [t0, t1];
    var c := UpdateWhere(b, 0, Call(now));
    var u0 := ApplyChange(t0, Call(now));
    assert c == [u0, t1] by {
      UpdateTouchesOnlyTarget(b, 0, Call(now));
    }
    assert WaitingTickets(c) == [t1] by {
      assert c[1..] == [t1];
      assert c[1..][1..] == [];
    }
    var t2 := NewTicket(2, n[2], p[2], e[2], 1, now);
    var ts := Enrol(c, 2, n[2], p[2], e[2], now);
    assert ts == [u0, t1, t2];
    EnrolJoinsQueue(c, 2, n[2], p[2], e[2], now);
    assert WaitingTickets(ts) == [t1, t2];
    assert WaitingTickets(ts)[0].position == 1;
  }

  // ---------------------------------------------------------------------------
  // checkAndNotifyUpcoming: which almost-your-turn notices are sent
  // ---------------------------------------------------------------------------

  /** `clients.find((client) => client.position === v)`: the first listed
      client at position `v`. */
  function FirstAtPosition(cs: seq<Ticket>, v: nat): (r: Option<Ticket>)
    ensures r.None? <==> forall t :: t in cs ==> t.position != v
    ensures r.Some? ==> r.value in cs && r.value.position == v
    ensures r.Some? ==> exists k :: 0 <= k < |cs| && cs[k] == r.value &&
                                    forall i :: 0 <= i < k ==> cs[i].position != v
  {
    if cs == [] then None
    else if cs[0].position == v then Some(cs[0])
    else FirstAtPosition(cs[1..], v)
  }

  /** The notice for stored position `v`, if some client holds it. */
  function Notify(cs: seq<Ticket>, v: nat): (r: seq<Notice>)
    ensures |r| <= 1
  {
    match FirstAtPosition(cs, v)
    case None => []
    case Some(t) => [AlmostYourTurn(t.email, t.name, v)]
  }

  /** The three sends of `checkAndNotifyUpcoming`, positions 3, 2 and 1 in
      that order. */
  function PlannedNotices(cs: seq<Ticket>): (r: seq<Notice>)
    ensures |r| <= 3
    ensures cs == [] ==> r == []
  {
    Notify(cs, 3) + (Notify(cs, 2) + Notify(cs, 1))
  }

  /** Every planned notice is an almost-your-turn notice for a listed client
      whose stored position is the number announced, one of 1, 2 or 3, and
      the numbers strictly decrease. */
  lemma PlannedNoticesSound(cs: seq<Ticket>)
    ensures forall i :: 0 <= i < |PlannedNotices(cs)| ==>
              var m := PlannedNotices(cs)[i];
              m.AlmostYourTurn? && 1 <= m.peopleAhead <= 3 &&
              exists t :: t in cs && t.position == m.peopleAhead && t.email == m.email && t.name == m.name
    ensures forall i, j :: 0 <= i < j < |PlannedNotices(cs)| ==>
              PlannedNotices(cs)[i].peopleAhead > PlannedNotices(cs)[j].peopleAhead
  {
    var a, b, c := Notify(cs, 3), Notify(cs, 2), Notify(cs, 1);
    var r := PlannedNotices(cs);
    assert r == a + (b + c);
    forall i | 0 <= i < |r|
      ensures r[i].AlmostYourTurn? && 1 <= r[i].peopleAhead <= 3
      ensures exists t :: t in cs && t.position == r[i].peopleAhead && t.email == r[i].email && t.name == r[i].name
      ensures r[i].peopleAhead == (if i < |a| then 3 else if i < |a| + |b| then 2 else 1)
    {
      if i < |a| {
        assert r[i] == a[0];
        var t := FirstAtPosition(cs, 3).value;
      } else if i < |a| + |b| {
        assert r[i] == b[0];
        var t := FirstAtPosition(cs, 2).value;
      } else {
        assert r[i] == c[0];
        var t := FirstAtPosition(cs, 1).value;
      }
    }
  }

  /** Position `v` (1, 2 or 3) gets a notice exactly when some listed client
      holds it. */
  lemma PlannedNoticesComplete(cs: seq<Ticket>, v: nat)
    requires 1 <= v <= 3
    ensures (exists i :: 0 <= i < |PlannedNotices(cs)| && PlannedNotices(cs)[i].peopleAhead == v)
            <==> (exists t :: t in cs && t.position == v)
  {
    PlannedNoticesSound(cs);
    var r := PlannedNotices(cs);
    var a, b, c := Notify(cs, 3), Notify(cs, 2), Notify(cs, 1);
    if t :| t in cs && t.position == v {
      var k := if v == 3 then 0 else if v == 2 then |a| else |a| + |b|;
      assert r == a + (b + c);
      assert r[k].peopleAhead == v;
    }
  }

  // ---------------------------------------------------------------------------
  // Sending in order until the first failure
  // ---------------------------------------------------------------------------

  /** The notices handed to the gateway when `ns` are sent one after the
      other and an error stops the rest: the sends up to and including the
      first one that fails. */
  function Attempted(ns: seq<Notice>, delivered: Notice -> bool): (r: seq<Notice>)
    ensures |r| <= |ns|
  {
    if ns == [] then []
    else if !delivered(ns[0]) then [ns[0]]
    else [ns[0]] + Attempted(ns[1..], delivered)
  }

  /** The attempted sends are a prefix of the planned ones; all but the last
      got through, and the run stopped early only at a failure. */
  lemma {:induction false} AttemptedStopsAtFailure(ns: seq<Notice>, delivered: Notice -> bool)
    ensures var r := Attempted(ns, delivered);
            r == ns[..|r|] &&
            (forall i :: 0 <= i < |r| - 1 ==> delivered(r[i])) &&
            (r == ns || (r != [] && !delivered(r[|r| - 1])))
  {
    if ns != [] && delivered(ns[0]) {
      var rest := Attempted(ns[1..], delivered);
      AttemptedStopsAtFailure(ns[1..], delivered);
      var r := [ns[0]] + rest;
      assert r == Attempted(ns, delivered);
      assert r == ns[..|r|] by {
        assert ns == [ns[0]] + ns[1..];
      }
      forall i | 0 <= i < |r| - 1 ensures delivered(r[i]) {
        if i > 0 { assert r[i] == rest[i - 1]; }
      }
      if rest == ns[1..] {
        assert ns == [ns[0]] + ns[1..];
      } else {
        assert r[|r| - 1] == rest[|rest| - 1];
      }
    }
  }

  /** A block whose notice (if any) got through: the run goes on. */
  lemma AttemptedPasses(n: seq<Notice>, rest: seq<Notice>, delivered: Notice -> bool)
    requires |n| <= 1 && (n == [] || delivered(n[0]))
    ensures Attempted(n + rest, delivered) == n + Attempted(rest, delivered)
  {
    if n != [] {
      assert (n + rest)[0] == n[0] && (n + rest)[1..] == rest;
    } else {
      assert n + rest == rest;
    }
  }

  /** A single notice is attempted whatever its outcome. */
  lemma AttemptedAtMostOne(n: seq<Notice>, delivered: Notice -> bool)
    requires |n| <= 1
    ensures Attempted(n, delivered) == n
  {
    if n != [] {
      assert n[1..] == [];
    }
  }

  /** A block whose notice failed: the run ends with it. */
  lemma AttemptedStops(n: seq<Notice>, rest: seq<Notice>, delivered: Notice -> bool)
    requires |n| == 1 && !delivered(n[0])
    ensures Attempted(n + rest, delivered) == n
  {
    assert (n + rest)[0] == n[0];
  }

  // ---------------------------------------------------------------------------
  // The coordinator: the two tables and the mail that leaves
  // ---------------------------------------------------------------------------

  /** The `queues` table, the `queue_settings` row (absent when the store has
      none), the next row id the store will assign, and every e-mail handed
      to the gateway, in order. */
  class QueueCoordinator {
    var tickets: seq<Ticket>
    var settings: Option<Settings>
    var nextId: TicketId
    var outbox: seq<Notice>

    /** Row ids are unique and below the next id to be assigned. */
    ghost predicate Valid()
      reads this
    {
      DistinctIds(tickets) && forall k :: 0 <= k < |tickets| ==> tickets[k].id < nextId
    }

    constructor(initial: Option<Settings>)
      ensures Valid()
      ensures tickets == [] && settings == initial && nextId == 0 && outbox == []
    {
      tickets := [];
      settings := initial;
      nextId := 0;
      outbox := [];
    }

    /** One call of the mail gateway: the notice is handed over, and
        `delivered` says whether the call returns or throws. */
    method Send(note: Notice, delivered: Notice -> bool) returns (ok: bool)
      modifies this
      ensures ok == delivered(note)
      ensures outbox == old(outbox) + [note]
      ensures tickets == old(tickets) && settings == old(settings) && nextId == old(nextId)
    {
      outbox := outbox + [note];
      ok := delivered(note);
    }

    /** `getQueueClients`. */
    method GetQueueClients() returns (clients: seq<Ticket>)
      ensures SortedByPosition(clients)
      ensures multiset(clients) == multiset(WaitingTickets(tickets))
      ensures forall t :: t in clients <==> t in tickets && t.status == Waiting
    {
      clients := QueueClients(tickets);
      QueueClientsAreWaiting(tickets);
    }

    /** `getCurrentTicket`. */
    method GetCurrentTicket() returns (current: Option<Ticket>)
      ensures current.Some? <==>
                settings.Some? && settings.value.currentTicket.Some? &&
                exists k :: 0 <= k < |tickets| && tickets[k].id == settings.value.currentTicket.value
      ensures current.Some? ==> current.value in tickets && current.value.id == settings.value.currentTicket.value
    {
      current := CurrentTicket(tickets, settings);
    }

    /** `addToQueue`: without a settings row nothing happens and the call
        fails. Otherwise the ticket number is the last one plus one, the new
        row is stored at the number of tickets waiting, the last ticket number
        is written back (a failed write is only logged), and the confirmation
        announcing place `position + 1` is sent; if it fails, the call fails
        after the writes. */
    method AddToQueue(name: string, phone: string, email: string, now: Stamp,
                      settingsWriteOk: bool, delivered: Notice -> bool)
      returns (r: Result<Enrolment, QueueError>)
      requires Valid()
      modifies this
      ensures Valid()
      ensures old(settings).None? ==> r == Err(SettingsNotFound) && unchanged(this)
      ensures old(settings).Some? ==>
                var number := old(settings).value.lastTicketNumber + 1;
                var t := NewTicket(old(nextId), name, phone, email, |WaitingTickets(old(tickets))|, now);
                var note := Confirmation(email, name, number, t.position + 1);
                tickets == Enrol(old(tickets), old(nextId), name, phone, email, now) &&
                nextId == old(nextId) + 1 &&
                settings == (if settingsWriteOk then Some(old(settings).value.(lastTicketNumber := number))
                             else old(settings)) &&
                outbox == old(outbox) + [note] &&
                r == (if delivered(note) then Ok(Enrolment(t, number)) else Err(DeliveryFailed(note)))
    {
      if settings.None? {
        return Err(SettingsNotFound);
      }
      var number := settings.value.lastTicketNumber + 1;
      var position := |WaitingTickets(tickets)|;
      var t := NewTicket(nextId, name, phone, email, position, now);
      tickets := tickets + [t];
      nextId := nextId + 1;
      if settingsWriteOk {
        settings := Some(settings.value.(lastTicketNumber := number));
      }
      var note := Confirmation(t.email, t.name, number, position + 1);
      var ok := Send(note, delivered);
      if !ok {
        return Err(DeliveryFailed(note));
      }
      r := Ok(Enrolment(t, number));
    }

    /** `checkAndNotifyUpcoming`: the listed clients at stored positions 3, 2
        and 1 are warned in that order; a failed send ends the run silently. */
    method CheckAndNotifyUpcoming(delivered: Notice -> bool)
      modifies this
      ensures tickets == old(tickets) && settings == old(settings) && nextId == old(nextId)
      ensures outbox == old(outbox) + Attempted(PlannedNotices(QueueClients(tickets)), delivered)
    {
      var clients := QueueClients(tickets);
      if clients == [] {
        return;
      }
      ghost var o0 := outbox;
      ghost var n3, n2, n1 := Notify(clients, 3), Notify(clients, 2), Notify(clients, 1);
      var ok := WarnAt(clients, 3, delivered);
      if !ok {
        AttemptedStops(n3, n2 + n1, delivered);
        return;
      }
      AttemptedPasses(n3, n2 + n1, delivered);
      ok := WarnAt(clients, 2, delivered);
      AppendAssoc(o0, n3, n2);
      if !ok {
        AttemptedStops(n2, n1, delivered);
        return;
      }
      AttemptedPasses(n2, n1, delivered);
      ok := WarnAt(clients, 1, delivered);
      AppendAssoc(o0 + n3, n2, n1);
      AppendAssoc(o0, n3, n2 + n1);
      AttemptedAtMostOne(n1, delivered);
    }

    /** One block of `checkAndNotifyUpcoming`: warn the first listed client
        at stored position `v`, if any; `ok` is false when that send failed. */
    method WarnAt(clients: seq<Ticket>, v: nat, delivered: Notice -> bool) returns (ok: bool)
      modifies this
      ensures tickets == old(tickets) && settings == old(settings) && nextId == old(nextId)
      ensures outbox == old(outbox) + Notify(clients, v)
      ensures ok <==> Notify(clients, v) == [] || delivered(Notify(clients, v)[0])
    {
      var c := FirstAtPosition(clients, v);
      ok := true;
      if c.Some? {
        ok := Send(AlmostYourTurn(c.value.email, c.value.name, v), delivered);
      }
    }

    /** `callNextClient`: with nobody waiting it returns nothing. Otherwise
        the waiting ticket of lowest position becomes `being_served` with a
        call time, becomes `current_ticket` when the settings row exists, and
        is sent the your-turn notice; if that fails the call fails and no
        almost-your-turn notices go out, otherwise they do. */
    method CallNextClient(now: Stamp, delivered: Notice -> bool) returns (r: Result<Option<Ticket>, QueueError>)
      requires Valid()
      modifies this
      ensures Valid()
      ensures NextClient(old(tickets)).None? ==> r == Ok(None) && unchanged(this)
      ensures NextClient(old(tickets)).Some? ==>
                var t := NextClient(old(tickets)).value;
                var called := ApplyChange(t, Call(now));
                var note := YourTurn(called.email, called.name);
                tickets == UpdateWhere(old(tickets), t.id, Call(now)) &&
                nextId == old(nextId) &&
                settings == (if old(settings).Some? then Some(old(settings).value.(currentTicket := Some(t.id)))
                             else None) &&
                (if delivered(note)
                 then r == Ok(Some(called)) &&
                      outbox == old(outbox) + [note] + Attempted(PlannedNotices(QueueClients(tickets)), delivered)
                 else r == Err(DeliveryFailed(note)) && outbox == old(outbox) + [note])
    {
      var next := NextClient(tickets);
      if next.None? {
        return Ok(None);
      }
      var t := next.value;
      UpdateKeepsIds(tickets, t.id, Call(now), nextId);
      tickets := UpdateWhere(tickets, t.id, Call(now));
      var called := ApplyChange(t, Call(now));
      if settings.Some? {
        settings := Some(settings.value.(currentTicket := Some(t.id)));
      }
      var ok := Send(YourTurn(called.email, called.name), delivered);
      if !ok {
        return Err(DeliveryFailed(YourTurn(called.email, called.name)));
      }
      CheckAndNotifyUpcoming(delivered);
      r := Ok(Some(called));
    }

    /** `abandonQueue`: an unknown id fails with nothing changed; otherwise
        the ticket is marked `abandoned`, whatever its status was, and the
        almost-your-turn check runs. */
    method AbandonQueue(clientId: TicketId, delivered: Notice -> bool) returns (r: Result<bool, QueueError>)
      requires Valid()
      modifies this
      ensures Valid()
      ensures FindTicket(old(tickets), clientId).None? ==> r == Err(ClientNotFound) && unchanged(this)
      ensures FindTicket(old(tickets), clientId).Some? ==>
                r == Ok(true) &&
                tickets == UpdateWhere(old(tickets), clientId, Abandon) &&
                settings == old(settings) && nextId == old(nextId) &&
                outbox == old(outbox) + Attempted(PlannedNotices(QueueClients(tickets)), delivered)
    {
      if FindTicket(tickets, clientId).None? {
        return Err(ClientNotFound);
      }
      UpdateKeepsIds(tickets, clientId, Abandon, nextId);
      tickets := UpdateWhere(tickets, clientId, Abandon);
      CheckAndNotifyUpcoming(delivered);
      r := Ok(true);
    }

    /** `completeCurrentService`: without a current ticket it returns false
        (the source's `null`) and changes nothing. Otherwise the rows with the
        current id become `completed` with a completion time (no row is
        required to exist), the current ticket is cleared and the
        almost-your-turn check runs. */
    method CompleteCurrentService(now: Stamp, delivered: Notice -> bool) returns (done: bool)
      requires Valid()
      modifies this
      ensures Valid()
      ensures (old(settings).None? || old(settings).value.currentTicket.None?) ==> !done && unchanged(this)
      ensures old(settings).Some? && old(settings).value.currentTicket.Some? ==>
                done &&
                tickets == UpdateWhere(old(tickets), old(settings).value.currentTicket.value, Complete(now)) &&
                settings == Some(old(settings).value.(currentTicket := None)) &&
                nextId == old(nextId) &&
                outbox == old(outbox) + Attempted(PlannedNotices(QueueClients(tickets)), delivered)
    {
      if settings.None? || settings.value.currentTicket.None? {
        return false;
      }
      var current := settings.value.currentTicket.value;
      UpdateKeepsIds(tickets, current, Complete(now), nextId);
      tickets := UpdateWhere(tickets, current, Complete(now));
      settings := Some(settings.value.(currentTicket := None));
      CheckAndNotifyUpcoming(delivered);
      done := true;
    }

    /** POST /api/queue: a missing name, phone or e-mail is refused before
        `addToQueue` runs. */
    method PostEnrol(name: string, phone: string, email: string, now: Stamp,
                     settingsWriteOk: bool, delivered: Notice -> bool)
      returns (r: Result<Enrolment, QueueError>)
      requires Valid()
      modifies this
      ensures Valid()
      ensures name == [] || phone == [] || email == [] ==> r == Err(MissingFields) && unchanged(this)
      ensures name != [] && phone != [] && email != [] && old(settings).None? ==>
                r == Err(SettingsNotFound) && unchanged(this)
      ensures name != [] && phone != [] && email != [] && old(settings).Some? ==>
                var number := old(settings).value.lastTicketNumber + 1;
                var t := NewTicket(old(nextId), name, phone, email, |WaitingTickets(old(tickets))|, now);
                var note := Confirmation(email, name, number, t.position + 1);
                tickets == Enrol(old(tickets), old(nextId), name, phone, email, now) &&
                nextId == old(nextId) + 1 &&
                settings == (if settingsWriteOk then Some(old(settings).value.(lastTicketNumber := number))
                             else old(settings)) &&
                outbox == old(outbox) + [note] &&
                r == (if delivered(note) then Ok(Enrolment(t, number)) else Err(DeliveryFailed(note)))
    {
      if name == [] || phone == [] || email == [] {
        return Err(MissingFields);
      }
      r := AddToQueue(name, phone, email, now, settingsWriteOk, delivered);
    }

    /** POST /api/queue/abandon: a missing client id is refused before
        `abandonQueue` runs. */
    method PostAbandon(clientId: Option<TicketId>, delivered: Notice -> bool) returns (r: Result<bool, QueueError>)
      requires Valid()
      modifies this
      ensures Valid()
      ensures clientId.None? ==> r == Err(MissingClientId) && unchanged(this)
      ensures clientId.Some? && FindTicket(old(tickets), clientId.value).None? ==>
                r == Err(ClientNotFound) && unchanged(this)
      ensures clientId.Some? && FindTicket(old(tickets), clientId.value).Some? ==>
                r == Ok(true) &&
                tickets == UpdateWhere(old(tickets), clientId.value, Abandon) &&
                settings == old(settings) && nextId == old(nextId) &&
                outbox == old(outbox) + Attempted(PlannedNotices(QueueClients(tickets)), delivered)
    {
      if clientId.None? {
        return Err(MissingClientId);
      }
      r := AbandonQueue(clientId.value, delivered);
    }
  }

  lemma AppendAssoc(a: seq<Notice>, b: seq<Notice>, c: seq<Notice>)
    ensures a + b + c == a + (b + c)
  {
  }

  /** A status write keeps the coordinator's id invariant. */
  lemma UpdateKeepsIds(ts: seq<Ticket>, id: TicketId, c: Change, bound: TicketId)
    requires DistinctIds(ts) && forall k :: 0 <= k < |ts| ==> ts[k].id < bound
    ensures DistinctIds(UpdateWhere(ts, id, c))
    ensures forall k :: 0 <= k < |ts| ==> UpdateWhere(ts, id, c)[k].id < bound
  {
    UpdateTouchesOnlyTarget(ts, id, c);
  }
}
