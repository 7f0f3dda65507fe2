/** The subscriptions table, its outbox events, and the transactions that update both in place. */
module SubscriptionStore {
  import opened Prelude
  import opened Subscriptions

  datatype Event = Event(sub: nat, topic: Topic)

  datatype Reply = Done(row: Subscription) | NotFound | InvalidState

  function EventsOf(outbox: seq<Event>, id: nat): seq<Topic> {
    if |outbox| == 0 then []
    else (if outbox[0].sub == id then [outbox[0].topic] else []) + EventsOf(outbox[1..], id)
  }

  lemma {:induction false} EventsOfAppend(outbox: seq<Event>, e: Event, id: nat)
    ensures EventsOf(outbox + [e], id) == EventsOf(outbox, id) + if e.sub == id then [e.topic] else []
  {
    if |outbox| == 0 {
      assert outbox + [e] == [e];
    } else {
      var rest := outbox[1..];
      assert (outbox + [e])[0] == outbox[0] && (outbox + [e])[1..] == rest + [e];
      EventsOfAppend(rest, e, id);
      var first := if outbox[0].sub == id then [outbox[0].topic] else [];
      var last := if e.sub == id then [e.topic] else [];
      assert EventsOf(outbox, id) == first + EventsOf(rest, id);
      assert first + (EventsOf(rest, id) + last) == (first + EventsOf(rest, id)) + last;
    }
  }

  /** The claim query's answer: distinct due rows up to the limit, passing over locked ones. */
  predicate Claimed(s: seq<Account>, now: Time, limit: nat, locked: set<nat>, rows: seq<nat>) {
    && |rows| <= limit
    && (forall j :: 0 <= j < |rows| ==> rows[j] < |s| && Due(s[rows[j]].row, now))
    && (forall j, k :: 0 <= j < k < |rows| ==> rows[j] != rows[k])
    && (|rows| < limit ==> forall i :: 0 <= i < |s| && Due(s[i].row, now) && i !in locked ==> i in rows)
  }

  class Store {
    const grace: Time
    var subs: seq<Subscription>
    var outbox: seq<Event>

    function View(): (v: seq<Account>)
      reads this
      ensures |v| == |subs|
      ensures forall i :: 0 <= i < |subs| ==> v[i] == Account(subs[i], EventsOf(outbox, i))
    {
      seq(|subs|, i requires 0 <= i < |subs| reads this => Account(subs[i], EventsOf(outbox, i)))
    }

    constructor (gracePeriod: Time)
      ensures subs == [] && outbox == [] && grace == gracePeriod
    {
      subs, outbox, grace := [], [], gracePeriod;
    }

    /** Writes a row and its event in one transaction. */
    method Write(id: nat, row: Subscription, topic: Topic)
      requires id < |subs|
      modifies this
      ensures View() == old(View())[id := Account(row, old(View())[id].events + [topic])]
    {
      ghost var before, was := View(), outbox;
      subs := subs[id := row];
      outbox := outbox + [Event(id, topic)];
      forall i | 0 <= i < |subs| ensures View()[i] == before[id := Account(row, before[id].events + [topic])][i] {
        EventsOfAppend(was, Event(id, topic), i);
      }
    }

    method SetCancelAtPeriodEnd(user: nat, id: nat, cancel: bool) returns (reply: Reply)
      modifies this
      ensures reply == NotFound <==> id >= |old(subs)| || old(subs)[id].owner != user
      ensures reply == NotFound ==> View() == old(View())
      ensures reply != NotFound ==> View() == old(View())[id := Apply(old(View())[id], SetCancel(cancel), grace)]
      ensures reply == InvalidState <==> reply != NotFound && old(subs)[id].status != Active
      ensures reply.Done? ==> reply.row == subs[id] && reply.row.cancelAtPeriodEnd == cancel
    {
      if id >= |subs| || subs[id].owner != user { return NotFound; }
      var current := subs[id];
      if current.status != Active { return InvalidState; }
      if current.cancelAtPeriodEnd == cancel { return Done(current); }
      Write(id, ToggleRow(current, cancel), if cancel then CancelScheduled else CancelScheduleRemoved);
      reply := Done(subs[id]);
    }

    /** One claimed row of a batch; the version guard holds because the row is locked. */
    method AdvanceOne(id: nat, now: Time)
      requires id < |subs|
      modifies this
      ensures View() == old(View())[id := Advance(old(View())[id], now, grace)]
    {
      var current := subs[id];
      var decision := Decide(current, now, grace);
      if decision.Some? {
        Write(id, UpdateLifecycle(current, decision.value), decision.value.topic);
      }
    }

    /**
     * The lifecycle batch is one batch step of the specification, and with nothing locked an
     * empty result means the table is drained.
     */
    method ProcessBatch(now: Time, limit: nat, locked: set<nat>, rows: seq<nat>) returns (count: nat)
      requires Claimed(View(), now, limit, locked, rows)
      modifies this
      ensures count == |rows|
      ensures Claims(old(View()), Batch(now, set i | i in rows))
      ensures View() == AfterBatch(old(View()), Batch(now, set i | i in rows), grace)
      ensures count == 0 && limit > 0 && locked == {} ==> Drained(View(), now)
    {
      ghost var before := View();
      count := 0;
      while count < |rows|
        invariant count <= |rows| && |subs| == |before|
        invariant forall i :: 0 <= i < |subs| ==>
          View()[i] == if i in rows[..count] then Advance(before[i], now, grace) else before[i]
      {
        assert rows[count] !in rows[..count];
        AdvanceOne(rows[count], now);
        assert rows[..count + 1] == rows[..count] + [rows[count]];
        count := count + 1;
      }
      assert rows[..count] == rows;
    }
  }
}
