/** The nodes and resource_reservations tables with the transactions that update them in place. */
module CapacityStore {
  import opened Prelude
  import opened Resources
  import opened Placement
  import opened Capacity

  /** The rows an expiry batch may pick: reserved, past their time, operation finished. */
  predicate Expirable(s: Pool, now: Time, finished: set<OpId>, rid: nat) {
    && rid < |s.reservations| && s.reservations[rid].status == Reserved
    && s.reservations[rid].expiresAt <= now && s.reservations[rid].op in finished
  }

  /** A positive reading of cpu, memory or disk replaces that total. */
  function NewTotal(total: Res, k: Kind, cpu: int, memory: int, disk: int): int {
    match k
    case Cpu => if cpu > 0 then cpu else At(total, Cpu)
    case Memory => if memory > 0 then memory else At(total, Memory)
    case Disk => if disk > 0 then disk else At(total, Disk)
    case _ => At(total, k)
  }

  /** What a heartbeat writes: positive readings replace totals, facts join the capabilities. */
  ghost predicate Measured(was: Node, node: Node, cpu: int, memory: int, disk: int, facts: map<string, string>) {
    && node.inUse == was.inUse && node.reserved == was.reserved
    && (forall k :: At(node.total, k) == NewTotal(was.total, k, cpu, memory, disk))
    && node.tags.online && node.tags.group == was.tags.group && node.tags.weight == was.tags.weight
    && node.tags.providerActive == was.tags.providerActive && node.tags.groupActive == was.tags.groupActive
    && (forall c :: c in node.tags.capabilities <==> c in was.tags.capabilities || c in facts)
    && (forall c :: c in node.tags.capabilities ==>
          node.tags.capabilities[c] == if c in facts then facts[c] else was.tags.capabilities[c])
  }

  lemma CheckMeans(was: Node, cpu: int, memory: int, disk: int, facts: map<string, string>)
    requires NodeCheck(was)
    ensures var node := Heard(was, cpu, memory, disk, facts);
            && Measured(was, node, cpu, memory, disk, facts)
            && (NodeCheck(node) <==>
                  forall k :: At(was.inUse, k) + At(was.reserved, k) <= NewTotal(was.total, k, cpu, memory, disk))
  {
    var node := Heard(was, cpu, memory, disk, facts);
    forall k ensures At(node.total, k) == NewTotal(was.total, k, cpu, memory, disk) && At(ZERO, k) == 0 {
      match k
      case Cpu => case Memory => case Disk => case Ipv4 => case Ipv6 => case Nats =>
    }
    if NodeCheck(node) {
      forall k ensures At(was.inUse, k) + At(was.reserved, k) <= At(node.total, k) {
        assert At(Plus(node.inUse, node.reserved), k) <= At(node.total, k);
      }
    } else if forall k :: At(was.inUse, k) + At(was.reserved, k) <= NewTotal(was.total, k, cpu, memory, disk) {
      forall k ensures At(ZERO, k) <= At(node.total, k) && At(Plus(node.inUse, node.reserved), k) <= At(node.total, k) {
        assert At(ZERO, k) <= At(was.inUse, k) && At(ZERO, k) <= At(was.reserved, k);
        assert At(node.total, k) == NewTotal(was.total, k, cpu, memory, disk);
      }
    }
  }

  /** A batch the SELECT can return: any rows it may pick (others are locked), each once. */
  predicate Batch(s: Pool, now: Time, finished: set<OpId>, items: seq<nat>) {
    && (forall i :: 0 <= i < |items| ==> Expirable(s, now, finished, items[i]))
    && (forall i, j :: 0 <= i < j < |items| ==> items[i] != items[j])
  }

  /** `t` is `s` with exactly the rows in `done` expired, and no node changed but in reserved. */
  ghost predicate Swept(s: Pool, t: Pool, done: seq<nat>) {
    && |t.reservations| == |s.reservations| && t.nodes.Keys == s.nodes.Keys
    && (forall r :: 0 <= r < |s.reservations| ==>
          t.reservations[r] == if r in done then s.reservations[r].(status := Expired) else s.reservations[r])
    && (forall n :: n in s.nodes ==> t.nodes[n] == s.nodes[n].(reserved := t.nodes[n].reserved))
  }

  lemma SweepMore(s: Pool, t: Pool, done: seq<nat>, rid: nat)
    requires Swept(s, t, done) && RowsPlaced(t) && rid < |s.reservations| && rid !in done
    ensures t.reservations[rid] == s.reservations[rid]
    ensures Swept(s, Settle(t, rid, Expired), done + [rid])
  {
  }

  class Store {
    var nodes: map<NodeId, Node>
    var reservations: seq<Reservation>

    function View(): Pool reads this { Pool(nodes, reservations) }

    ghost predicate Valid() reads this { PoolInv(View()) }

    constructor ()
      ensures Valid() && View() == Pool(map[], [])
    {
      nodes, reservations := map[], [];
      new;
      EmptyPool();
    }

    method Reserve(op: OpId, req: Request, now: Time, seen: Option<nat>) returns (reply: Reply)
      requires Valid() && Enabled(View(), Step.Reserve(op, req, now, seen))
      modifies this
      ensures Valid() && (View(), reply) == ReserveTx(old(View()), op, req, now, seen)
    {
      ReserveKeepsInv(View(), op, req, now, seen);
      if req.ttl <= 0 || !ValidCapacity(req.amount) { return InvalidRequest; }
      if seen.Some? { return Granted(seen.value); }
      var node := SelectCandidate(req);
      if node == None { return ResourceExhausted; }
      reply := Place(op, req, now, node.value);
    }

    /** The first row of the candidate query, if it has any. */
    method SelectCandidate(req: Request) returns (first: Option<NodeId>)
      ensures first == if Candidates(nodes, req) == {} then None else Some(Best(nodes, req))
      ensures first.None? <==> forall n :: n in nodes ==> !Eligible(nodes[n], req)
      ensures first.Some? && Valid() && ValidCapacity(req.amount) ==> LeastLoaded(nodes, req, first.value)
    {
      hide PoolInv, LeastLoaded, Candidate, Eligible;
      forall n | n in nodes ensures Eligible(nodes[n], req) <==> n in Candidates(nodes, req) {
        EligibleIsCandidate(nodes[n], req);
      }
      if Candidates(nodes, req) == {} { return None; }
      ghost var best := Best(nodes, req);
      var n :| n in nodes && IsBest(nodes, req, n);
      BestIsUnique(nodes, req, n, best);
      assert n in nodes && Eligible(nodes[n], req);
      if Valid() && ValidCapacity(req.amount) { BestHasRoom(View(), req, n); }
      first := Some(n);
    }

    /** Counter increment, then insert; a unique violation undoes the increment. */
    method Place(op: OpId, req: Request, now: Time, n: NodeId) returns (reply: Reply)
      requires n in nodes && OnePerOperation(View())
      modifies this
      ensures (View(), reply) ==
        if Taken(old(View()), op) then (old(View()), Granted(RowOf(old(View()), op)))
        else
          (Insert(old(View()), Reservation(n, op, req.amount, Reserved, now + req.ttl)), Granted(|old(reservations)|))
    {
      var before := nodes;
      nodes := nodes[n := nodes[n].(reserved := Plus(nodes[n].reserved, req.amount))];
      if Taken(View(), op) {
        nodes := before;
        var r: nat :| r < |reservations| && reservations[r].op == op;
        return Granted(r);
      }
      reply := Granted(|reservations|);
      reservations := reservations + [Reservation(n, op, req.amount, Reserved, now + req.ttl)];
    }

    /** Commit and Release. */
    method ChangeStatus(rid: nat, target: ReservationStatus) returns (reply: Reply)
      requires Valid() && target in {Committed, Released}
      modifies this
      ensures Valid() && (View(), reply) == ChangeStatusTx(old(View()), rid, target)
      ensures reply == if rid >= |old(reservations)| then ReservationAbsent
                       else if old(reservations)[rid].status in {Reserved, target} then Granted(rid)
                       else ReservationState
      ensures reservations == if reply == Granted(rid)
                              then old(reservations)[rid := old(reservations)[rid].(status := target)]
                              else old(reservations)
    {
      if rid >= |reservations| { return ReservationAbsent; }
      var current := reservations[rid];
      if current.status == target { return Granted(rid); }
      if current.status != Reserved { return ReservationState; }
      SettleKeepsInv(View(), rid, target);
      var node := nodes[current.node];
      if target == Committed {
        nodes := nodes[current.node := node.(reserved := Minus(node.reserved, current.amount),
                                             inUse := Plus(node.inUse, current.amount))];
      } else {
        nodes := nodes[current.node := node.(reserved := Minus(node.reserved, current.amount))];
      }
      reservations := reservations[rid := current.(status := target)];
      reply := Granted(rid);
    }

    method Heartbeat(n: NodeId, cpu: int, memory: int, disk: int, facts: map<string, string>) returns (ok: bool)
      requires Valid() && n in nodes
      modifies this`nodes
      ensures Valid() && View() == Apply(old(View()), Step.Heartbeat(n, cpu, memory, disk, facts))
      ensures ok == NodeCheck(Heard(old(nodes[n]), cpu, memory, disk, facts))
      ensures ok <==> forall k :: (
        At(old(nodes[n]).inUse, k) + At(old(nodes[n]).reserved, k)
          <= NewTotal(old(nodes[n]).total, k, cpu, memory, disk))
      ensures !ok ==> nodes == old(nodes)
      ensures ok ==> nodes == old(nodes)[n := nodes[n]] && Measured(old(nodes[n]), nodes[n], cpu, memory, disk, facts)
    {
      hide PoolInv;
      StepKeepsInv(View(), Step.Heartbeat(n, cpu, memory, disk, facts));
      ChecksHold(View(), n);
      var node := Heard(nodes[n], cpu, memory, disk, facts);
      CheckMeans(nodes[n], cpu, memory, disk, facts);
      ok := NodeCheck(node);
      if ok { nodes := nodes[n := node]; }
    }

    /** One row of an expiry batch. */
    method ExpireOne(rid: nat)
      requires Valid() && rid < |reservations| && reservations[rid].status == Reserved
      modifies this
      ensures Valid() && View() == Settle(old(View()), rid, Expired)
    {
      SettleKeepsInv(View(), rid, Expired);
      var item := reservations[rid];
      var node := nodes[item.node];
      nodes := nodes[item.node := node.(reserved := Minus(node.reserved, item.amount))];
      reservations := reservations[rid := item.(status := Expired)];
    }

    /**
     * The reconciler's expiry batch.  Exactly the picked rows become expired; with the counters
     * tied to the rows by the invariant, that fixes the whole new state.
     */
    method ExpireReservations(now: Time, finished: set<OpId>, items: seq<nat>) returns (count: nat)
      requires Valid() && Batch(View(), now, finished, items)
      modifies this
      ensures Valid() && count == |items|
      ensures Swept(old(View()), View(), items)
    {
      count := 0;
      while count < |items|
        invariant count <= |items| && Valid()
        invariant Swept(old(View()), View(), items[..count])
      {
        assert Expirable(old(View()), now, finished, items[count]);
        assert items[count] !in items[..count];
        SweepMore(old(View()), View(), items[..count], items[count]);
        ExpireOne(items[count]);
        assert items[..count + 1] == items[..count] + [items[count]];
        count := count + 1;
      }
      assert items[..count] == items;
    }
  }
}
