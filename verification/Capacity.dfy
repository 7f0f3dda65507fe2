/**
 * Node capacity and reservations.  Six resources per node are counted in three columns (total,
 * allocated, reserved) that four different transactions change; the reservations table is the
 * truth they must agree with.
 */
module Capacity {
  import opened Prelude
  import opened Resources
  import opened Placement

  datatype ReservationStatus = Reserved | Committed | Released | Expired

  datatype Reservation = Reservation(
    node: NodeId, op: OpId, amount: Res, status: ReservationStatus, expiresAt: Time)

  /** Reservation rows are never deleted; a row's id is its position in the table. */
  datatype Pool = Pool(nodes: map<NodeId, Node>, reservations: seq<Reservation>)

  datatype Reply = Granted(rid: nat) | InvalidRequest | ResourceExhausted | ReservationState | ReservationAbsent

  // ---------------------------------------------------------------- transactions

  predicate Taken(s: Pool, op: OpId) {
    exists r :: 0 <= r < |s.reservations| && s.reservations[r].op == op
  }

  /** The reservation of an operation; unique by the table's UNIQUE (operation_id). */
  ghost function RowOf(s: Pool, op: OpId): (r: nat)
    requires Taken(s, op)
    ensures r < |s.reservations| && s.reservations[r].op == op
  {
    var r :| 0 <= r < |s.reservations| && s.reservations[r].op == op;
    r
  }

  /**
   * Reserve with `seen`, what the lookup at the start found.  If another transaction inserted the
   * row in between, the insert hits the unique index: the counter change rolls back with it and
   * the other row is returned.
   */
  ghost function ReserveTx(s: Pool, op: OpId, req: Request, now: Time, seen: Option<nat>): (Pool, Reply) {
    if req.ttl <= 0 || !ValidCapacity(req.amount) then (s, InvalidRequest)
    else if seen.Some? then (s, Granted(seen.value))
    else if Candidates(s.nodes, req) == {} then (s, ResourceExhausted)
    else if Taken(s, op) then (s, Granted(RowOf(s, op)))
    else
      var n := Best(s.nodes, req);
      var row := Reservation(n, op, req.amount, Reserved, now + req.ttl);
      (Insert(s, row), Granted(|s.reservations|))
  }

  /** A new reserved row and the matching counter increment. */
  function Insert(s: Pool, row: Reservation): Pool
    requires row.node in s.nodes
  {
    var node := s.nodes[row.node];
    Pool(s.nodes[row.node := node.(reserved := Plus(node.reserved, row.amount))], s.reservations + [row])
  }

  /** Moves a reserved row to a final status and its amount out of the reserved column. */
  function Settle(s: Pool, rid: nat, target: ReservationStatus): Pool
    requires rid < |s.reservations| && s.reservations[rid].node in s.nodes
  {
    var r := s.reservations[rid];
    var node := s.nodes[r.node];
    var freed := node.(reserved := Minus(node.reserved, r.amount));
    Pool(s.nodes[r.node := if target == Committed then freed.(inUse := Plus(node.inUse, r.amount)) else freed],
         s.reservations[rid := r.(status := target)])
  }

  /** Commit and Release of the scheduler. */
  function ChangeStatusTx(s: Pool, rid: nat, target: ReservationStatus): (Pool, Reply)
    requires RowsPlaced(s)
  {
    if rid >= |s.reservations| then (s, ReservationAbsent)
    else if s.reservations[rid].status == target then (s, Granted(rid))
    else if s.reservations[rid].status != Reserved then (s, ReservationState)
    else (Settle(s, rid, target), Granted(rid))
  }

  /** The totals a heartbeat reports: only positive readings of cpu, memory and disk count. */
  function Reported(total: Res, cpu: int, memory: int, disk: int): Res {
    total.(cpu := if cpu > 0 then cpu else total.cpu,
           memory := if memory > 0 then memory else total.memory,
           disk := if disk > 0 then disk else total.disk)
  }

  /** A node row after an agent's heartbeat. */
  function Heard(node: Node, cpu: int, memory: int, disk: int, facts: map<string, string>): Node {
    node.(total := Reported(node.total, cpu, memory, disk),
          tags := node.tags.(online := true, capabilities := node.tags.capabilities + facts))
  }

  /** The two CHECK constraints on the nodes table. */
  predicate NodeCheck(node: Node) {
    Leq(ZERO, node.total) && Leq(ZERO, node.inUse) && Leq(ZERO, node.reserved)
    && Leq(Plus(node.inUse, node.reserved), node.total)
  }

  datatype Step =
    | Register(n: NodeId, tags: Tags, total: Res)
    | Retag(n: NodeId, tags: Tags)
    | Heartbeat(n: NodeId, cpu: int, memory: int, disk: int, facts: map<string, string>)
    | Reserve(op: OpId, req: Request, now: Time, seen: Option<nat>)
    | Commit(rid: nat)
    | Release(rid: nat)
    | Expire(rid: nat, now: Time)

  predicate Enabled(s: Pool, step: Step) {
    match step
    case Register(n, _, total) => n !in s.nodes && Leq(ZERO, total)
    case Retag(n, _) => n in s.nodes
    case Heartbeat(n, _, _, _, _) => n in s.nodes
    case Reserve(op, _, _, seen) =>
      seen.Some? ==> seen.value < |s.reservations| && s.reservations[seen.value].op == op
    case Commit(_) => RowsPlaced(s)
    case Release(_) => RowsPlaced(s)
    case Expire(rid, now) =>
      RowsPlaced(s) && rid < |s.reservations|
      && s.reservations[rid].status == Reserved && s.reservations[rid].expiresAt <= now
  }

  /** The foreign key from reservations to nodes. */
  predicate RowsPlaced(s: Pool) {
    forall r :: 0 <= r < |s.reservations| ==> s.reservations[r].node in s.nodes
  }

  function WithNode(s: Pool, n: NodeId, node: Node): Pool {
    s.(nodes := s.nodes[n := node])
  }

  ghost function Apply(s: Pool, step: Step): Pool
    requires Enabled(s, step)
  {
    match step
    case Register(n, tags, total) => WithNode(s, n, Node(tags, total, ZERO, ZERO))
    case Retag(n, tags) => WithNode(s, n, s.nodes[n].(tags := tags))
    case Heartbeat(n, cpu, memory, disk, facts) =>
      var node := Heard(s.nodes[n], cpu, memory, disk, facts);
      if NodeCheck(node) then WithNode(s, n, node) else s
    case Reserve(op, req, now, seen) => ReserveTx(s, op, req, now, seen).0
    case Commit(rid) => ChangeStatusTx(s, rid, Committed).0
    case Release(rid) => ChangeStatusTx(s, rid, Released).0
    case Expire(rid, _) => Settle(s, rid, Expired)
  }

  ghost predicate Run(s: Pool, steps: seq<Step>)
    decreases |steps|
  {
    steps == [] || (Enabled(s, steps[0]) && Run(Apply(s, steps[0]), steps[1..]))
  }

  ghost function Exec(s: Pool, steps: seq<Step>): Pool
    requires Run(s, steps)
    decreases |steps|
  {
    if steps == [] then s else Exec(Apply(s, steps[0]), steps[1..])
  }

  // ---------------------------------------------------------------- sums over the table

  function Portion(r: Reservation, n: NodeId, st: ReservationStatus, k: Kind): int {
    if r.node == n && r.status == st then At(r.amount, k) else 0
  }

  /** Sum of one resource over all rows of a node with a given status. */
  ghost function Held(rs: seq<Reservation>, n: NodeId, st: ReservationStatus, k: Kind): int {
    if |rs| == 0 then 0 else Portion(rs[0], n, st, k) + Held(rs[1..], n, st, k)
  }

  lemma {:induction false} HeldAppend(rs: seq<Reservation>, row: Reservation, n: NodeId, st: ReservationStatus, k: Kind)
    ensures Held(rs + [row], n, st, k) == Held(rs, n, st, k) + Portion(row, n, st, k)
  {
    if |rs| == 0 {
      assert rs + [row] == [row];
    } else {
      assert (rs + [row])[1..] == rs[1..] + [row];
      HeldAppend(rs[1..], row, n, st, k);
    }
  }

  /** Writing row r replaces its portion and leaves every other portion in place. */
  lemma {:induction false} HeldUpdate(
      rs: seq<Reservation>, r: nat, row: Reservation, n: NodeId, st: ReservationStatus, k: Kind)
    requires r < |rs|
    ensures Held(rs[r := row], n, st, k) == Held(rs, n, st, k) - Portion(rs[r], n, st, k) + Portion(row, n, st, k)
  {
    if r == 0 {
      assert rs[r := row][1..] == rs[1..];
    } else {
      assert rs[r := row][1..] == rs[1..][r - 1 := row];
      HeldUpdate(rs[1..], r - 1, row, n, st, k);
    }
  }

  lemma {:induction false} HeldNonNegative(rs: seq<Reservation>, n: NodeId, st: ReservationStatus, k: Kind)
    requires forall r :: 0 <= r < |rs| ==> Leq(ZERO, rs[r].amount)
    ensures 0 <= Held(rs, n, st, k)
  {
    if |rs| != 0 {
      assert At(ZERO, k) == 0 && Leq(ZERO, rs[0].amount);
      HeldNonNegative(rs[1..], n, st, k);
    }
  }

  lemma {:induction false} HeldNothing(rs: seq<Reservation>, n: NodeId, st: ReservationStatus, k: Kind)
    requires forall r :: 0 <= r < |rs| ==> rs[r].node != n
    ensures Held(rs, n, st, k) == 0
  {
    if |rs| != 0 { HeldNothing(rs[1..], n, st, k); }
  }

  // ---------------------------------------------------------------- invariant

  /** A counter column agrees, resource by resource, with the rows it counts. */
  ghost predicate Counts(column: Res, rs: seq<Reservation>, n: NodeId, st: ReservationStatus) {
    forall k :: At(column, k) == Held(rs, n, st, k)
  }

  ghost predicate NodeConserved(s: Pool, n: NodeId)
    requires n in s.nodes
  {
    && Counts(s.nodes[n].reserved, s.reservations, n, Reserved)
    && Counts(s.nodes[n].inUse, s.reservations, n, Committed)
    && Leq(ZERO, s.nodes[n].total)
    && Leq(Plus(s.nodes[n].inUse, s.nodes[n].reserved), s.nodes[n].total)
  }

  ghost predicate OnePerOperation(s: Pool) {
    forall a, b :: 0 <= a < |s.reservations| && 0 <= b < |s.reservations|
                   && s.reservations[a].op == s.reservations[b].op ==>
      a == b
  }

  ghost predicate PoolInv(s: Pool) {
    && (forall n :: n in s.nodes ==> NodeConserved(s, n))
    && RowsPlaced(s) && OnePerOperation(s)
    && (forall r :: 0 <= r < |s.reservations| ==> Leq(ZERO, s.reservations[r].amount))
  }

  lemma SettleConserves(s: Pool, rid: nat, target: ReservationStatus, n: NodeId)
    requires PoolInv(s) && rid < |s.reservations| && s.reservations[rid].status == Reserved && target != Reserved
    requires n in s.nodes
    ensures NodeConserved(Settle(s, rid, target), n)
  {
    assert NodeConserved(s, n);
    var was := s.reservations;
    var row := was[rid].(status := target);
    forall k ensures
      && Held(was[rid := row], n, Reserved, k) == Held(was, n, Reserved, k) - Portion(was[rid], n, Reserved, k)
      && Held(was[rid := row], n, Committed, k) == Held(was, n, Committed, k) + Portion(row, n, Committed, k)
    {
      HeldUpdate(was, rid, row, n, Reserved, k);
      HeldUpdate(was, rid, row, n, Committed, k);
    }
  }

  lemma SettleKeepsInv(s: Pool, rid: nat, target: ReservationStatus)
    requires PoolInv(s) && rid < |s.reservations| && s.reservations[rid].status == Reserved && target != Reserved
    ensures PoolInv(Settle(s, rid, target))
  {
    forall n | n in s.nodes ensures NodeConserved(Settle(s, rid, target), n) { SettleConserves(s, rid, target, n); }
  }

  predicate FitsOn(s: Pool, row: Reservation) {
    && row.node in s.nodes && row.status == Reserved && Leq(ZERO, row.amount)
    && Leq(row.amount, Minus(Minus(s.nodes[row.node].total, s.nodes[row.node].inUse), s.nodes[row.node].reserved))
  }

  lemma ReserveConserves(s: Pool, row: Reservation, n: NodeId)
    requires PoolInv(s) && FitsOn(s, row) && n in s.nodes
    ensures NodeConserved(Insert(s, row), n)
  {
    assert NodeConserved(s, n);
    forall k ensures
      && Held(s.reservations + [row], n, Reserved, k)
           == Held(s.reservations, n, Reserved, k) + Portion(row, n, Reserved, k)
      && Held(s.reservations + [row], n, Committed, k) == Held(s.reservations, n, Committed, k)
    {
      HeldAppend(s.reservations, row, n, Reserved, k);
      HeldAppend(s.reservations, row, n, Committed, k);
    }
  }

  lemma InsertKeepsInv(s: Pool, row: Reservation)
    requires PoolInv(s) && FitsOn(s, row) && !Taken(s, row.op)
    ensures PoolInv(Insert(s, row))
  {
    forall n | n in s.nodes ensures NodeConserved(Insert(s, row), n) { ReserveConserves(s, row, n); }
  }

  /** Reserve changes the pool at most by one insert of a fitting row for an unserved operation. */
  lemma ReserveInserts(s: Pool, op: OpId, req: Request, now: Time, seen: Option<nat>)
    ensures var t := ReserveTx(s, op, req, now, seen).0;
            || t == s
            || (&& |t.reservations| == |s.reservations| + 1 && FitsOn(s, t.reservations[|s.reservations|])
                && t.reservations[|s.reservations|].op == op && !Taken(s, op)
                && t == Insert(s, t.reservations[|s.reservations|]))
  {
    if ReserveTx(s, op, req, now, seen).0 != s {
      var n := Best(s.nodes, req);
      var row := Reservation(n, op, req.amount, Reserved, now + req.ttl);
      assert n in Candidates(s.nodes, req) && Leq(ZERO, row.amount);
      assert ReserveTx(s, op, req, now, seen).0 == Insert(s, row);
    }
  }

  lemma ReserveKeepsInv(s: Pool, op: OpId, req: Request, now: Time, seen: Option<nat>)
    requires PoolInv(s)
    ensures PoolInv(ReserveTx(s, op, req, now, seen).0)
  {
    ReserveInserts(s, op, req, now, seen);
    var t := ReserveTx(s, op, req, now, seen).0;
    if t != s { InsertKeepsInv(s, t.reservations[|s.reservations|]); }
  }

  lemma RegisterConserves(s: Pool, n: NodeId, node: Node, m: NodeId)
    requires PoolInv(s) && n !in s.nodes && Leq(ZERO, node.total) && node.inUse == node.reserved == ZERO
    requires m == n || m in s.nodes
    ensures NodeConserved(WithNode(s, n, node), m)
  {
    if m == n {
      UnusedNode(s, n, Reserved);
      UnusedNode(s, n, Committed);
      assert forall k :: At(ZERO, k) == 0;
    } else {
      assert NodeConserved(s, m);
    }
  }

  lemma RegisterKeepsInv(s: Pool, n: NodeId, tags: Tags, total: Res)
    requires PoolInv(s) && n !in s.nodes && Leq(ZERO, total)
    ensures PoolInv(WithNode(s, n, Node(tags, total, ZERO, ZERO)))
  {
    var t := WithNode(s, n, Node(tags, total, ZERO, ZERO));
    forall m | m in t.nodes ensures NodeConserved(t, m) { RegisterConserves(s, n, t.nodes[n], m); }
  }

  /** New tags, or new totals that still cover what is in use, leave the pool conserved. */
  lemma ResizeKeepsInv(s: Pool, n: NodeId, node: Node)
    requires PoolInv(s) && n in s.nodes && NodeCheck(node)
    requires node.inUse == s.nodes[n].inUse && node.reserved == s.nodes[n].reserved
    ensures PoolInv(WithNode(s, n, node))
  {
    var t := WithNode(s, n, node);
    forall m | m in t.nodes ensures NodeConserved(t, m) { assert NodeConserved(s, m); }
  }

  lemma StepKeepsInv(s: Pool, step: Step)
    requires PoolInv(s) && Enabled(s, step)
    ensures PoolInv(Apply(s, step))
  {
    match step
    case Register(n, tags, total) =>
      RegisterKeepsInv(s, n, tags, total);
    case Retag(n, tags) =>
      ChecksHold(s, n);
      ResizeKeepsInv(s, n, s.nodes[n].(tags := tags));
    case Heartbeat(n, _, _, _, _) =>
      if Apply(s, step) != s { ResizeKeepsInv(s, n, Apply(s, step).nodes[n]); }
    case Reserve(op, req, now, seen) =>
      ReserveKeepsInv(s, op, req, now, seen);
    case Commit(rid) =>
      if Apply(s, step) != s { SettleKeepsInv(s, rid, Committed); }
    case Release(rid) =>
      if Apply(s, step) != s { SettleKeepsInv(s, rid, Released); }
    case Expire(rid, _) =>
      SettleKeepsInv(s, rid, Expired);
  }

  lemma UnusedNode(s: Pool, n: NodeId, st: ReservationStatus)
    requires RowsPlaced(s) && n !in s.nodes
    ensures forall k :: Held(s.reservations, n, st, k) == 0
  {
    forall k ensures Held(s.reservations, n, st, k) == 0 { HeldNothing(s.reservations, n, st, k); }
  }

  /** A conserved pool satisfies both CHECK constraints on every node. */
  lemma ChecksHold(s: Pool, n: NodeId)
    requires PoolInv(s) && n in s.nodes
    ensures NodeCheck(s.nodes[n])
  {
    assert NodeConserved(s, n);
    forall k ensures At(ZERO, k) == 0 <= Held(s.reservations, n, Reserved, k)
      && 0 <= Held(s.reservations, n, Committed, k)
    {
      HeldNonNegative(s.reservations, n, Reserved, k);
      HeldNonNegative(s.reservations, n, Committed, k);
    }
  }

  /**
   * Capacity conservation.  After any interleaving of reservations (including lost races),
   * commits, releases, expiries, heartbeats and registrations, each of the six reserved counters
   * is the sum of the node's reserved rows, each allocated counter the sum of its committed rows,
   * and no CHECK constraint of the nodes table is ever violated.
   */
  lemma {:induction false} CapacityConserved(s: Pool, steps: seq<Step>)
    requires PoolInv(s) && Run(s, steps)
    ensures PoolInv(Exec(s, steps))
    ensures forall n :: n in Exec(s, steps).nodes ==> NodeCheck(Exec(s, steps).nodes[n])
    decreases |steps|
  {
    if steps == [] {
      forall n | n in s.nodes ensures NodeCheck(s.nodes[n]) { ChecksHold(s, n); }
    } else {
      StepKeepsInv(s, steps[0]);
      CapacityConserved(Apply(s, steps[0]), steps[1..]);
    }
  }

  lemma EmptyPool()
    ensures PoolInv(Pool(map[], []))
  {
  }

  /** reserved -> committed, released or expired: each final, each taken at most once. */
  lemma {:induction false} SettledIsFinal(s: Pool, steps: seq<Step>, rid: nat)
    requires Run(s, steps) && rid < |s.reservations|
    ensures rid < |Exec(s, steps).reservations|
    ensures var a, b := s.reservations[rid], Exec(s, steps).reservations[rid];
            b == a || (a.status == Reserved && b == a.(status := b.status))
    decreases |steps|
  {
    if steps != [] { SettledIsFinal(Apply(s, steps[0]), steps[1..], rid); }
  }

  // ---------------------------------------------------------------- placement theorems

  /**
   * Placement is sound, complete and optimal: a new valid request is refused exactly when no
   * eligible node fits; otherwise it lands on the one node that precedes every other candidate.
   */
  lemma PlacementOptimal(s: Pool, op: OpId, req: Request, now: Time)
    requires !Taken(s, op) && req.ttl > 0 && ValidCapacity(req.amount)
    ensures var (t, reply) := ReserveTx(s, op, req, now, None);
            var rid := |s.reservations|;
            && (reply == ResourceExhausted <==> forall n :: n in s.nodes ==> !Eligible(s.nodes[n], req))
            && (reply == ResourceExhausted ==> t == s)
            && (reply != ResourceExhausted ==>
                  && reply == Granted(rid) && |t.reservations| == rid + 1 && t.reservations[..rid] == s.reservations
                  && t.reservations[rid]
                       == Reservation(t.reservations[rid].node, op, req.amount, Reserved, now + req.ttl)
                  && IsBest(s.nodes, req, t.reservations[rid].node)
                  && (forall n :: IsBest(s.nodes, req, n) ==> n == t.reservations[rid].node)
                  && (PoolInv(s) ==> LeastLoaded(s.nodes, req, t.reservations[rid].node)))
  {
    hide PoolInv, LeastLoaded, Candidate, Eligible, Before;
    forall n | n in s.nodes ensures Eligible(s.nodes[n], req) <==> n in Candidates(s.nodes, req) {
      EligibleIsCandidate(s.nodes[n], req);
    }
    if Candidates(s.nodes, req) != {} {
      var best := Best(s.nodes, req);
      assert best in s.nodes && Eligible(s.nodes[best], req);
      forall n | IsBest(s.nodes, req, n) ensures n == best { BestIsUnique(s.nodes, req, n, best); }
      if PoolInv(s) { BestHasRoom(s, req, best); }
    }
  }

  lemma BestHasRoom(s: Pool, req: Request, n: NodeId)
    requires PoolInv(s) && ValidCapacity(req.amount) && IsBest(s.nodes, req, n)
    ensures LeastLoaded(s.nodes, req, n)
  {
    hide PoolInv, LeastLoaded, IsBest;
    forall m, k | m in s.nodes && Eligible(s.nodes[m], req) && Decisive(k) ensures At(s.nodes[m].total, k) > 0 {
      ChecksHold(s, m);
      assert At(ZERO, k) == 0 && At(req.amount, k) > 0;
    }
    BestIsLeastLoaded(s.nodes, req, n);
  }

  /** What a reservation request does, in every case, in terms of the request and the rows alone. */
  lemma ReserveVerdict(s: Pool, op: OpId, req: Request, now: Time, seen: Option<nat>)
    requires PoolInv(s) && Enabled(s, Reserve(op, req, now, seen))
    ensures var (t, reply) := ReserveTx(s, op, req, now, seen);
            if req.ttl <= 0 || req.amount.cpu <= 0 || req.amount.memory <= 0 || req.amount.disk <= 0
               || req.amount.ipv4 < 0 || req.amount.ipv6 < 0 || req.amount.nats < 0
            then t == s && reply == InvalidRequest
            else if seen.Some? then t == s && reply == Granted(seen.value)
            else if forall n :: n in s.nodes ==> !Eligible(s.nodes[n], req) then t == s && reply == ResourceExhausted
            else if exists r :: 0 <= r < |s.reservations| && s.reservations[r].op == op
            then t == s && reply.Granted? && reply.rid < |s.reservations| && s.reservations[reply.rid].op == op
            else
              && reply == Granted(|s.reservations|) && |t.reservations| == |s.reservations| + 1
              && t.reservations[..|s.reservations|] == s.reservations
              && LeastLoaded(s.nodes, req, t.reservations[reply.rid].node)
              && t.reservations[reply.rid]
                   == Reservation(t.reservations[reply.rid].node, op, req.amount, Reserved, now + req.ttl)
  {
    hide PoolInv, LeastLoaded, Eligible, Candidate, IsBest;
    if !Taken(s, op) && req.ttl > 0 && ValidCapacity(req.amount) {
      PlacementOptimal(s, op, req, now);
    } else {
      forall n | n in s.nodes ensures Eligible(s.nodes[n], req) <==> n in Candidates(s.nodes, req) {
        EligibleIsCandidate(s.nodes[n], req);
      }
    }
  }

  /** All granted replies for one operation name the same reservation, whatever ran in between. */
  lemma OneReservationPerOperation(
      s: Pool, steps: seq<Step>, op: OpId, a: nat, req: Request, now: Time, seen: Option<nat>)
    requires PoolInv(s) && Run(s, steps) && a < |s.reservations| && s.reservations[a].op == op
    requires Enabled(Exec(s, steps), Reserve(op, req, now, seen))
    ensures var (t, reply) := ReserveTx(Exec(s, steps), op, req, now, seen);
            t == Exec(s, steps) && (reply.Granted? ==> reply.rid == a)
  {
    CapacityConserved(s, steps);
    SettledIsFinal(s, steps, a);
    var t := Exec(s, steps);
    assert t.reservations[a].op == op;
    assert Taken(t, op) && RowOf(t, op) == a;
  }
}
