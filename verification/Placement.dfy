/** Nodes and the candidate query: which node a reservation lands on. */
module Placement {
  import opened Prelude
  import opened Resources

  /** Where a node stands: everything placement looks at besides the counters. */
  datatype Tags = Tags(
    group: Option<nat>, online: bool, providerActive: bool, groupActive: bool,
    capabilities: map<string, string>, weight: int)

  datatype Node = Node(tags: Tags, total: Res, inUse: Res, reserved: Res)

  datatype Request = Request(group: nat, amount: Res, required: map<string, string>, ttl: Time)

  // ---------------------------------------------------------------- placement

  predicate ValidCapacity(a: Res) {
    a.cpu > 0 && a.memory > 0 && a.disk > 0 && a.ipv4 >= 0 && a.ipv6 >= 0 && a.nats >= 0
  }

  /** The WHERE clause of the candidate query. */
  predicate Candidate(node: Node, req: Request) {
    && node.tags.group == Some(req.group)
    && node.tags.online && node.tags.providerActive && node.tags.groupActive
    && (forall c :: c in req.required ==> c in node.tags.capabilities && node.tags.capabilities[c] == req.required[c])
    && Leq(req.amount, Minus(Minus(node.total, node.inUse), node.reserved))
  }

  /** used / NULLIF(total, 0), with NULL read as 0. */
  function Share(used: int, total: int): real {
    if total == 0 then 0.0 else used as real / total as real
  }

  function Larger(a: real, b: real): real { if a < b then b else a }

  /** Highest of the cpu, memory and disk utilisations the node would have after placement. */
  function Score(node: Node, req: Request): real {
    var used := Plus(Plus(node.inUse, node.reserved), req.amount);
    Larger(Share(used.cpu, node.total.cpu),
           Larger(Share(used.memory, node.total.memory), Share(used.disk, node.total.disk)))
  }

  /** The ORDER BY clause: score ascending, weight descending, id ascending. */
  predicate Before(nodes: map<NodeId, Node>, req: Request, a: NodeId, b: NodeId)
    requires a in nodes && b in nodes
  {
    || Score(nodes[a], req) < Score(nodes[b], req)
    || (Score(nodes[a], req) == Score(nodes[b], req)
        && (nodes[a].tags.weight > nodes[b].tags.weight
            || (nodes[a].tags.weight == nodes[b].tags.weight && a < b)))
  }

  function Candidates(nodes: map<NodeId, Node>, req: Request): set<NodeId> {
    set n | n in nodes && Candidate(nodes[n], req)
  }

  predicate IsBest(nodes: map<NodeId, Node>, req: Request, n: NodeId) {
    n in Candidates(nodes, req) && forall m :: m in Candidates(nodes, req) ==> m == n || Before(nodes, req, n, m)
  }

  ghost predicate First(some: set<NodeId>, before: (NodeId, NodeId) -> bool, n: NodeId) {
    n in some && forall m :: m in some ==> m == n || before(n, m)
  }

  /** Any finite nonempty set has a first element under a total, transitive strict order. */
  lemma {:induction false} FirstExists(some: set<NodeId>, before: (NodeId, NodeId) -> bool) returns (n: NodeId)
    requires some != {}
    requires forall a, b :: a in some && b in some && a != b ==> before(a, b) || before(b, a)
    requires forall a, b, c :: a in some && b in some && c in some && before(a, b) && before(b, c) ==> before(a, c)
    ensures First(some, before, n)
  {
    var x :| x in some;
    var rest := some - {x};
    n := x;
    if rest != {} {
      var y := FirstExists(rest, before);
      n := if before(x, y) then x else y;
    }
    forall m | m in some ensures m == n || before(n, m) {
      assert m == x || m in rest;
    }
  }

  lemma BeforeIsTotalOrder(nodes: map<NodeId, Node>, req: Request)
    ensures forall a, b :: a in nodes && b in nodes && a != b ==> Before(nodes, req, a, b) || Before(nodes, req, b, a)
    ensures forall a, b :: a in nodes && b in nodes && Before(nodes, req, a, b) ==> !Before(nodes, req, b, a)
    ensures forall a, b, c :: a in nodes && b in nodes && c in nodes
                              && Before(nodes, req, a, b) && Before(nodes, req, b, c) ==>
              Before(nodes, req, a, c)
  {
  }

  /** The ORDER BY leaves no ties: the first row is determined. */
  lemma BestIsUnique(nodes: map<NodeId, Node>, req: Request, a: NodeId, b: NodeId)
    requires IsBest(nodes, req, a) && IsBest(nodes, req, b)
    ensures a == b
  {
    assert a == b || (Before(nodes, req, a, b) && Before(nodes, req, b, a));
    BeforeIsTotalOrder(nodes, req);
  }

  /** The first row of the candidate query. */
  ghost function Best(nodes: map<NodeId, Node>, req: Request): (n: NodeId)
    requires Candidates(nodes, req) != {}
    ensures IsBest(nodes, req, n)
  {
    var some := Candidates(nodes, req);
    var before := (a: NodeId, b: NodeId) => a in nodes && b in nodes && Before(nodes, req, a, b);
    BeforeIsTotalOrder(nodes, req);
    var n := FirstOf(some, before);
    n
  }

  ghost function FirstOf(some: set<NodeId>, before: (NodeId, NodeId) -> bool): (n: NodeId)
    requires some != {}
    requires forall a, b :: a in some && b in some && a != b ==> before(a, b) || before(b, a)
    requires forall a, b, c :: a in some && b in some && c in some && before(a, b) && before(b, c) ==> before(a, c)
    ensures First(some, before, n)
  {
    assert exists n :: First(some, before, n) by { var n := FirstExists(some, before); }
    var n :| First(some, before, n);
    n
  }

  // ---------------------------------------------------------------- the same in whole numbers

  /** The node is open to the request and has room for each of the six resources. */
  predicate Eligible(node: Node, req: Request) {
    && node.tags.group == Some(req.group) && node.tags.online && node.tags.providerActive && node.tags.groupActive
    && (forall c :: c in req.required ==> c in node.tags.capabilities && node.tags.capabilities[c] == req.required[c])
    && (forall k :: At(node.inUse, k) + At(node.reserved, k) + At(req.amount, k) <= At(node.total, k))
  }

  /** The resources that decide where an instance goes. */
  predicate Decisive(k: Kind) { k in {Cpu, Memory, Disk} }

  /** Use of a resource once the request is placed. */
  function Used(node: Node, req: Request, k: Kind): int {
    At(node.inUse, k) + At(node.reserved, k) + At(req.amount, k)
  }

  /** No decisive resource of `a` would be used to a higher fraction than the fullest one of `b`. */
  ghost predicate NoFuller(a: Node, b: Node, req: Request) {
    exists k :: Decisive(k) && forall j :: Decisive(j) ==>
      Used(a, req, j) * At(b.total, k) <= Used(b, req, k) * At(a.total, j)
  }

  /** Eligible, no fuller than any eligible node, and first by weight and id among equally full ones. */
  ghost predicate LeastLoaded(nodes: map<NodeId, Node>, req: Request, n: NodeId) {
    && n in nodes && Eligible(nodes[n], req)
    && forall m :: m in nodes && Eligible(nodes[m], req) ==>
         && NoFuller(nodes[n], nodes[m], req)
         && (NoFuller(nodes[m], nodes[n], req) ==>
               nodes[n].tags.weight > nodes[m].tags.weight || (nodes[n].tags.weight == nodes[m].tags.weight && n <= m))
  }

  lemma EligibleIsCandidate(node: Node, req: Request)
    ensures Eligible(node, req) <==> Candidate(node, req)
  {
    var free := Minus(Minus(node.total, node.inUse), node.reserved);
    assert forall k :: At(free, k) == At(node.total, k) - At(node.inUse, k) - At(node.reserved, k);
  }

  lemma FractionLeq(a: int, b: int, c: int, d: int)
    requires b > 0 && d > 0
    ensures a as real / b as real <= c as real / d as real <==> a * d <= c * b
  {
    var x, y := a as real / b as real, c as real / d as real;
    assert x * b as real == a as real && y * d as real == c as real;
    assert (a * d) as real == a as real * d as real && (c * b) as real == c as real * b as real;
    var scale := b as real * d as real;
    assert x * scale == (a * d) as real && y * scale == (c * b) as real && scale > 0.0;
    ScaleLeq(x, y, scale);
  }

  lemma ScaleLeq(x: real, y: real, scale: real)
    requires scale > 0.0
    ensures x <= y <==> x * scale <= y * scale
  {
    if x <= y { assert (y - x) * scale >= 0.0; } else { assert (x - y) * scale > 0.0; }
  }

  function ShareOf(node: Node, req: Request, k: Kind): real { Share(Used(node, req, k), At(node.total, k)) }

  /** The score is the largest of the three shares. */
  lemma ScoreIsGreatest(node: Node, req: Request)
    ensures forall k :: Decisive(k) ==> ShareOf(node, req, k) <= Score(node, req)
    ensures exists k :: Decisive(k) && ShareOf(node, req, k) == Score(node, req)
  {
    var used := Plus(Plus(node.inUse, node.reserved), req.amount);
    assert used.cpu == At(used, Cpu) && used.memory == At(used, Memory) && used.disk == At(used, Disk);
    assert Share(used.cpu, node.total.cpu) == ShareOf(node, req, Cpu);
    assert Share(used.memory, node.total.memory) == ShareOf(node, req, Memory);
    assert Share(used.disk, node.total.disk) == ShareOf(node, req, Disk);
    assert Decisive(Cpu) && Decisive(Memory) && Decisive(Disk);
  }

  lemma ScoreLeqIff(a: Node, b: Node, req: Request)
    requires forall k :: Decisive(k) ==> At(a.total, k) > 0 && At(b.total, k) > 0
    ensures Score(a, req) <= Score(b, req) <==> NoFuller(a, b, req)
  {
    hide Score, Share;
    ScoreIsGreatest(a, req);
    ScoreIsGreatest(b, req);
    forall j, k | Decisive(j) && Decisive(k)
      ensures ShareOf(a, req, j) <= ShareOf(b, req, k) <==>
        Used(a, req, j) * At(b.total, k) <= Used(b, req, k) * At(a.total, j)
    {
      SharesCompare(a, b, req, j, k);
    }
    if Score(a, req) <= Score(b, req) {
      var k :| Decisive(k) && ShareOf(b, req, k) == Score(b, req);
      assert forall j :: Decisive(j) ==> ShareOf(a, req, j) <= ShareOf(b, req, k);
    } else {
      var j :| Decisive(j) && ShareOf(a, req, j) == Score(a, req);
      assert forall k :: Decisive(k) ==> ShareOf(b, req, k) < ShareOf(a, req, j);
    }
  }

  lemma SharesCompare(a: Node, b: Node, req: Request, j: Kind, k: Kind)
    requires At(a.total, j) > 0 && At(b.total, k) > 0
    ensures ShareOf(a, req, j) <= ShareOf(b, req, k) <==>
      Used(a, req, j) * At(b.total, k) <= Used(b, req, k) * At(a.total, j)
  {
    FractionLeq(Used(a, req, j), At(a.total, j), Used(b, req, k), At(b.total, k));
  }

  /** The first row of the candidate query is the least loaded node, on nodes with sane counters. */
  lemma BestIsLeastLoaded(nodes: map<NodeId, Node>, req: Request, n: NodeId)
    requires IsBest(nodes, req, n)
    requires forall m, k :: m in nodes && Eligible(nodes[m], req) && Decisive(k) ==> At(nodes[m].total, k) > 0
    ensures LeastLoaded(nodes, req, n)
  {
    hide Score, NoFuller, Candidate, Eligible;
    EligibleIsCandidate(nodes[n], req);
    forall m | m in nodes && Eligible(nodes[m], req)
      ensures NoFuller(nodes[n], nodes[m], req)
      ensures NoFuller(nodes[m], nodes[n], req) ==>
        nodes[n].tags.weight > nodes[m].tags.weight || (nodes[n].tags.weight == nodes[m].tags.weight && n <= m)
    {
      EligibleIsCandidate(nodes[m], req);
      assert m in Candidates(nodes, req);
      ScoreLeqIff(nodes[n], nodes[m], req);
      ScoreLeqIff(nodes[m], nodes[n], req);
    }
  }
}
