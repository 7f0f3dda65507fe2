/**
 * The gateway's connections.  Each connection first replays the pending commands of its node and
 * then dispatches new ones; callers may also hand it a command directly.
 */
module AgentGateway {
  import opened Prelude
  import opened AgentCommands

  datatype Phase = Replaying | Dispatching

  datatype Via = Auto | Direct

  /** One envelope written to a stream. */
  datatype Sending = Sending(id: nat, via: Via)

  /**
   * `todo` is what the current loop still has to look at, `sent` the connection's set of sent
   * ids, `due` what the connect-time read returned, and `log` the stream's contents.
   */
  datatype Connection = Connection(
    node: NodeId, phase: Phase, todo: seq<nat>, sent: set<nat>, due: seq<nat>, log: seq<Sending>)

  datatype Gateway = Gateway(commands: seq<Command>, connections: map<nat, Connection>)

  datatype GStep =
    | Elsewhere(step: Step)
    | Open(c: nat, node: NodeId, readOk: bool)
    | Tick(c: nat, readOk: bool)
    | Next(c: nat, storeOk: bool)
    | HandOver(c: nat, id: nat, storeOk: bool)
    | Close(c: nat)

  /** A failed read yields no rows; its error is ignored. */
  function Read(cs: seq<Command>, node: NodeId, ok: bool): seq<nat> {
    if ok then PendingFrom(cs, node, 0) else []
  }

  predicate GEnabled(g: Gateway, step: GStep) {
    match step
    case Elsewhere(_) => true
    case Open(c, _, _) => c !in g.connections
    case Tick(c, _) => c in g.connections && g.connections[c].todo == []
    case Next(c, _) => c in g.connections && g.connections[c].todo != []
    case HandOver(c, id, _) => c in g.connections && g.connections[c].todo == [] && id < |g.commands|
    case Close(c) => c in g.connections
  }

  /**
   * sendCommand: an unsupported command is failed in the store, if the store takes it; any other
   * goes out and is remembered.  (Marking it dispatched is a step of its own.)
   */
  ghost function SendTx(g: Gateway, c: nat, conn: Connection, id: nat, via: Via, storeOk: bool): Gateway
    requires id < |g.commands|
  {
    if Supported(g.commands[id]) then
      g.(connections := g.connections[c := conn.(sent := conn.sent + {id}, log := conn.log + [Sending(id, via)])])
    else if storeOk then Gateway(Apply(g.commands, Unsupported(id)), g.connections[c := conn])
    else g.(connections := g.connections[c := conn])
  }

  function Unsupported(id: nat): Step { Complete(id, false, "null", "unsupported runman command") }

  ghost function GApply(g: Gateway, step: GStep): Gateway
    requires GEnabled(g, step)
  {
    match step
    case Elsewhere(s) => g.(commands := Apply(g.commands, s))
    case Open(c, node, ok) =>
      var ids := Read(g.commands, node, ok);
      g.(connections := g.connections[c := Connection(node, Replaying, ids, {}, ids, [])])
    case Tick(c, ok) =>
      var conn := g.connections[c];
      g.(connections := g.connections[c := conn.(phase := Dispatching, todo := Read(g.commands, conn.node, ok))])
    case Next(c, ok) =>
      var conn := g.connections[c];
      var id := conn.todo[0];
      var rest := conn.(todo := conn.todo[1..]);
      if id >= |g.commands| || (conn.phase == Dispatching && id in conn.sent)
      then g.(connections := g.connections[c := rest])
      else SendTx(g, c, rest, id, Auto, ok)
    case HandOver(c, id, ok) => SendTx(g, c, g.connections[c], id, Direct, ok)
    case Close(c) => g.(connections := g.connections - {c})
  }

  ghost predicate GRun(g: Gateway, steps: seq<GStep>)
    decreases |steps|
  {
    steps == [] || (GEnabled(g, steps[0]) && GRun(GApply(g, steps[0]), steps[1..]))
  }

  ghost function GExec(g: Gateway, steps: seq<GStep>): Gateway
    requires GRun(g, steps)
    decreases |steps|
  {
    if steps == [] then g else GExec(GApply(g, steps[0]), steps[1..])
  }

  // ---------------------------------------------------------------- invariant

  /** The id was written to the stream. */
  predicate OnStream(log: seq<Sending>, id: nat) {
    exists i :: 0 <= i < |log| && log[i].id == id
  }

  /** Exactly the ids in `sent` are on the stream, and an automatic send is always a first one. */
  ghost predicate LogOk(conn: Connection) {
    && (forall id :: id in conn.sent <==> OnStream(conn.log, id))
    && (forall i, j :: 0 <= i < j < |conn.log| && conn.log[i].id == conn.log[j].id ==> conn.log[j].via == Direct)
    && (forall a, b :: 0 <= a < b < |conn.todo| ==> conn.todo[a] != conn.todo[b])
    && (conn.phase == Replaying ==> forall id :: id in conn.todo ==> id !in conn.sent)
  }

  /** Every command the connect-time read returned is sent, still to come, or unsupported. */
  predicate ReplayOk(conn: Connection, cs: seq<Command>) {
    forall k :: 0 <= k < |conn.due| ==>
      && conn.due[k] < |cs|
      && (|| conn.due[k] in conn.sent || !Supported(cs[conn.due[k]])
          || (conn.phase == Replaying && conn.due[k] in conn.todo))
  }

  ghost predicate ConnOk(conn: Connection, cs: seq<Command>) {
    && LogOk(conn) && ReplayOk(conn, cs)
    && (forall k :: 0 <= k < |conn.todo| ==> conn.todo[k] < |cs|)
  }

  ghost predicate GatewayInv(g: Gateway) {
    forall c :: c in g.connections ==> ConnOk(g.connections[c], g.commands)
  }

  lemma ConnSurvives(conn: Connection, cs: seq<Command>, ds: seq<Command>)
    requires ConnOk(conn, cs) && Grows(cs, ds)
    ensures ConnOk(conn, ds)
  {
  }

  lemma LogGrows(conn: Connection, id: nat, via: Via)
    requires LogOk(conn) && (via == Auto ==> id !in conn.sent) && (conn.phase == Replaying ==> id !in conn.todo)
    ensures LogOk(conn.(sent := conn.sent + {id}, log := conn.log + [Sending(id, via)]))
  {
    var log := conn.log + [Sending(id, via)];
    forall x ensures x in conn.sent + {id} <==> OnStream(log, x) {
      if x == id { assert log[|conn.log|].id == x; }
      if OnStream(conn.log, x) {
        var i :| 0 <= i < |conn.log| && conn.log[i].id == x;
        assert log[i].id == x;
      }
    }
    forall i, j | 0 <= i < j < |log| && log[i].id == log[j].id ensures log[j].via == Direct {
      if j == |conn.log| { assert OnStream(conn.log, id); }
    }
  }

  lemma OthersSurvive(g: Gateway, cs: seq<Command>, c: nat, conn: Connection)
    requires GatewayInv(g) && Grows(g.commands, cs) && ConnOk(conn, cs)
    ensures GatewayInv(Gateway(cs, g.connections[c := conn]))
  {
    forall d | d in g.connections ensures ConnOk(g.connections[d], cs) {
      ConnSurvives(g.connections[d], g.commands, cs);
    }
  }

  lemma GrowsItself(cs: seq<Command>)
    ensures Grows(cs, cs)
  {
  }

  /** Sending keeps a connection in order, provided its loop no longer has to look at the id. */
  lemma SendKeepsInv(g: Gateway, c: nat, was: Connection, conn: Connection, id: nat, via: Via, storeOk: bool)
    requires GatewayInv(g) && ConnOk(was, g.commands) && id < |g.commands|
    requires via == Auto ==> id !in was.sent
    requires conn == was.(todo := conn.todo) && LogOk(conn) && id !in conn.todo
    requires forall x :: x in conn.todo ==> x in was.todo
    requires forall x :: x in was.todo ==> x in conn.todo || x == id
    ensures GatewayInv(SendTx(g, c, conn, id, via, storeOk))
  {
    assert forall k :: 0 <= k < |conn.todo| ==> conn.todo[k] in conn.todo;
    if Supported(g.commands[id]) {
      LogGrows(conn, id, via);
      GrowsItself(g.commands);
      OthersSurvive(g, g.commands, c, conn.(sent := conn.sent + {id}, log := conn.log + [Sending(id, via)]));
    } else {
      var after := if storeOk then Apply(g.commands, Unsupported(id)) else g.commands;
      GrowsItself(g.commands);
      AgentCommands.StepGrows(g.commands, Unsupported(id));
      assert ConnOk(conn, after);
      OthersSurvive(g, after, c, conn);
    }
  }

  lemma NextKeepsInv(g: Gateway, c: nat, storeOk: bool)
    requires GatewayInv(g) && GEnabled(g, Next(c, storeOk))
    ensures GatewayInv(GApply(g, Next(c, storeOk)))
  {
    var conn := g.connections[c];
    var id := conn.todo[0];
    var rest := conn.(todo := conn.todo[1..]);
    assert ConnOk(conn, g.commands);
    assert conn.todo == [id] + conn.todo[1..];
    assert id in conn.todo && id !in rest.todo;
    assert LogOk(rest);
    if conn.phase == Dispatching && id in conn.sent {
      GrowsItself(g.commands);
      OthersSurvive(g, g.commands, c, rest);
    } else {
      SendKeepsInv(g, c, conn, rest, id, Auto, storeOk);
    }
  }

  lemma StepKeepsInv(g: Gateway, step: GStep)
    requires GatewayInv(g) && GEnabled(g, step)
    ensures GatewayInv(GApply(g, step))
  {
    GrowsItself(g.commands);
    match step
    case Elsewhere(s) =>
      AgentCommands.StepGrows(g.commands, s);
      forall d | d in g.connections ensures ConnOk(g.connections[d], Apply(g.commands, s)) {
        ConnSurvives(g.connections[d], g.commands, Apply(g.commands, s));
      }
    case Open(c, node, ok) =>
      var ids := Read(g.commands, node, ok);
      assert forall k :: 0 <= k < |ids| ==> ids[k] in ids;
      OthersSurvive(g, g.commands, c, Connection(node, Replaying, ids, {}, ids, []));
    case Tick(c, ok) =>
      assert ConnOk(g.connections[c], g.commands);
      var ids := Read(g.commands, g.connections[c].node, ok);
      assert forall k :: 0 <= k < |ids| ==> ids[k] in ids;
      OthersSurvive(g, g.commands, c, g.connections[c].(phase := Dispatching, todo := ids));
    case Next(c, ok) => NextKeepsInv(g, c, ok);
    case HandOver(c, id, ok) =>
      assert ConnOk(g.connections[c], g.commands);
      SendKeepsInv(g, c, g.connections[c], g.connections[c], id, Direct, ok);
    case Close(c) =>
  }

  lemma {:induction false} RunKeepsInv(g: Gateway, steps: seq<GStep>)
    requires GatewayInv(g) && GRun(g, steps)
    ensures GatewayInv(GExec(g, steps))
    decreases |steps|
  {
    if steps != [] {
      StepKeepsInv(g, steps[0]);
      RunKeepsInv(GApply(g, steps[0]), steps[1..]);
    }
  }

  /**
   * On every connection of every run, replay and dispatch never repeat a command: whenever a
   * command is on the stream a second time, the later copy was handed over directly.
   */
  lemma SentOncePerConnection(commands: seq<Command>, steps: seq<GStep>, c: nat, i: nat, j: nat)
    requires GRun(Gateway(commands, map[]), steps) && c in GExec(Gateway(commands, map[]), steps).connections
    requires i < j < |GExec(Gateway(commands, map[]), steps).connections[c].log|
    ensures var log := GExec(Gateway(commands, map[]), steps).connections[c].log;
            log[i].id == log[j].id ==> log[j].via == Direct
  {
    RunKeepsInv(Gateway(commands, map[]), steps);
    assert ConnOk(GExec(Gateway(commands, map[]), steps).connections[c],
      GExec(Gateway(commands, map[]), steps).commands);
  }

  /** The step writes an id to connection c's stream that is already on it. */
  ghost predicate Repeats(g: Gateway, step: GStep, c: nat)
    requires GEnabled(g, step) && c in g.connections && c in GApply(g, step).connections
  {
    var was, log := g.connections[c].log, GApply(g, step).connections[c].log;
    |was| < |log| && OnStream(was, log[|was|].id)
  }

  /** What can be checked before a step: a supported command handed to a stream that had it. */
  predicate RepeatsNext(g: Gateway, step: GStep, c: nat)
    requires GEnabled(g, step) && c in g.connections
  {
    step.HandOver? && step.c == c && Supported(g.commands[step.id]) && step.id in g.connections[c].sent
  }

  /** At most once, exactly: a step repeats a command on a connection iff it is such a hand-over. */
  lemma RepeatsIff(g: Gateway, step: GStep, c: nat)
    requires GatewayInv(g) && GEnabled(g, step) && c in g.connections && c in GApply(g, step).connections
    ensures Repeats(g, step, c) <==> RepeatsNext(g, step, c)
  {
    assert ConnOk(g.connections[c], g.commands);
    if step.Next? && step.c == c {
      assert g.connections[c].todo[0] in g.connections[c].todo;
    }
  }

  /** Repeating hand-overs to connection c along a run. */
  ghost function RepeatingSteps(g: Gateway, steps: seq<GStep>, c: nat): nat
    requires GRun(g, steps)
    decreases |steps|
  {
    if steps == [] then 0
    else
      (if c in g.connections && RepeatsNext(g, steps[0], c) then 1 else 0)
      + RepeatingSteps(GApply(g, steps[0]), steps[1..], c)
  }

  /** Copies on the stream beyond the first of each command. */
  function Copies(g: Gateway, c: nat): int {
    if c in g.connections then |g.connections[c].log| - |g.connections[c].sent| else 0
  }

  lemma StepCopies(g: Gateway, step: GStep, c: nat)
    requires GatewayInv(g) && GEnabled(g, step) && step != Close(c)
    ensures Copies(GApply(g, step), c) == Copies(g, c) + if c in g.connections && RepeatsNext(g, step, c) then 1 else 0
  {
    hide ReplayOk, LogOk, AgentCommands.Apply, PendingFrom, Supported, SendTx;
    if step.HandOver? {
      SendCopies(g, step.c, g.connections[step.c], step.id, Direct, step.storeOk, c);
    } else if step.Next? {
      var conn := g.connections[step.c];
      var id := conn.todo[0];
      var rest := conn.(todo := conn.todo[1..]);
      if id < |g.commands| { SendCopies(g, step.c, rest, id, Auto, step.storeOk, c); }
      if conn.phase == Replaying { ReplaysUnsent(g, step.c); }
    }
  }

  lemma ReplaysUnsent(g: Gateway, c: nat)
    requires GatewayInv(g) && c in g.connections && g.connections[c].todo != [] && g.connections[c].phase == Replaying
    ensures g.connections[c].todo[0] !in g.connections[c].sent
  {
    assert ConnOk(g.connections[c], g.commands);
    assert g.connections[c].todo[0] in g.connections[c].todo;
  }

  lemma SendCopies(g: Gateway, d: nat, conn: Connection, id: nat, via: Via, storeOk: bool, c: nat)
    requires id < |g.commands| && d in g.connections
    requires conn.log == g.connections[d].log && conn.sent == g.connections[d].sent
    ensures Copies(SendTx(g, d, conn, id, via, storeOk), c)
      == Copies(g, c) + if c == d && Supported(g.commands[id]) && id in conn.sent then 1 else 0
  {
    hide AgentCommands.Apply, Supported;
    AddOne(conn.sent, id);
  }

  lemma AddOne(ids: set<nat>, id: nat)
    ensures |ids + {id}| == |ids| + if id in ids then 0 else 1
  {
    if id in ids { assert ids + {id} == ids; }
  }

  /**
   * Over any run of a connection its stream carries exactly as many extra copies as there were
   * repeating hand-overs.
   */
  lemma {:induction false} CopiesAreHandOvers(g: Gateway, steps: seq<GStep>, c: nat)
    requires GatewayInv(g) && GRun(g, steps) && Close(c) !in steps
    ensures Copies(GExec(g, steps), c) == Copies(g, c) + RepeatingSteps(g, steps, c)
    decreases |steps|
  {
    hide GApply, GEnabled, Copies, GatewayInv;
    if steps != [] {
      StepCopies(g, steps[0], c);
      StepKeepsInv(g, steps[0]);
      CopiesAreHandOvers(GApply(g, steps[0]), steps[1..], c);
    }
  }

  predicate EachOnce(log: seq<Sending>) {
    forall i, j :: 0 <= i < j < |log| ==> log[i].id != log[j].id
  }

  ghost function IdsOn(log: seq<Sending>): set<nat> { set i | 0 <= i < |log| :: log[i].id }

  /** A stream has as many entries as ids exactly when no id is on it twice. */
  lemma {:induction false} CountIds(log: seq<Sending>)
    ensures |IdsOn(log)| <= |log| && (|IdsOn(log)| == |log| <==> EachOnce(log))
  {
    if |log| > 0 {
      var rest, id := log[1..], log[0].id;
      CountIds(rest);
      assert forall i :: 0 < i < |log| ==> log[i] == rest[i - 1];
      assert IdsOn(log) == IdsOn(rest) + {id} by {
        forall x | x in IdsOn(rest) + {id} ensures x in IdsOn(log) {
          if x in IdsOn(rest) {
            var i :| 0 <= i < |rest| && rest[i].id == x;
            assert log[i + 1].id == x;
          }
        }
      }
      AddOne(IdsOn(rest), id);
      if id in IdsOn(rest) {
        var i :| 0 <= i < |rest| && rest[i].id == id;
        assert log[i + 1].id == log[0].id;
      }
      assert EachOnce(log) <==> EachOnce(rest) && id !in IdsOn(rest) by { FirstOnce(log, rest, id); }
    } else {
      assert IdsOn(log) == {};
    }
  }

  lemma FirstOnce(log: seq<Sending>, rest: seq<Sending>, id: nat)
    requires |log| > 0 && rest == log[1..] && id == log[0].id
    ensures EachOnce(log) <==> EachOnce(rest) && id !in IdsOn(rest)
  {
    assert forall i :: 0 < i < |log| ==> log[i] == rest[i - 1];
    if EachOnce(log) {
      forall i, j | 0 <= i < j < |rest| ensures rest[i].id != rest[j].id { assert log[i + 1].id != log[j + 1].id; }
      forall i | 0 <= i < |rest| ensures rest[i].id != id { assert log[0].id != log[i + 1].id; }
    }
    if EachOnce(rest) && id !in IdsOn(rest) {
      forall i, j | 0 <= i < j < |log| ensures log[i].id != log[j].id {
        if i == 0 { assert rest[j - 1].id in IdsOn(rest); } else { assert rest[i - 1].id != rest[j - 1].id; }
      }
    }
  }

  /** From the start: every command is on the stream at most once iff no hand-over repeated one. */
  lemma AtMostOnceIff(commands: seq<Command>, steps: seq<GStep>, c: nat)
    requires GRun(Gateway(commands, map[]), steps) && Close(c) !in steps
    requires c in GExec(Gateway(commands, map[]), steps).connections
    ensures EachOnce(GExec(Gateway(commands, map[]), steps).connections[c].log)
      <==> RepeatingSteps(Gateway(commands, map[]), steps, c) == 0
  {
    var g := Gateway(commands, map[]);
    CopiesAreHandOvers(g, steps, c);
    RunKeepsInv(g, steps);
    var conn := GExec(g, steps).connections[c];
    assert ConnOk(conn, GExec(g, steps).commands);
    CountIds(conn.log);
    assert conn.sent == IdsOn(conn.log) by { SentIsOn(conn); }
  }

  lemma SentIsOn(conn: Connection)
    requires LogOk(conn)
    ensures conn.sent == IdsOn(conn.log)
  {
    forall id ensures id in conn.sent <==> id in IdsOn(conn.log) {
      assert id in conn.sent <==> OnStream(conn.log, id);
    }
  }

  /** A direct hand-over does repeat: a command replayed on connect goes out again. */
  lemma HandOverRepeats(cmd: AgentCommands.Command)
    requires cmd.status == Queued && Supported(cmd)
    ensures var g := Gateway([cmd], map[]);
            var steps := [Open(0, cmd.node, true), Next(0, true), HandOver(0, 0, true)];
            GRun(g, steps) && 0 in GExec(g, steps).connections
            && GExec(g, steps).connections[0].log == [Sending(0, Auto), Sending(0, Direct)]
  {
    var g := Gateway([cmd], map[]);
    var steps := [Open(0, cmd.node, true), Next(0, true), HandOver(0, 0, true)];
    assert PendingFrom([cmd], cmd.node, 0) == [0] + PendingFrom([cmd], cmd.node, 1);
    var g1 := GApply(g, steps[0]);
    assert g1.connections[0].todo == [0];
    var g2 := GApply(g1, steps[1]);
    assert g2.connections[0].log == [Sending(0, Auto)];
    var g3 := GApply(g2, steps[2]);
    assert steps[1..] == [Next(0, true), HandOver(0, 0, true)];
    assert steps[1..][1..] == [HandOver(0, 0, true)] && steps[1..][1..][1..] == [];
    assert GRun(g3, []) && GExec(g3, []) == g3;
    assert GRun(g2, [HandOver(0, 0, true)]) && GExec(g2, [HandOver(0, 0, true)]) == g3;
    assert GRun(g1, steps[1..]) && GExec(g1, steps[1..]) == g3;
  }

  /** Once the replay loop is through, every supported command it was due to send is on the stream. */
  lemma ReplaySendsEverything(commands: seq<Command>, steps: seq<GStep>, c: nat, k: nat)
    requires GRun(Gateway(commands, map[]), steps) && c in GExec(Gateway(commands, map[]), steps).connections
    requires var conn := GExec(Gateway(commands, map[]), steps).connections[c];
             k < |conn.due| && (conn.todo == [] || conn.phase == Dispatching)
    ensures var g := GExec(Gateway(commands, map[]), steps);
            var id := g.connections[c].due[k];
            id < |g.commands| && (Supported(g.commands[id]) ==> OnStream(g.connections[c].log, id))
  {
    RunKeepsInv(Gateway(commands, map[]), steps);
    assert ConnOk(GExec(Gateway(commands, map[]), steps).connections[c],
      GExec(Gateway(commands, map[]), steps).commands);
  }

  /** What is due on a new connection is exactly the node's unfinished commands, when the read works. */
  lemma DueIsUnfinished(g: Gateway, c: nat, node: NodeId, id: nat)
    requires c !in g.connections
    ensures id in GApply(g, Open(c, node, true)).connections[c].due <==>
      id < |g.commands| && g.commands[id].node == node && !Final(g.commands[id].status)
  {
  }

  /** A dispatch tick looks at exactly the node's unfinished commands, each once, in creation order. */
  lemma TickLooksAtUnfinished(g: Gateway, c: nat)
    requires c in g.connections && g.connections[c].todo == []
    ensures var (conn, todo) := (g.connections[c], GApply(g, Tick(c, true)).connections[c].todo);
            && (forall id :: id in todo <==>
                  && 0 <= id < |g.commands| && g.commands[id].node == conn.node
                  && g.commands[id].status in {Queued, Dispatched})
            && (forall a, b :: 0 <= a < b < |todo| ==> todo[a] < todo[b])
            && GApply(g, Tick(c, true)).connections[c] == conn.(phase := Dispatching, todo := todo)
  {
    forall id | 0 <= id < |g.commands|
      ensures Final(g.commands[id].status) <==> g.commands[id].status !in {Queued, Dispatched}
    {
      match g.commands[id].status
      case Queued => case Dispatched => case Succeeded => case Failed =>
    }
  }

  /** A payload that decodes and one of the ten kinds an envelope exists for. */
  predicate Sendable(c: Command) {
    && c.payload.decodes
    && c.kind in {"create", "start", "stop", "restart", "delete", "reinstall", "reset_password", "list_ports",
                  "add_port", "delete_port"}
  }

  /**
   * What a loop does with the command it looks at: one already sent is passed over by dispatch, a
   * supported one goes out, and an unsupported one fails in the store if the store takes it.
   */
  lemma NextVerdict(g: Gateway, c: nat, storeOk: bool)
    requires GEnabled(g, Next(c, storeOk)) && g.connections[c].todo[0] < |g.commands|
    ensures var (conn, h) := (g.connections[c], GApply(g, Next(c, storeOk)));
            var id := conn.todo[0];
            && c in h.connections && h.connections[c].todo == conn.todo[1..] && |h.commands| == |g.commands|
            && (if conn.phase == Dispatching && id in conn.sent
                then h.connections[c].log == conn.log && h.commands == g.commands
                else if Sendable(g.commands[id])
                then && h.connections[c].log == conn.log + [Sending(id, Auto)]
                     && h.connections[c].sent == conn.sent + {id} && h.commands == g.commands
                else && h.connections[c].log == conn.log
                     && (storeOk && g.commands[id].status in {Queued, Dispatched} ==> h.commands[id].status == Failed)
                     && (!storeOk ==> h.commands == g.commands))
  {
  }
}
