/** Durable agent commands: creation by key, dispatch, first-wins completion; and message claims. */
module AgentCommands {
  import opened Prelude

  datatype Status = Queued | Dispatched | Succeeded | Failed

  /** A JSON payload: its root_password member, the rest of it, and whether it decodes. */
  datatype Payload = Payload(password: Option<string>, fields: string, decodes: bool)

  datatype Command = Command(
    node: NodeId, key: string, kind: string, payload: Payload, status: Status, result: string, error: string)

  datatype Reply = Accepted(id: nat) | Conflict

  const SECRET_KINDS := {"create", "reinstall", "reset_password"}
  const KINDS := SECRET_KINDS + {"start", "stop", "restart", "delete", "list_ports", "add_port", "delete_port"}

  predicate Final(st: Status) { st == Succeeded || st == Failed }

  /** The command can be put in an envelope. */
  predicate Supported(c: Command) { c.payload.decodes && c.kind in KINDS }

  // ---------------------------------------------------------------- row updates

  predicate KeyTaken(cs: seq<Command>, key: string) {
    exists i :: 0 <= i < |cs| && cs[i].key == key
  }

  ghost function Find(cs: seq<Command>, key: string): (i: nat)
    requires KeyTaken(cs, key)
    ensures i < |cs| && cs[i].key == key
  {
    var i :| 0 <= i < |cs| && cs[i].key == key;
    i
  }

  /** The stored row answers the request only if node, kind and payload agree. */
  predicate Matches(c: Command, node: NodeId, kind: string, payload: Payload) {
    c.payload == payload && c.node == node && c.kind == kind
  }

  ghost function CreateTx(
      cs: seq<Command>, node: NodeId, key: string, kind: string, payload: Payload): (seq<Command>, Reply)
  {
    if KeyTaken(cs, key) then
      var i := Find(cs, key);
      (cs, if Matches(cs[i], node, kind, payload) then Accepted(i) else Conflict)
    else
      (cs + [Command(node, key, kind, payload, Queued, "null", "")], Accepted(|cs|))
  }

  function MarkRow(c: Command): Command {
    if Final(c.status) then c else c.(status := Dispatched)
  }

  /** Completion also strips the password of the kinds that carry one. */
  function CompleteRow(c: Command, success: bool, result: string, error: string): Command {
    if Final(c.status) then c
    else c.(status := if success then Succeeded else Failed, result := result, error := error,
            payload := if c.kind in SECRET_KINDS then c.payload.(password := None) else c.payload)
  }

  datatype Step =
    | Create(node: NodeId, key: string, kind: string, payload: Payload)
    | MarkDispatched(id: nat)
    | Complete(id: nat, success: bool, result: string, error: string)

  ghost function Apply(cs: seq<Command>, step: Step): seq<Command> {
    match step
    case Create(node, key, kind, payload) => CreateTx(cs, node, key, kind, payload).0
    case MarkDispatched(id) => if id < |cs| then cs[id := MarkRow(cs[id])] else cs
    case Complete(id, success, result, error) =>
      if id < |cs| then cs[id := CompleteRow(cs[id], success, result, error)] else cs
  }

  ghost function Exec(cs: seq<Command>, steps: seq<Step>): seq<Command>
    decreases |steps|
  {
    if steps == [] then cs else Exec(Apply(cs, steps[0]), steps[1..])
  }

  // ---------------------------------------------------------------- first wins

  function Rank(st: Status): nat {
    match st case Queued => 0 case Dispatched => 1 case Succeeded => 2 case Failed => 2
  }

  /** Rows are only added, keep their identity, move forward, and a final row never changes. */
  ghost predicate Grows(a: seq<Command>, b: seq<Command>) {
    && |a| <= |b|
    && forall i :: 0 <= i < |a| ==>
         && b[i].node == a[i].node && b[i].key == a[i].key && b[i].kind == a[i].kind
         && b[i].payload.fields == a[i].payload.fields && b[i].payload.decodes == a[i].payload.decodes
         && Rank(a[i].status) <= Rank(b[i].status)
         && (Final(a[i].status) ==> b[i] == a[i])
         && (!Final(b[i].status) ==> b[i].payload == a[i].payload)
  }

  lemma StepGrows(cs: seq<Command>, step: Step)
    ensures Grows(cs, Apply(cs, step))
  {
  }

  lemma GrowsTransitive(a: seq<Command>, b: seq<Command>, c: seq<Command>)
    requires Grows(a, b) && Grows(b, c)
    ensures Grows(a, c)
  {
  }

  /**
   * First wins, permanently: under any mix of repeated creation, dispatch marks and completions a
   * command that succeeded or failed keeps its status, result and error for good.
   */
  lemma {:induction false} FirstCompletionWins(cs: seq<Command>, steps: seq<Step>)
    ensures Grows(cs, Exec(cs, steps))
    decreases |steps|
  {
    hide Apply;
    if steps != [] {
      StepGrows(cs, steps[0]);
      FirstCompletionWins(Apply(cs, steps[0]), steps[1..]);
      GrowsTransitive(cs, Apply(cs, steps[0]), Exec(cs, steps));
    }
  }

  ghost predicate CommandsInv(cs: seq<Command>) {
    && (forall i, j :: 0 <= i < |cs| && 0 <= j < |cs| && cs[i].key == cs[j].key ==> i == j)
    && (forall i :: 0 <= i < |cs| && Final(cs[i].status) && cs[i].kind in SECRET_KINDS ==>
         cs[i].payload.password == None)
  }

  lemma {:induction false} CommandsInvRun(cs: seq<Command>, steps: seq<Step>)
    requires CommandsInv(cs)
    ensures CommandsInv(Exec(cs, steps))
    decreases |steps|
  {
    if steps != [] {
      assert CommandsInv(Apply(cs, steps[0]));
      CommandsInvRun(Apply(cs, steps[0]), steps[1..]);
    }
  }

  /** The payload that was accepted no longer equals what is stored. */
  predicate PasswordLost(c: Command, payload: Payload) {
    Final(c.status) && c.kind in SECRET_KINDS && payload.password.Some?
  }

  lemma {:induction false} PayloadKept(cs: seq<Command>, steps: seq<Step>, id: nat, payload: Payload)
    requires id < |cs| && CommandsInv(cs) && cs[id].payload == payload
    ensures id < |Exec(cs, steps)|
    ensures var c := Exec(cs, steps)[id];
            c.payload == if Final(c.status) && c.kind in SECRET_KINDS then payload.(password := None) else payload
    decreases |steps|
  {
    FirstCompletionWins(cs, steps);
    if steps != [] {
      var ds := Apply(cs, steps[0]);
      CommandsInvRun(cs, [steps[0]]);
      assert [steps[0]][1..] == [] && Exec(cs, [steps[0]]) == Exec(ds, []) == ds;
      if ds[id].payload == payload {
        PayloadKept(ds, steps[1..], id, payload);
      } else {
        assert Final(ds[id].status) && ds[id].payload == payload.(password := None);
        FirstCompletionWins(ds, steps[1..]);
      }
    }
  }

  /**
   * When repeating a request is idempotent: after it was accepted as command `id` and any run of
   * other steps, the same request is accepted as `id` again if and only if the command has not
   * meanwhile completed with a password to strip; otherwise it is refused as a conflict.
   */
  lemma ReplayIsIdempotentIff(
      cs: seq<Command>, node: NodeId, key: string, kind: string, payload: Payload, steps: seq<Step>)
    requires CommandsInv(cs) && CreateTx(cs, node, key, kind, payload).1.Accepted?
    ensures var (ds, first) := CreateTx(cs, node, key, kind, payload);
            var es := Exec(ds, steps);
            && first.id < |es|
            && CreateTx(es, node, key, kind, payload)
                 == (es, if PasswordLost(es[first.id], payload) then Conflict else Accepted(first.id))
  {
    var (ds, first) := CreateTx(cs, node, key, kind, payload);
    assert CommandsInv(ds);
    PayloadKept(ds, steps, first.id, payload);
    FirstCompletionWins(ds, steps);
    CommandsInvRun(ds, steps);
    var es := Exec(ds, steps);
    assert es[first.id].key == key;
    assert KeyTaken(es, key) && Find(es, key) == first.id;
  }

  // ---------------------------------------------------------------- pending commands

  function PendingFrom(cs: seq<Command>, node: NodeId, i: nat): (ids: seq<nat>)
    requires i <= |cs|
    ensures forall k :: k in ids <==> i <= k < |cs| && cs[k].node == node && !Final(cs[k].status)
    ensures forall a, b :: 0 <= a < b < |ids| ==> ids[a] < ids[b]
    decreases |cs| - i
  {
    if i == |cs| then [] else
      var rest := PendingFrom(cs, node, i + 1);
      assert forall k :: 0 <= k < |rest| ==> rest[k] in rest;
      if cs[i].node == node && !Final(cs[i].status) then [i] + rest else rest
  }

  lemma PendingEnd(cs: seq<Command>, node: NodeId)
    ensures PendingFrom(cs, node, |cs|) == []
  {
  }

  lemma PendingStep(cs: seq<Command>, node: NodeId, i: nat, before: seq<nat>)
    requires i < |cs|
    ensures before + PendingFrom(cs, node, i)
      == (if cs[i].node == node && !Final(cs[i].status) then before + [i] else before) + PendingFrom(cs, node, i + 1)
  {
    var rest := PendingFrom(cs, node, i + 1);
    assert before + ([i] + rest) == (before + [i]) + rest;
  }

  // ---------------------------------------------------------------- message claims

  datatype Claim = Claim(node: NodeId, at: Time)

  const CLAIM_WINDOW: Time := 5 * MINUTE

  function ClaimTx(messages: map<string, Claim>, node: NodeId, id: string, now: Time): (map<string, Claim>, bool) {
    if id !in messages || messages[id].at < now - CLAIM_WINDOW
    then (messages[id := Claim(node, now)], true)
    else (messages, false)
  }

  function ReleaseTx(messages: map<string, Claim>, node: NodeId, id: string): map<string, Claim> {
    if id in messages && messages[id].node == node then messages - {id} else messages
  }

  datatype MessageStep = Claiming(node: NodeId, id: string, now: Time) | Releasing(node: NodeId, id: string)

  function MessageApply(messages: map<string, Claim>, step: MessageStep): map<string, Claim> {
    match step
    case Claiming(node, id, now) => ClaimTx(messages, node, id, now).0
    case Releasing(node, id) => ReleaseTx(messages, node, id)
  }

  function MessageExec(messages: map<string, Claim>, steps: seq<MessageStep>): map<string, Claim>
    decreases |steps|
  {
    if steps == [] then messages else MessageExec(MessageApply(messages, steps[0]), steps[1..])
  }

  /** No step of the run can free or take over the claim: no release by its node, no claim after the window. */
  predicate Undisturbed(steps: seq<MessageStep>, claim: Claim, id: string) {
    forall i :: 0 <= i < |steps| && steps[i].id == id ==>
      match steps[i]
      case Claiming(_, _, now) => now <= claim.at + CLAIM_WINDOW
      case Releasing(node, _) => node != claim.node
  }

  /** A handled message stays claimed for five minutes: every redelivery in that window is refused. */
  lemma {:induction false} DuplicatesAreRefused(
      messages: map<string, Claim>, claim: Claim, id: string, steps: seq<MessageStep>, node: NodeId, now: Time)
    requires id in messages && messages[id] == claim && Undisturbed(steps, claim, id)
    ensures id in MessageExec(messages, steps) && MessageExec(messages, steps)[id] == claim
    ensures ClaimTx(MessageExec(messages, steps), node, id, now).1 <==> now > claim.at + CLAIM_WINDOW
    decreases |steps|
  {
    if steps != [] {
      assert forall i :: 0 <= i < |steps[1..]| ==> steps[1..][i] == steps[i + 1];
      DuplicatesAreRefused(MessageApply(messages, steps[0]), claim, id, steps[1..], node, now);
    }
  }
}
