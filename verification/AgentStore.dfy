/** The agent tables, a gateway connection's loops and the broker's wait loop, updating in place. */
module AgentStore {
  import opened Prelude
  import opened AgentCommands
  import opened AgentGateway

  class Store {
    var commands: seq<Command>
    var messages: map<string, Claim>

    ghost predicate Valid() reads this { CommandsInv(commands) }

    constructor ()
      ensures Valid() && commands == [] && messages == map[]
    {
      commands, messages := [], map[];
    }

    /** Insert by key; an existing row with the key answers only the same request. */
    method CreateCommand(node: NodeId, key: string, kind: string, payload: Payload) returns (reply: Reply)
      requires Valid()
      modifies this`commands
      ensures Valid() && (commands, reply) == CreateTx(old(commands), node, key, kind, payload)
      ensures forall i :: 0 <= i < |old(commands)| && old(commands)[i].key == key ==>
        && commands == old(commands)
        && reply == if old(commands)[i].node == node && old(commands)[i].kind == kind
                       && old(commands)[i].payload == payload
                    then Accepted(i) else Conflict
      ensures (forall i :: 0 <= i < |old(commands)| ==> old(commands)[i].key != key) ==>
        && reply == Accepted(|old(commands)|)
        && commands == old(commands) + [Command(node, key, kind, payload, Queued, "null", "")]
    {
      if KeyTaken(commands, key) {
        var i: nat :| i < |commands| && commands[i].key == key;
        return if Matches(commands[i], node, kind, payload) then Accepted(i) else Conflict;
      }
      reply := Accepted(|commands|);
      commands := commands + [Command(node, key, kind, payload, Queued, "null", "")];
    }

    /** The node's unfinished commands in creation order. */
    method Pending(node: NodeId) returns (ids: seq<nat>)
      ensures ids == PendingFrom(commands, node, 0)
    {
      hide PendingFrom;
      ids := [];
      var i := 0;
      PendingEnd(commands, node);
      assert [] + PendingFrom(commands, node, 0) == PendingFrom(commands, node, 0);
      while i < |commands|
        invariant 0 <= i <= |commands| && ids + PendingFrom(commands, node, i) == PendingFrom(commands, node, 0)
      {
        PendingStep(commands, node, i, ids);
        if commands[i].node == node && !Final(commands[i].status) { ids := ids + [i]; }
        i := i + 1;
      }
    }

    method MarkDispatched(id: nat)
      requires Valid()
      modifies this`commands
      ensures Valid() && commands == Apply(old(commands), Step.MarkDispatched(id))
      ensures id < |old(commands)| ==> commands == old(commands)[id := old(commands)[id].(status :=
        match old(commands)[id].status case Queued => Dispatched case st => st)]
    {
      if id < |commands| && !Final(commands[id].status) {
        commands := commands[id := commands[id].(status := Dispatched)];
      }
    }

    method Complete(id: nat, success: bool, result: string, error: string)
      requires Valid()
      modifies this`commands
      ensures Valid() && commands == Apply(old(commands), Step.Complete(id, success, result, error))
      ensures id < |old(commands)| && old(commands)[id].status in {Queued, Dispatched} ==>
        && |commands| == |old(commands)| && commands[id].status == (if success then Succeeded else Failed)
        && commands[id].result == result && commands[id].error == error
        && commands[id].payload.fields == old(commands)[id].payload.fields
        && (commands[id].payload.password ==
              if old(commands)[id].kind in {"create", "reinstall", "reset_password"} then None
              else old(commands)[id].payload.password)
    {
      if id < |commands| && !Final(commands[id].status) {
        var c := commands[id];
        var payload := c.payload;
        if c.kind in SECRET_KINDS { payload := payload.(password := None); }
        var status := if success then Succeeded else Failed;
        commands := commands[id := c.(status := status, result := result, error := error, payload := payload)];
      }
    }

    method ClaimMessage(node: NodeId, id: string, now: Time) returns (claimed: bool)
      modifies this`messages
      ensures (messages, claimed) == ClaimTx(old(messages), node, id, now)
    {
      claimed := id !in messages || messages[id].at < now - CLAIM_WINDOW;
      if claimed { messages := messages[id := Claim(node, now)]; }
    }

    method ReleaseMessage(node: NodeId, id: string)
      modifies this`messages
      ensures messages == ReleaseTx(old(messages), node, id)
    {
      if id in messages && messages[id].node == node { messages := messages - {id}; }
    }

    /**
     * An agent's command result.  A message claimed within the last five minutes changes nothing;
     * one whose handling fails gives its claim back so that a redelivery is handled.  If that is
     * lost too, which the code ignores, the claim stays and redeliveries wait out the window.
     */
    method HandleResult(node: NodeId, message: string, now: Time, tick: Tick, storeOk: bool, releaseOk: bool)
        returns (handled: Handled)
      requires Valid() && tick.Result?
      modifies this
      ensures Valid()
      ensures handled == Invalid <==> message == ""
      ensures handled == Ignored <==> message != "" && !ClaimTx(old(messages), node, message, now).1
      ensures handled == Processed <==> message != "" && ClaimTx(old(messages), node, message, now).1 && storeOk
      ensures handled == Processed ==>
        && messages == ClaimTx(old(messages), node, message, now).0
        && commands == Apply(old(commands), Step.Complete(tick.id, tick.success, tick.result, tick.error))
      ensures handled != Processed ==> commands == old(commands)
      ensures handled in {Invalid, Ignored} ==> messages == old(messages)
      ensures handled == Retry && releaseOk ==> message !in messages && messages == old(messages) - {message}
      ensures handled == Retry && !releaseOk ==> messages == old(messages)[message := Claim(node, now)]
    {
      if message == "" { return Invalid; }
      var claimed := ClaimMessage(node, message, now);
      if !claimed { return Ignored; }
      if !storeOk {
        if releaseOk { ReleaseMessage(node, message); }
        return Retry;
      }
      Complete(tick.id, tick.success, tick.result, tick.error);
      handled := Processed;
    }

    /**
     * The broker: creates the command, hands it over and polls until it is final or time is up.
     * `meanwhile[i]` is what others do to the table before the i-th poll.  Success is reported only
     * for a command of this key that has succeeded, and stays true.
     */
    method Issue(
        node: NodeId, key: string, kind: string, payload: Payload, online: bool, sendOk: bool,
        meanwhile: seq<seq<Tick>>)
        returns (outcome: Outcome)
      requires Valid()
      modifies this`commands
      ensures Valid() && Grows(old(commands), commands)
      ensures outcome.Done? ==> outcome.id < |commands|
      ensures outcome.Done? ==> commands[outcome.id].status == Succeeded && commands[outcome.id].key == key
      ensures outcome.Done? ==> commands[outcome.id].node == node && commands[outcome.id].kind == kind
      ensures outcome.CommandFailed? ==> outcome.id < |commands| && commands[outcome.id].status == Failed
      ensures outcome == Rejected <==> CreateTx(old(commands), node, key, kind, payload).1 == Conflict
      ensures outcome != Rejected ==> forall i :: 0 <= i < |commands| && commands[i].key == key ==>
        && (commands[i].status == Succeeded ==> outcome == Done(i))
        && (commands[i].status == Failed ==> outcome == CommandFailed(i))
    {
      var reply := CreateCommand(node, key, kind, payload);
      CreateGrows(old(commands), node, key, kind, payload);
      if reply == Conflict { return Rejected; }
      var id := reply.id;
      if commands[id].status == Succeeded { return Done(id); }
      if commands[id].status == Failed { return CommandFailed(id); }
      if !online { return NodeOffline; }
      if commands[id].status == Queued {
        if !sendOk { return NodeOffline; }
        AgentCommands.StepGrows(commands, Step.MarkDispatched(id));
        MarkDispatched(id);
      }
      outcome := Await(id, meanwhile);
    }

    /** Polls an unfinished command, and answers by the status it has at the last poll. */
    method Await(id: nat, meanwhile: seq<seq<Tick>>) returns (outcome: Outcome)
      requires Valid() && id < |commands| && !Final(commands[id].status)
      modifies this`commands
      ensures Valid() && Grows(old(commands), commands)
      ensures outcome == match commands[id].status
                         case Succeeded => Done(id)
                         case Failed => CommandFailed(id)
                         case _ => TimedOut
    {
      GrowsItself(commands);
      var i := 0;
      while i < |meanwhile|
        invariant i <= |meanwhile| && Valid() && Grows(old(commands), commands)
        invariant !Final(commands[id].status)
      {
        Others(meanwhile[i]);
        if commands[id].status == Succeeded { return Done(id); }
        if commands[id].status == Failed { return CommandFailed(id); }
        i := i + 1;
      }
      outcome := TimedOut;
    }

    /** Dispatch marks and completions by others while the broker waits. */
    method Others(ticks: seq<Tick>)
      requires Valid()
      modifies this`commands
      ensures Valid() && Grows(old(commands), commands)
    {
      GrowsItself(commands);
      var i := 0;
      while i < |ticks|
        invariant i <= |ticks| && Valid() && Grows(old(commands), commands)
      {
        match ticks[i] {
          case Dispatch(id) =>
            AgentCommands.StepGrows(commands, Step.MarkDispatched(id));
            MarkDispatched(id);
          case Result(id, success, result, error) =>
            AgentCommands.StepGrows(commands, Step.Complete(id, success, result, error));
            Complete(id, success, result, error);
        }
        i := i + 1;
      }
    }
  }

  datatype Tick = Dispatch(id: nat) | Result(id: nat, success: bool, result: string, error: string)

  /** Whether the stream takes an envelope, and whether the store takes the update after it. */
  datatype Attempt = Attempt(sendOk: bool, storeOk: bool)

  const GOOD := Attempt(true, true)

  predicate AllGood(attempts: seq<Attempt>) { forall a :: a in attempts ==> a == GOOD }

  const LOST := Attempt(false, false)

  datatype Handled = Processed | Ignored | Invalid | Retry

  datatype Outcome = Done(id: nat) | CommandFailed(id: nat) | Rejected | NodeOffline | TimedOut

  lemma CreateGrows(cs: seq<Command>, node: NodeId, key: string, kind: string, payload: Payload)
    ensures var (ds, reply) := CreateTx(cs, node, key, kind, payload);
            && Grows(cs, ds)
            && (reply.Accepted? ==>
                  && reply.id < |ds| && ds[reply.id].key == key
                  && ds[reply.id].node == node && ds[reply.id].kind == kind)
  {
    AgentCommands.StepGrows(cs, Step.Create(node, key, kind, payload));
  }

  lemma GrowsFacts(a: seq<Command>, b: seq<Command>, id: nat)
    requires Grows(a, b) && id < |a|
    ensures id < |b| && Supported(b[id]) == Supported(a[id])
  {
  }

  /** One open stream of a node. */
  class Link {
    const store: Store
    const node: NodeId
    var sent: set<nat>
    var log: seq<Sending>

    ghost predicate Valid()
      reads this, store
    {
      store.Valid() && forall id :: id in sent <==> OnStream(log, id)
    }

    constructor (s: Store, n: NodeId)
      requires s.Valid()
      ensures Valid() && store == s && node == n && sent == {} && log == []
    {
      store, node, sent, log := s, n, {}, [];
    }

    /** sendCommand: after a send that went out, a failing dispatch mark still ends the connection. */
    method SendCommand(id: nat, via: Via, attempt: Attempt) returns (ok: bool)
      requires Valid() && id < |store.commands|
      modifies this, store
      ensures Valid() && Grows(old(store.commands), store.commands)
      ensures ok == (!Supported(old(store.commands[id])) || (attempt.sendOk && attempt.storeOk))
      ensures if attempt.sendOk && Supported(old(store.commands[id]))
              then log == old(log) + [Sending(id, via)] && sent == old(sent) + {id}
              else log == old(log) && sent == old(sent)
      ensures store.commands ==
        if !attempt.storeOk || (Supported(old(store.commands[id])) && !attempt.sendOk) then old(store.commands)
        else Apply(old(store.commands),
                   if Supported(old(store.commands[id])) then Step.MarkDispatched(id) else Unsupported(id))
    {
      GrowsItself(store.commands);
      AgentCommands.StepGrows(store.commands, Unsupported(id));
      AgentCommands.StepGrows(store.commands, Step.MarkDispatched(id));
      if !Supported(store.commands[id]) {
        if attempt.storeOk { store.Complete(id, false, "null", "unsupported runman command"); }
        return true;
      }
      if !attempt.sendOk { return false; }
      SentMeansLogged(sent, log, id, via);
      sent := sent + {id};
      log := log + [Sending(id, via)];
      if attempt.storeOk { store.MarkDispatched(id); }
      ok := attempt.storeOk;
    }

    /**
     * The replay loop on connect: if every send succeeds, the stream carries the node's supported
     * unfinished commands, each once and in creation order, and nothing else.
     */
    method Replay(attempts: seq<Attempt>) returns (ok: bool)
      requires Valid() && log == []
      modifies this, store
      ensures Valid() && Grows(old(store.commands), store.commands)
      ensures ok ==> Ids(log) == SupportedOnly(old(store.commands), PendingFrom(old(store.commands), node, 0))
      ensures |attempts| >= |PendingFrom(old(store.commands), node, 0)| && AllGood(attempts) ==> ok
    {
      hide Grows, CommandsInv, OnStream, Supported, PendingFrom, Ids, SupportedOnly;
      GrowsItself(store.commands);
      var ids := store.Pending(node);
      ghost var before := store.commands;
      assert forall k :: 0 <= k < |ids| ==> ids[k] in ids;
      var i := 0;
      NothingYet(before);
      while i < |ids|
        invariant 0 <= i <= |ids| && Valid() && Grows(before, store.commands)
        invariant Ids(log) == SupportedOnly(before, ids[..i])
      {
        ghost var now, was := store.commands, log;
        GrowsFacts(before, now, ids[i]);
        assert i < |attempts| ==> attempts[i] in attempts;
        var sentOk := SendCommand(ids[i], Auto, if i < |attempts| then attempts[i] else LOST);
        GrowsTransitive(before, now, store.commands);
        if !sentOk { return false; }
        IdsAppend(was, Sending(ids[i], Auto));
        assert ids[..i + 1] == ids[..i] + [ids[i]];
        SupportedAppend(before, ids[..i], ids[i]);
        i := i + 1;
      }
      assert ids[..i] == ids;
      ok := true;
    }

    /** A dispatch tick: sends what is pending and was not sent on this stream before. */
    method DispatchTick(attempts: seq<Attempt>) returns (ok: bool)
      requires Valid()
      modifies this, store
      ensures Valid() && Grows(old(store.commands), store.commands)
      ensures old(log) <= log && old(sent) <= sent
      ensures forall j :: |old(log)| <= j < |log| ==> log[j].via == Auto && log[j].id !in old(sent)
      ensures forall j, k :: |old(log)| <= j < k < |log| ==> log[j].id != log[k].id
      ensures ok ==> forall id ::
        id in PendingFrom(old(store.commands), node, 0) && Supported(old(store.commands)[id]) ==> id in sent
    {
      hide Grows, CommandsInv, OnStream, Supported, PendingFrom, Ticked;
      GrowsItself(store.commands);
      var ids := store.Pending(node);
      ghost var before, was, had := store.commands, log, sent;
      TickStarts(before, ids, log, sent);
      var i := 0;
      while i < |ids|
        invariant i <= |ids| && Valid() && Grows(before, store.commands)
        invariant Ticked(before, ids[..i], was, had, log, sent)
      {
        assert ids[i] in ids && ids[i] !in ids[..i];
        assert ids[..i + 1] == ids[..i] + [ids[i]];
        ghost var now, log0, sent0 := store.commands, log, sent;
        if ids[i] in sent {
          TickSkips(before, ids[..i], was, had, log, sent, ids[i]);
        } else {
          GrowsFacts(before, now, ids[i]);
          ok := SendCommand(ids[i], Auto, if i < |attempts| then attempts[i] else LOST);
          GrowsTransitive(before, now, store.commands);
          TickSends(before, ids[..i], was, had, log0, sent0, ids[i]);
          if !ok {
            TickEnds(before, ids[..i], was, had, log0, sent0);
            TickEnds(before, ids[..i] + [ids[i]], was, had, log0 + [Sending(ids[i], Auto)], sent0 + {ids[i]});
            return;
          }
        }
        i := i + 1;
      }
      assert ids[..i] == ids;
      TickEnds(before, ids, was, had, log, sent);
      ok := true;
    }
  }

  /**
   * How far a tick has come: it only added first sends of ids it looked at, each once, and every
   * supported id it looked at is sent.
   */
  ghost predicate Ticked(
      cs: seq<Command>, seen: seq<nat>, was: seq<Sending>, had: set<nat>, log: seq<Sending>, sent: set<nat>)
  {
    && was <= log && had <= sent
    && (forall j :: |was| <= j < |log| ==> log[j].via == Auto && log[j].id !in had && log[j].id in seen)
    && (forall j, k :: |was| <= j < k < |log| ==> log[j].id != log[k].id)
    && (forall id :: id in seen && id < |cs| && Supported(cs[id]) ==> id in sent)
  }

  lemma TickStarts(cs: seq<Command>, ids: seq<nat>, log: seq<Sending>, sent: set<nat>)
    ensures Ticked(cs, ids[..0], log, sent, log, sent)
  {
  }

  lemma TickSkips(
      cs: seq<Command>, seen: seq<nat>, was: seq<Sending>, had: set<nat>, log: seq<Sending>, sent: set<nat>, id: nat)
    requires Ticked(cs, seen, was, had, log, sent) && id in sent
    ensures Ticked(cs, seen + [id], was, had, log, sent)
  {
  }

  /** Sending a new id, or finding it unsupported, is progress. */
  lemma TickSends(
      cs: seq<Command>, seen: seq<nat>, was: seq<Sending>, had: set<nat>, log: seq<Sending>, sent: set<nat>, id: nat)
    requires Ticked(cs, seen, was, had, log, sent) && id !in sent && id !in seen && id < |cs|
    ensures Ticked(cs, seen + [id], was, had, log + [Sending(id, Auto)], sent + {id})
    ensures !Supported(cs[id]) ==> Ticked(cs, seen + [id], was, had, log, sent)
  {
  }

  lemma TickEnds(cs: seq<Command>, seen: seq<nat>, was: seq<Sending>, had: set<nat>, log: seq<Sending>, sent: set<nat>)
    requires Ticked(cs, seen, was, had, log, sent)
    ensures was <= log && had <= sent
    ensures forall j :: |was| <= j < |log| ==> log[j].via == Auto && log[j].id !in had
    ensures forall j, k :: |was| <= j < k < |log| ==> log[j].id != log[k].id
    ensures forall id :: id in seen && id < |cs| && Supported(cs[id]) ==> id in sent
  {
  }

  function Ids(log: seq<Sending>): seq<nat> {
    seq(|log|, i requires 0 <= i < |log| => log[i].id)
  }

  lemma IdsAppend(log: seq<Sending>, s: Sending)
    ensures Ids(log + [s]) == Ids(log) + [s.id]
  {
  }

  lemma NothingYet(cs: seq<Command>)
    ensures Ids([]) == SupportedOnly(cs, []) == []
  {
  }

  function SupportedOnly(cs: seq<Command>, ids: seq<nat>): seq<nat> {
    if |ids| == 0 then []
    else (if ids[0] < |cs| && Supported(cs[ids[0]]) then [ids[0]] else []) + SupportedOnly(cs, ids[1..])
  }

  lemma {:induction false} SupportedAppend(cs: seq<Command>, ids: seq<nat>, id: nat)
    ensures SupportedOnly(cs, ids + [id])
      == SupportedOnly(cs, ids) + if id < |cs| && Supported(cs[id]) then [id] else []
  {
    if |ids| == 0 {
      assert ids + [id] == [id];
    } else {
      assert (ids + [id])[1..] == ids[1..] + [id];
      SupportedAppend(cs, ids[1..], id);
    }
  }

  lemma SentMeansLogged(sent: set<nat>, log: seq<Sending>, id: nat, via: Via)
    requires forall x :: x in sent <==> OnStream(log, x)
    ensures forall x :: x in sent + {id} <==> OnStream(log + [Sending(id, via)], x)
  {
    var after := log + [Sending(id, via)];
    forall x ensures x in sent + {id} <==> OnStream(after, x) {
      if x == id { assert after[|log|].id == x; }
      if OnStream(log, x) {
        var i :| 0 <= i < |log| && log[i].id == x;
        assert after[i].id == x;
      }
    }
  }
}
