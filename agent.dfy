/**
 * An agent of the swarm (src/swarm/agent.rs): its neighbour table, the table
 * wiring, and the gossip protocol with which agents refresh each other's
 * tables. Sending on a peer's mailbox is modelled by returning the sends, in
 * order, as an outbox.
 */
module Agents {
  import opened Options
  import opened Geometry
  import opened Entities
  import opened Messages

  /**
   * The process-wide id counter (`static mut ID: u32 = 1`), passed explicitly
   * to every agent construction.
   */
  class IdCounter {
    var next: nat

    constructor ()
      ensures next == 1
    {
      next := 1;
    }
  }

  /** What an agent knows about a peer: its mailbox and its last reported motion. */
  datatype Table = Table(sender: Sender, position: Vec3, velocity: Vec3)

  /** One send: the table entry it was taken from, the handle used, the message. */
  datatype Envelope = Envelope(peer: nat, via: Sender, msg: Message)

  /** The table ids an outbox was sent to, in sending order. */
  function Peers(outbox: seq<Envelope>): (ps: seq<nat>)
    ensures |ps| == |outbox|
    ensures forall i :: 0 <= i < |outbox| ==> ps[i] == outbox[i].peer
  {
    if outbox == [] then [] else Peers(outbox[..|outbox| - 1]) + [outbox[|outbox| - 1].peer]
  }

  /** Every send of an outbox is to one of its peers. */
  lemma InPeers(outbox: seq<Envelope>, e: Envelope)
    requires e in outbox
    ensures e.peer in Peers(outbox)
  {
    var k :| 0 <= k < |outbox| && outbox[k] == e;
    assert Peers(outbox)[k] == e.peer;
  }

  /**
   * One payload item applied to a table: an entry that exists gets the
   * observed position and velocity and keeps its mailbox; an unknown id is ignored.
   */
  function RefreshOne(table: map<nat, Table>, p: Payload): map<nat, Table> {
    if p.id in table then
      table[p.id := table[p.id].(position := p.position, velocity := p.velocity)]
    else
      table
  }

  /** The table after applying the payload items in order. */
  function Refresh(table: map<nat, Table>, payload: seq<Payload>): map<nat, Table>
    decreases |payload|
  {
    if payload == [] then table
    else RefreshOne(Refresh(table, payload[..|payload| - 1]), payload[|payload| - 1])
  }

  /** The last observation of `id` in a payload, if there is one. */
  function LastFor(payload: seq<Payload>, id: nat): Option<Payload>
    decreases |payload|
  {
    if payload == [] then None
    else if payload[|payload| - 1].id == id then Some(payload[|payload| - 1])
    else LastFor(payload[..|payload| - 1], id)
  }

  /** Refreshing never adds or removes a peer, and never changes a mailbox. */
  lemma {:induction false} RefreshKeepsKeys(table: map<nat, Table>, payload: seq<Payload>)
    ensures Refresh(table, payload).Keys == table.Keys
    ensures forall id :: id in table ==> Refresh(table, payload)[id].sender == table[id].sender
    decreases |payload|
  {
    if payload != [] {
      RefreshKeepsKeys(table, payload[..|payload| - 1]);
    }
  }

  /**
   * After a refresh, a known peer holds the motion of its last observation in
   * the payload, or its old entry when the payload does not mention it.
   */
  lemma {:induction false} RefreshAt(table: map<nat, Table>, payload: seq<Payload>, id: nat)
    requires id in table
    ensures id in Refresh(table, payload)
    ensures Refresh(table, payload)[id] ==
      match LastFor(payload, id)
      case None => table[id]
      case Some(p) => table[id].(position := p.position, velocity := p.velocity)
    decreases |payload|
  {
    if payload != [] {
      RefreshAt(table, payload[..|payload| - 1], id);
    }
  }

  /**
   * The view of an agent that the steering code reads: its motion, its goal
   * and its neighbour table.
   */
  datatype AgentState = AgentState(
    position: Vec3, velocity: Vec3, acceleration: Vec3,
    target: Option<Vec3>, table: map<nat, Table>)

  /**
   * The f32 part of `Agent::update`: the weighted alignment, cohesion,
   * separation and goal forces added to the acceleration, added to the
   * velocity, and the result clamped to the maximum speed.
   */
  type Steering = AgentState -> Vec3

  /** The state after one `Agent::update`. */
  function Step(s: AgentState, steer: Steering): AgentState {
    var v := steer(s);
    AgentState(Plus(s.position, v), v, Zero, s.target, s.table)
  }

  /** `AgentWrapper`: an agent and the send half of its mailbox. */
  datatype AgentWrapper = AgentWrapper(pointer: Agent, tx: Sender)

  class Agent {
    const id: nat
    var transform: Transform
    var velocity: Vec3
    var acceleration: Vec3
    var target: Option<Vec3>
    var renderType: RenderType
    var table: map<nat, Table>

    /**
     * `Agent::new`: takes the counter's value as id and increments the
     * counter; the agent starts at `pos`, at rest, without goal or peers.
     */
    constructor (pos: Vec3, counter: IdCounter)
      modifies counter
      ensures id == old(counter.next) && counter.next == old(counter.next) + 1
      ensures transform == WithPos(pos)
      ensures velocity == Zero && acceleration == Zero
      ensures target == None && renderType == Dynamic && table == map[]
    {
      id := counter.next;
      transform := WithPos(pos);
      velocity := Zero;
      acceleration := Zero;
      target := None;
      renderType := Dynamic;
      table := map[];
      new;
      counter.next := counter.next + 1;
    }

    /** `transform.get_pos()`. */
    function Position(): Vec3
      reads this
    {
      transform.position
    }

    function State(): AgentState
      reads this
    {
      AgentState(Position(), velocity, acceleration, target, table)
    }

    /**
     * `update_table`: records the peer's mailbox, position and velocity
     * under the peer's id. The peer is locked while `this` is, so it must be
     * another agent (locking the same mutex twice would deadlock).
     */
    method UpdateTable(w: AgentWrapper)
      requires w.pointer != this
      modifies this`table
      ensures table == old(table)[w.pointer.id := Table(w.tx, w.pointer.Position(), w.pointer.velocity)]
      ensures table.Keys == old(table).Keys + {w.pointer.id}
      ensures forall p :: p in old(table) && p != w.pointer.id ==> table[p] == old(table)[p]
    {
      table := table[w.pointer.id := Table(w.tx, w.pointer.Position(), w.pointer.velocity)];
    }

    /** `Agent::update`, with the floating-point steering given as `steer`. */
    method Update(steer: Steering)
      modifies this`transform, this`velocity, this`acceleration
      ensures State() == Step(old(State()), steer)
      ensures transform.scale == old(transform.scale) && transform.rotation == old(transform.rotation)
    {
      velocity := steer(State());
      transform := UpdatePos(transform, velocity);
      acceleration := Zero;
    }

    /**
     * Whether a peer gets a wave with the given `received_list`: it is in the
     * table, has not seen the wave, and its cached position is within the
     * perception radius of this agent.
     */
    predicate ShouldForward(peer: nat, received: seq<nat>)
      reads this
    {
      peer in table && peer !in received && InRange(Position(), table[peer].position)
    }

    /**
     * The fan-out shared by `send_update_message` and `on_received`: collect
     * the `send_list`, extend `received_list` with it, and send the same
     * `UPDATE` to each peer on it through that peer's table entry.
     */
    method Fanout(received: seq<nat>, payload: seq<Payload>) returns (outbox: seq<Envelope>)
      ensures NoDup(Peers(outbox))
      ensures forall p :: p in Peers(outbox) <==> ShouldForward(p, received)
      ensures forall e :: e in outbox ==>
        e.peer in table && e.via == table[e.peer].sender
        && e.msg == Message.Update(id, received + Peers(outbox), payload)
      ensures forall e :: e in outbox ==> e.peer in e.msg.receivedList
      ensures NoDup(received) ==> NoDup(received + Peers(outbox))
    {
      // the send list, in the table's (unspecified) iteration order
      var sendList: seq<nat> := [];
      var rest := table.Keys;
      while rest != {}
        invariant rest <= table.Keys
        invariant NoDup(sendList)
        invariant forall p :: p in sendList <==> p !in rest && ShouldForward(p, received)
        decreases rest
      {
        var peer :| peer in rest;
        if peer !in received && InRange(Position(), table[peer].position) {
          sendList := sendList + [peer];
        }
        rest := rest - {peer};
      }
      var msg := Message.Update(id, received + sendList, payload);
      outbox := [];
      var i := 0;
      while i < |sendList|
        invariant 0 <= i <= |sendList|
        invariant |outbox| == i
        invariant forall k :: 0 <= k < i ==> outbox[k] == Envelope(sendList[k], table[sendList[k]].sender, msg)
      {
        outbox := outbox + [Envelope(sendList[i], table[sendList[i]].sender, msg)];
        i := i + 1;
      }
      assert Peers(outbox) == sendList;
      forall e | e in outbox
        ensures e.peer in e.msg.receivedList
      {
        InPeers(outbox, e);
      }
      if NoDup(received) {
        NoDupConcat(received, sendList);
      }
    }

    /**
     * `send_update_message`, the heartbeat: a wave seeded with this agent's
     * id and its own observation. The agent is not changed, and its own id
     * is never a recipient, so the panic guarding against that cannot fire.
     */
    method SendUpdateMessage() returns (outbox: seq<Envelope>)
      ensures NoDup(Peers(outbox))
      ensures forall p :: p in Peers(outbox) <==> ShouldForward(p, [id])
      ensures forall e :: e in outbox ==>
        e.peer != id && e.peer in table && e.via == table[e.peer].sender
        && e.msg == Message.Update(id, [id] + Peers(outbox), [FromAgent(this)])
      ensures NoDup([id] + Peers(outbox))
    {
      outbox := Fanout([id], [FromAgent(this)]);
      forall e | e in outbox
        ensures e.peer != id
      {
        InPeers(outbox, e);
        assert ShouldForward(e.peer, [id]);
        assert id in [id];
      }
    }

    /**
     * `on_received`. A `TASK` sets the goal. An `UPDATE` from another agent
     * refreshes the known peers from its payload, appends this agent's
     * observation, and relays the wave to the peers that should get it. An
     * `UPDATE` that this agent sent itself is dropped.
     */
    method OnReceived(msg: Message) returns (outbox: seq<Envelope>)
      modifies this`table, this`target
      ensures msg.Task? ==> target == Some(msg.target) && table == old(table) && outbox == []
      ensures msg.Update? && msg.from == id ==>
        target == old(target) && table == old(table) && outbox == []
      ensures msg.Update? && msg.from != id ==>
        target == old(target)
      ensures msg.Update? && msg.from != id ==>
        table == Refresh(old(table), msg.payload)
      ensures msg.Update? && msg.from != id ==> table.Keys == old(table).Keys
      ensures msg.Update? && msg.from != id ==>
        && NoDup(Peers(outbox))
        && (forall p :: p in Peers(outbox) <==> ShouldForward(p, msg.receivedList))
      ensures msg.Update? && msg.from != id ==>
        forall e :: e in outbox ==>
          e.peer in table && e.via == table[e.peer].sender
          && e.msg == Message.Update(id, msg.receivedList + Peers(outbox), msg.payload + [FromAgent(this)])
          && e.peer in e.msg.receivedList
      ensures msg.Update? && msg.from != id && NoDup(msg.receivedList) ==>
        NoDup(msg.receivedList + Peers(outbox))
    {
      match msg
      case Task(t) =>
        target := Some(t);
        outbox := [];
      case Update(from, received, payload) =>
        if from != id {
          var i := 0;
          while i < |payload|
            invariant 0 <= i <= |payload|
            invariant table == Refresh(old(table), payload[..i])
            invariant target == old(target)
          {
            var p := payload[i];
            if p.id in table {
              table := table[p.id := table[p.id].(position := p.position, velocity := p.velocity)];
            }
            assert payload[..i + 1][..i] == payload[..i];
            i := i + 1;
          }
          assert payload[..|payload|] == payload;
          RefreshKeepsKeys(old(table), payload);
          outbox := Fanout(received, payload + [FromAgent(this)]);
        } else {
          outbox := [];
        }
    }
  }

  /** `Payload::from_agent`: the agent's id, position and velocity. */
  function FromAgent(a: Agent): (p: Payload)
    reads a
    ensures p.id == a.id && p.position == a.Position() && p.velocity == a.velocity
  {
    Payload(a.id, a.transform.position, a.velocity)
  }
}
