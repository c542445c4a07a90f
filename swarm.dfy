/**
 * The swarm (src/swarm.rs): builds its agents one at a time and wires every
 * pair of them into each other's neighbour tables, then drives one update of
 * every agent per frame.
 */
module Swarms {
  import opened Geometry
  import opened Messages
  import opened Agents

  /** The ids `lo .. hi - 1`. */
  function IdRange(lo: nat, hi: nat): set<nat>
    decreases hi
  {
    if hi <= lo then {} else IdRange(lo, hi - 1) + {hi - 1}
  }

  lemma {:induction false} IdRangeMember(lo: nat, hi: nat)
    ensures forall x :: x in IdRange(lo, hi) <==> lo <= x < hi
    decreases hi
  {
    if lo < hi {
      IdRangeMember(lo, hi - 1);
    }
  }

  /** A range of consecutive ids has as many ids as its length. */
  lemma {:induction false} IdRangeSize(lo: nat, hi: nat)
    requires lo <= hi
    ensures |IdRange(lo, hi)| == hi - lo
    decreases hi
  {
    if lo < hi {
      IdRangeSize(lo, hi - 1);
      IdRangeMember(lo, hi - 1);
    }
  }

  /** A table entry as recorded while the swarm is built: every agent is still at rest at the origin. */
  function Wired(peer: nat): Table {
    Table(Sender(peer), Zero, Zero)
  }

  /** The table of an agent that has been wired with the agents `ids`. */
  function WiredTable(ids: set<nat>): map<nat, Table> {
    map x | x in ids :: Wired(x)
  }

  lemma WiredTableAdd(ids: set<nat>, x: nat)
    ensures WiredTable(ids)[x := Wired(x)] == WiredTable(ids + {x})
  {
  }

  /** An agent as `Agent::new` leaves it at the origin: at rest and without goal. */
  ghost predicate AtRest(a: Agent)
    reads a
  {
    a.transform == WithPos(Zero) && a.velocity == Zero && a.target.None?
  }

  /**
   * The agents `ws` have the consecutive ids `start ..`, own mailboxes, are at
   * rest, and each has recorded the agents `start .. hi - 1` other than itself.
   */
  ghost predicate WiredUpTo(ws: seq<AgentWrapper>, start: nat, hi: nat)
    reads set i | 0 <= i < |ws| :: ws[i].pointer
  {
    forall i :: 0 <= i < |ws| ==>
      && ws[i].pointer.id == start + i
      && ws[i].tx == Sender(start + i)
      && AtRest(ws[i].pointer)
      && ws[i].pointer.table == WiredTable(IdRange(start, hi) - {start + i})
  }

  ghost predicate Distinct(ws: seq<AgentWrapper>) {
    forall i, j :: 0 <= i < j < |ws| ==> ws[i].pointer != ws[j].pointer
  }

  /**
   * One round of the `for` loop of `Swarm::new`: the agent already built
   * records the newcomer `w`, then the newcomer records that agent.
   */
  method WirePair(agent: AgentWrapper, w: AgentWrapper)
    requires agent.pointer != w.pointer
    requires AtRest(agent.pointer) && agent.tx == Sender(agent.pointer.id)
    requires AtRest(w.pointer) && w.tx == Sender(w.pointer.id)
    modifies agent.pointer`table, w.pointer`table
    ensures agent.pointer.table == old(agent.pointer.table)[w.pointer.id := Wired(w.pointer.id)]
    ensures w.pointer.table == old(w.pointer.table)[agent.pointer.id := Wired(agent.pointer.id)]
  {
    agent.pointer.UpdateTable(w);
    w.pointer.UpdateTable(agent);
  }

  /**
   * The `for` loop of `Swarm::new`: every agent already built records the
   * newcomer `w`, and the newcomer records each of them.
   */
  method WireNewcomer(ws: seq<AgentWrapper>, w: AgentWrapper, ghost start: nat)
    requires Distinct(ws) && forall i :: 0 <= i < |ws| ==> ws[i].pointer != w.pointer
    requires WiredUpTo(ws, start, start + |ws|)
    requires w.pointer.id == start + |ws| && w.tx == Sender(start + |ws|)
    requires AtRest(w.pointer) && w.pointer.table == map[]
    modifies (set i | 0 <= i < |ws| :: ws[i].pointer)`table, w.pointer`table
    ensures forall i :: 0 <= i < |ws| ==>
      ws[i].pointer.id == start + i && ws[i].tx == Sender(start + i) && AtRest(ws[i].pointer)
    ensures forall i :: 0 <= i < |ws| ==>
      ws[i].pointer.table == WiredTable(IdRange(start, start + |ws| + 1) - {start + i})
    ensures w.pointer.table == WiredTable(IdRange(start, start + |ws|))
  {
    var n := |ws|;
    var k := 0;
    while k < n
      invariant 0 <= k <= n
      invariant w.pointer.table == WiredTable(IdRange(start, start + k))
      invariant forall i :: 0 <= i < n ==> AtRest(ws[i].pointer)
      invariant forall i :: 0 <= i < n ==>
        ws[i].pointer.table == (if i < k then old(ws[i].pointer.table)[start + n := Wired(start + n)]
                                else old(ws[i].pointer.table))
    {
      WirePair(ws[k], w);
      WiredTableAdd(IdRange(start, start + k), start + k);
      forall i | 0 <= i < n && i != k
        ensures ws[i].pointer != ws[k].pointer
      {
      }
      k := k + 1;
    }
    ghost var known := IdRange(start, start + n);
    ghost var grown := IdRange(start, start + n + 1);
    forall i | 0 <= i < n
      ensures ws[i].pointer.id == start + i && ws[i].tx == Sender(start + i) && AtRest(ws[i].pointer)
      ensures ws[i].pointer.table == WiredTable(grown - {start + i})
    {
      WiredTableAdd(known - {start + i}, start + n);
      assert known - {start + i} + {start + n} == grown - {start + i};
    }
  }

  /**
   * The `while` loop of `Swarm::new`: builds agents until there are `size`,
   * wiring each newcomer with all agents built before it.
   */
  method Build(size: nat, counter: IdCounter) returns (ws: seq<AgentWrapper>)
    modifies counter
    ensures |ws| == size && counter.next == old(counter.next) + size
    ensures forall i :: 0 <= i < size ==> fresh(ws[i].pointer)
    ensures Distinct(ws) && WiredUpTo(ws, old(counter.next), old(counter.next) + size)
  {
    ghost var start := counter.next;
    ws := [];
    while |ws| != size
      invariant |ws| <= size
      invariant counter.next == start + |ws|
      invariant forall i :: 0 <= i < |ws| ==> fresh(ws[i].pointer)
      invariant Distinct(ws)
      invariant WiredUpTo(ws, start, start + |ws|)
      decreases size - |ws|
    {
      ws := AddNewcomer(ws, counter, start);
    }
  }

  /**
   * One round of the `while` loop of `Swarm::new`: a new agent at the origin
   * with its own mailbox, wired with every agent built so far, then pushed.
   */
  method AddNewcomer(ws: seq<AgentWrapper>, counter: IdCounter, ghost start: nat)
    returns (ws': seq<AgentWrapper>)
    requires counter.next == start + |ws|
    requires Distinct(ws) && WiredUpTo(ws, start, start + |ws|)
    modifies (set i | 0 <= i < |ws| :: ws[i].pointer)`table, counter
    ensures counter.next == start + |ws'|
    ensures |ws'| == |ws| + 1 && ws'[..|ws|] == ws && fresh(ws'[|ws|].pointer)
    ensures Distinct(ws') && WiredUpTo(ws', start, start + |ws'|)
  {
    var a := new Agent(Zero, counter);
    var w := AgentWrapper(a, Sender(a.id));
    WireNewcomer(ws, w, start);
    ws' := ws + [w];
    WiredUpToExtend(ws, w, ws', start);
    assert ws'[..|ws|] == ws;
  }

  lemma WiredUpToExtend(ws: seq<AgentWrapper>, w: AgentWrapper, ws': seq<AgentWrapper>, start: nat)
    requires forall i :: 0 <= i < |ws| ==>
      ws[i].pointer.id == start + i && ws[i].tx == Sender(start + i) && AtRest(ws[i].pointer)
    requires forall i :: 0 <= i < |ws| ==>
      ws[i].pointer.table == WiredTable(IdRange(start, start + |ws| + 1) - {start + i})
    requires w.pointer.id == start + |ws| && w.tx == Sender(start + |ws|) && AtRest(w.pointer)
    requires w.pointer.table == WiredTable(IdRange(start, start + |ws|))
    requires ws' == ws + [w]
    ensures WiredUpTo(ws', start, start + |ws'|)
  {
    IdRangeMember(start, start + |ws|);
    assert IdRange(start, start + |ws| + 1) - {start + |ws|} == IdRange(start, start + |ws|);
    forall i | 0 <= i < |ws'|
      ensures ws'[i].pointer.id == start + i && ws'[i].tx == Sender(start + i) && AtRest(ws'[i].pointer)
      ensures ws'[i].pointer.table == WiredTable(IdRange(start, start + |ws| + 1) - {start + i})
    {
      if i < |ws| {
        assert ws'[i] == ws[i];
      }
    }
  }

  /**
   * What the wiring invariant says about each pair of agents: an agent never
   * records itself, records every other agent with that agent's own mailbox,
   * position and velocity, and so holds one entry fewer than there are agents.
   */
  lemma WiredFacts(ws: seq<AgentWrapper>, start: nat)
    requires WiredUpTo(ws, start, start + |ws|)
    ensures forall i :: 0 <= i < |ws| ==>
      ws[i].pointer.id !in ws[i].pointer.table && |ws[i].pointer.table| == |ws| - 1
    ensures forall i, j :: 0 <= i < |ws| && 0 <= j < |ws| ==>
      (ws[j].pointer.id in ws[i].pointer.table <==> i != j)
    ensures forall i, j :: 0 <= i < |ws| && 0 <= j < |ws| && i != j ==>
      ws[i].pointer.table[ws[j].pointer.id]
        == Table(ws[j].tx, ws[j].pointer.Position(), ws[j].pointer.velocity)
  {
    IdRangeMember(start, start + |ws|);
    IdRangeSize(start, start + |ws|);
    forall i | 0 <= i < |ws|
      ensures |ws[i].pointer.table| == |ws| - 1
    {
      assert ws[i].pointer.table.Keys == IdRange(start, start + |ws|) - {start + i};
    }
  }

  class Swarm {
    var agents: seq<AgentWrapper>

    /** The wrappers hold different agents. */
    ghost predicate Valid()
      reads this
    {
      Distinct(agents)
    }

    /**
     * `Swarm::new(size)`: `size` fresh agents with consecutive ids from the
     * counter, each at the origin and at rest, each wrapper holding its own
     * agent's mailbox; every agent's table holds exactly the other agents,
     * each with that agent's mailbox, position and velocity.
     */
    constructor (size: nat, counter: IdCounter)
      modifies counter
      ensures Valid() && |agents| == size
      ensures counter.next == old(counter.next) + size
      ensures forall i :: 0 <= i < size ==>
        && fresh(agents[i].pointer)
        && agents[i].pointer.id == old(counter.next) + i
        && agents[i].tx == Sender(agents[i].pointer.id)
        && agents[i].pointer.Position() == Zero && agents[i].pointer.velocity == Zero
        && agents[i].pointer.target.None?
      ensures forall i :: 0 <= i < size ==>
        && agents[i].pointer.id !in agents[i].pointer.table
        && |agents[i].pointer.table| == size - 1
      ensures forall i, j :: 0 <= i < size && 0 <= j < size ==>
        (agents[j].pointer.id in agents[i].pointer.table <==> i != j)
      ensures forall i, j :: 0 <= i < size && 0 <= j < size && i != j ==>
        agents[i].pointer.table[agents[j].pointer.id]
          == Table(agents[j].tx, agents[j].pointer.Position(), agents[j].pointer.velocity)
    {
      ghost var start := counter.next;
      var ws := Build(size, counter);
      WiredFacts(ws, start);
      agents := ws;
    }

    /**
     * `Swarm::update`: every agent takes exactly one update step, in order;
     * the list of agents is not changed, and neither is any agent's scale,
     * rotation or render type.
     */
    method Update(steer: Steering)
      requires Valid()
      modifies set i | 0 <= i < |agents| :: agents[i].pointer
      ensures agents == old(agents)
      ensures forall i :: 0 <= i < |agents| ==>
        agents[i].pointer.State() == Step(old(agents[i].pointer.State()), steer)
      ensures forall i :: 0 <= i < |agents| ==>
        && agents[i].pointer.transform.scale == old(agents[i].pointer.transform.scale)
        && agents[i].pointer.transform.rotation == old(agents[i].pointer.transform.rotation)
        && agents[i].pointer.renderType == old(agents[i].pointer.renderType)
    {
      var k := 0;
      while k < |agents|
        invariant 0 <= k <= |agents|
        invariant forall i :: 0 <= i < k ==>
          agents[i].pointer.State() == Step(old(agents[i].pointer.State()), steer)
        invariant forall i :: k <= i < |agents| ==>
          agents[i].pointer.State() == old(agents[i].pointer.State())
        invariant forall i :: 0 <= i < |agents| ==>
          && agents[i].pointer.transform.scale == old(agents[i].pointer.transform.scale)
          && agents[i].pointer.transform.rotation == old(agents[i].pointer.transform.rotation)
          && agents[i].pointer.renderType == old(agents[i].pointer.renderType)
      {
        agents[k].pointer.Update(steer);
        k := k + 1;
      }
    }
  }
}
