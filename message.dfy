/** The messages agents exchange (src/swarm/message.rs). */
module Messages {
  import opened Geometry

  /**
   * The send half of an agent's mailbox. A channel is created per agent, so
   * the handle is identified by the id of the agent that owns the receiving half.
   */
  datatype Sender = Sender(owner: nat)

  /** One observation carried by a gossip wave. */
  datatype Payload = Payload(id: nat, position: Vec3, velocity: Vec3)

  /**
   * `TASK` assigns a goal; `UPDATE` is a gossip wave: the agent that sent it,
   * the ids that have already seen the wave, and the observations gathered so far.
   * Messages are values, so a clone is the message itself.
   */
  datatype Message =
    | Task(target: Vec3)
    | Update(from: nat, receivedList: seq<nat>, payload: seq<Payload>)

  predicate NoDup<T(==)>(s: seq<T>) {
    forall i, j :: 0 <= i < j < |s| ==> s[i] != s[j]
  }

  /** Joining two duplicate-free sequences with no common element gives a duplicate-free sequence. */
  lemma NoDupConcat<T>(a: seq<T>, b: seq<T>)
    requires NoDup(a) && NoDup(b)
    requires forall x :: x in b ==> x !in a
    ensures NoDup(a + b)
  {
    forall i, j | 0 <= i < j < |a + b|
      ensures (a + b)[i] != (a + b)[j]
    {
      if j < |a| {
        assert (a + b)[i] == a[i] && (a + b)[j] == a[j];
      } else if i < |a| {
        assert (a + b)[i] == a[i] && a[i] in a;
        assert (a + b)[j] == b[j - |a|] && b[j - |a|] in b;
      } else {
        assert (a + b)[i] == b[i - |a|] && (a + b)[j] == b[j - |a|];
      }
    }
  }
}
