/** Identifiers shared by the replication protocols. */
module Types {
  type NodeId = nat
  type StepId = nat

  /** A message is an opaque handler; only its identity and its place in the log matter. */
  type Msg = nat

  /** `genUniqueId` pairs the issuing node with a process-wide counter. */
  datatype MsgId = MsgId(node: NodeId, count: nat)

  /** The message set a vote or a commit carries: an ordered set compared by MsgId alone, so at
      most one message per id. */
  type Carry = map<MsgId, Msg>

  datatype Option<+T> = None | Some(value: T)

  /** Inserting into a set ordered by MsgId keeps the message that is already there. */
  function Merge(carries: Carry, added: Carry): (r: Carry)
    ensures r.Keys == carries.Keys + added.Keys
    ensures forall id :: id in carries ==> r[id] == carries[id]
  {
    added + carries
  }

  ghost predicate Submap(a: Carry, b: Carry) {
    forall id :: id in a ==> id in b && b[id] == a[id]
  }
}
