/**
 * The root cursor of a traversal and the message store it owns. Only what a
 * scanning recipe uses is modelled: a cursor reaches its root, and the root
 * answers get-or-compute requests on its messages.
 */
module Cursors {

  /** The store after a get-or-compute, the value it answered, and whether the supplier ran. */
  datatype Lookup<T> = Lookup(messages: map<string, T>, value: T, computed: bool)

  /**
   * Get-or-compute on a message store, as `java.util.Map.computeIfAbsent` does
   * for a supplier that returns a value: a stored value is answered as it is
   * and the supplier is not run; otherwise the supplier's value for the key is
   * stored under that key and answered. Either way the store afterwards binds
   * the key to the answer and nothing else changes.
   */
  function ComputeIfAbsent<T>(messages: map<string, T>, key: string, supplier: string -> T): (r: Lookup<T>)
    ensures r.messages == messages[key := r.value]
    ensures r.computed <==> key !in messages
    ensures key in messages ==> r.value == messages[key] && r.messages == messages
    ensures key !in messages ==> r.value == supplier(key)
  {
    if key in messages then Lookup(messages, messages[key], false)
    else var v := supplier(key); Lookup(messages[key := v], v, true)
  }

  /** A second get-or-compute of the same key is a hit on the first one's answer. */
  lemma ComputeIfAbsentStable<T>(messages: map<string, T>, key: string, first: string -> T, second: string -> T)
    ensures var r1 := ComputeIfAbsent(messages, key, first);
            ComputeIfAbsent(r1.messages, key, second) == Lookup(r1.messages, r1.value, false)
  {
    var r1 := ComputeIfAbsent(messages, key, first);
    assert key in r1.messages && r1.messages[key] == r1.value;
  }

  /** A get-or-compute leaves every other key as it was, present or absent. */
  lemma OtherMessagesUnchanged<T>(messages: map<string, T>, key: string, supplier: string -> T, other: string)
    requires other != key
    ensures var r := ComputeIfAbsent(messages, key, supplier);
            (other in r.messages <==> other in messages) &&
            (other in messages ==> r.messages[other] == messages[other])
  {
  }

  /** The root cursor of a traversal, owner of the message store. */
  class Root<T> {
    var messages: map<string, T>

    constructor (messages: map<string, T>)
      ensures this.messages == messages
    {
      this.messages := messages;
    }

    /**
     * The root's get-or-compute. Its implementation is not part of this model;
     * this contract is the behaviour assumed of it. `computed` records whether
     * the supplier ran.
     */
    method ComputeMessageIfAbsent(key: string, supplier: string -> T) returns (value: T, ghost computed: bool)
      modifies this
      ensures key in old(messages) ==> value == old(messages)[key] && messages == old(messages) && !computed
      ensures key !in old(messages) ==> value == supplier(key) && messages == old(messages)[key := value] && computed
    {
      var r := ComputeIfAbsent(messages, key, supplier);
      messages, value, computed := r.messages, r.value, r.computed;
    }
  }

  /** A position in a traversal; only the root it leads to is modelled. */
  class Cursor<T> {
    const root: Root<T>

    constructor (root: Root<T>)
      ensures this.root == root
    {
      this.root := root;
    }
  }
}
