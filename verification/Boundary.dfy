/** What the modelled programs share: optional values, and the line between a
    program and everything outside it. */
module Boundary {

  datatype Option<+T> = None | Some(value: T)

  /** The world outside one run of one program.  `reply` fixes in advance what
      the outside will answer to the first, second, ... question; since nothing
      is known about `reply`, a fact proved of a run holds whatever databases,
      queues, providers, clocks and other programs do in the meantime. */
  class Outside<Q, A> {
    const reply: nat -> A
    var asked: seq<Q>

    constructor (reply: nat -> A)
      ensures this.reply == reply && asked == []
    {
      this.reply := reply;
      asked := [];
    }

    method Ask(q: Q) returns (a: A)
      modifies this
      ensures asked == old(asked) + [q]
      ensures a == reply(|old(asked)|)
    {
      a := reply(|asked|);
      asked := asked + [q];
    }
  }
}
