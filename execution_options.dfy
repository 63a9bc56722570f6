/** ExecutionOptions: the breakpoint watchlist the interpreter consults before each
    instruction. */
module Breakpoints {
  import opened Outcomes

  /** An instruction node; nodes are keys by identity, as ASM's nodes keep Object's
      equality. */
  class InsnNode {
    constructor () {}
  }

  /** The options object; Consumer stands for the callback that receives a
      breakpoint's stack and locals. */
  class ExecutionOptions<Consumer> {
    var watchlist: map<InsnNode, Consumer>

    constructor ()
      ensures watchlist == map[]
      ensures forall n: InsnNode :: !ShouldRecord(n)
    {
      watchlist := map[];
    }

    /** shouldRecord: an instruction is watched exactly when it is a key of the
        watchlist; the emptiness test in front of the lookup changes nothing. */
    function ShouldRecord(target: InsnNode): (b: bool)
      reads this
      ensures b <==> target in watchlist
      ensures watchlist == map[] ==> !b
    {
      watchlist != map[] && target in watchlist
    }

    /** watch: register (or replace) the callback for insn and return the same
        options object for chaining. */
    method Watch(insn: InsnNode, consumer: Consumer) returns (options: ExecutionOptions<Consumer>)
      modifies this
      ensures options == this
      ensures watchlist == old(watchlist)[insn := consumer]
      ensures ShouldRecord(insn)
      ensures forall n :: n != insn ==> (ShouldRecord(n) <==> n in old(watchlist))
    {
      watchlist := watchlist[insn := consumer];
      options := this;
    }

    /** notify: the callback registered for node, which receives the breakpoint
        information; a node that is not watched has no callback to call. */
    method Notify(node: InsnNode) returns (delivered: Outcome<Consumer>)
      ensures node in watchlist ==> delivered == Ok(watchlist[node])
      ensures node !in watchlist ==> delivered == Fault(NullDereference)
      ensures delivered.Ok? <==> ShouldRecord(node)
    {
      if node !in watchlist {
        return Fault(NullDereference);
      }
      delivered := Ok(watchlist[node]);
    }
  }

  /** Watching the same instruction twice keeps only the later callback, and
      watching another instruction leaves it in place. */
  method LatestConsumerWins<Consumer>(insn: InsnNode, other: InsnNode, first: Consumer, second: Consumer, third: Consumer)
    returns (delivered: Outcome<Consumer>, unwatched: Outcome<Consumer>)
    requires insn != other
    ensures delivered == Ok(second)
    ensures unwatched == Ok(third)
  {
    var options := new ExecutionOptions<Consumer>();
    var chained := options.Watch(other, third);
    chained := chained.Watch(insn, first);
    chained := chained.Watch(insn, second);
    delivered := chained.Notify(insn);
    unwatched := chained.Notify(other);
  }

  /** A fresh options object records nothing and has no callback for any node. */
  method NothingWatchedFaults<Consumer>(node: InsnNode) returns (recorded: bool, delivered: Outcome<Consumer>)
    ensures !recorded
    ensures delivered == Fault(NullDereference)
  {
    var options := new ExecutionOptions<Consumer>();
    recorded := options.ShouldRecord(node);
    delivered := options.Notify(node);
  }
}
