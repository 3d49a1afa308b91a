/**
 * The tool registry: the names the loop can resolve (Python resolves them
 * with `globals().get`) and the functions behind them. A tool takes the
 * keyword arguments of one call and returns a JSON-serialisable result, or
 * raises. Every invocation is an external side effect (a push notification,
 * a recorded lead), so the registry keeps a log of the invocations made.
 */
module Tools {
  import opened Wrappers
  import opened Json

  /** Keyword arguments, as the members of a decoded JSON object. */
  type Args = seq<Member>

  /** A tool: `None` when it raises. */
  type ToolFn = Args -> Option<Value>

  datatype Invocation = Invocation(name: string, args: Args)

  class Registry {
    const tools: map<string, ToolFn>
    /** Every tool invocation so far, oldest first. */
    var invocations: seq<Invocation>

    constructor (tools: map<string, ToolFn>)
      ensures this.tools == tools && invocations == []
    {
      this.tools := tools;
      invocations := [];
    }

    /** Calls the tool `name` with `args`, once. */
    method Invoke(name: string, args: Args) returns (r: Option<Value>)
      requires name in tools
      modifies this
      ensures r == tools[name](args)
      ensures invocations == old(invocations) + [Invocation(name, args)]
    {
      r := tools[name](args);
      invocations := invocations + [Invocation(name, args)];
    }
  }
}
