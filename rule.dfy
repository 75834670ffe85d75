/**
 * The `must-tear-down-animations` rule (lib/rules/must-tear-down-animations.js):
 * a visitor that keeps a list of offending nodes and reports each of them
 * when the host finishes walking the program.
 */
module MustTearDownAnimations {
  import opened Animation

  /** The fixed message of every report. */
  const Message := "Must tear down animation on unmount"

  /** The only visitor key the rule returns. */
  const ProgramExit := "Program:exit"

  /** The object passed to `context.report`. */
  datatype Descriptor = Descriptor(node: Node, message: string)

  /** The host's rule context; `report` only appends to the log of reports. */
  class Context {
    ghost var reports: seq<Descriptor>

    constructor ()
      ensures reports == []
    {
      reports := [];
    }

    method Report(descriptor: Descriptor)
      modifies this
      ensures reports == old(reports) + [descriptor]
    {
      reports := reports + [descriptor];
    }
  }

  /** The reports due for `nodes`: one per node, in order, each with the fixed message. */
  function ReportsFor(nodes: seq<Node>): (r: seq<Descriptor>)
    ensures |r| == |nodes|
    ensures forall i :: 0 <= i < |r| ==> r[i].node == nodes[i] && r[i].message == Message
  {
    if nodes == [] then []
    else ReportsFor(nodes[..|nodes| - 1]) + [Descriptor(nodes[|nodes| - 1], Message)]
  }

  /**
   * The visitor built by `create(context)`: the closure's `errorNodes` list
   * and the context it reports to.
   */
  class TeardownRule {
    const context: Context
    var errorNodes: seq<Node>

    /** `create`: nothing has been collected yet. */
    constructor Create(context: Context)
      ensures this.context == context && errorNodes == []
    {
      this.context := context;
      errorNodes := [];
    }

    /** `reportMissingTeardowns`: one `context.report` per node, in list order. */
    method ReportMissingTeardowns(nodes: seq<Node>)
      modifies context
      ensures context.reports == old(context.reports) + ReportsFor(nodes)
    {
      var i := 0;
      while i < |nodes|
        invariant 0 <= i <= |nodes|
        invariant context.reports == old(context.reports) + ReportsFor(nodes[..i])
      {
        assert nodes[..i + 1][..i] == nodes[..i];
        context.Report(Descriptor(nodes[i], Message));
        i := i + 1;
      }
      assert nodes[..i] == nodes;
    }

    /** The host fires `event`; only `Program:exit` has a handler. */
    method HandleEvent(event: string)
      modifies context
      ensures errorNodes == old(errorNodes)
      ensures context.reports == old(context.reports)
                                 + if event == ProgramExit then ReportsFor(errorNodes) else []
    {
      if event == ProgramExit {
        ReportMissingTeardowns(errorNodes);
      }
    }
  }

  /**
   * One traversal: the host creates the rule and fires `events` in order.
   * No handler adds to `errorNodes`, so no event, `Program:exit` included,
   * reports anything.
   */
  method Lint(context: Context, events: seq<string>)
    modifies context
    ensures context.reports == old(context.reports)
  {
    var rule := new TeardownRule.Create(context);
    for i := 0 to |events|
      invariant rule.errorNodes == []
      invariant context.reports == old(context.reports)
    {
      rule.HandleEvent(events[i]);
    }
  }
}
