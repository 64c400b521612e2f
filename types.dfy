/**
 * The shared records of the dashboard: workflow nodes, their connection
 * lists, workflows and chat messages.  Node parameters are reduced to the
 * one entry any component reads (the cron trigger times).
 */
module Types {
  import opened Wrappers

  /** Every node is drawn as a box of this fixed size. */
  const NodeWidth: real := 250.0
  const NodeHeight: real := 60.0

  /** A point of the canvas (a node's `position` pair, a path point). */
  datatype Point = Point(x: real, y: real)

  /** An axis-aligned rectangle with its top-left corner at (x, y). */
  datatype Rect = Rect(x: real, y: real, w: real, h: real)
  {
    predicate ContainsRect(r: Rect) {
      x <= r.x && r.x + r.w <= x + w && y <= r.y && r.y + r.h <= y + h
    }

    /** The middle of the right edge, and of the left edge. */
    function RightMiddle(): Point { Point(x + w, y + h / 2.0) }
    function LeftMiddle(): Point { Point(x, y + h / 2.0) }
  }

  /** One entry of a cron node's `triggerTimes`. */
  datatype TriggerTime = TriggerTime(hour: int, minute: int)

  /** What is read of `parameters`: the cron trigger times (empty when absent). */
  datatype NodeParameters = NodeParameters(triggerTimes: seq<TriggerTime>)

  datatype Node = Node(id: string, name: string, nodeType: string, position: Point,
                       parameters: NodeParameters)

  /** The box a node occupies on the canvas. */
  function NodeBox(n: Node): (r: Rect)
    ensures r.x == n.position.x && r.y == n.position.y
    ensures r.w == NodeWidth && r.h == NodeHeight
  {
    Rect(n.position.x, n.position.y, NodeWidth, NodeHeight)
  }

  /** A reference to the target of an edge, by node name. */
  datatype ConnectionNode = ConnectionNode(node: string, kind: string, index: int)

  /** The outgoing lists of one source node: `main` always, `tool` optionally. */
  datatype Outlets = Outlets(main: seq<seq<ConnectionNode>>, tool: Option<seq<seq<ConnectionNode>>>)

  /** The `connections` object: source names with their outlets, in key order. */
  type Connections = seq<(string, Outlets)>

  datatype Workflow = Workflow(name: string, id: string, description: Option<string>,
                               nodes: seq<Node>, connections: Connections)

  datatype Sender = User | Agent

  datatype ChatMessage = ChatMessage(id: string, sender: Sender, text: string)
}
