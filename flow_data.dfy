/** The shape of a flow's node data as both canvas views read it. */
module FlowData {
  import opened Wrappers

  /** One entry of a node's `inputParams`. A missing `hidden` or
      `additionalParams` flag reads as false. */
  datatype InputParam = InputParam(name: string, paramType: string, hidden: bool, additionalParams: bool)

  /** A node of a stored flow graph. `inputParams` is None when `node.data`
      or `node.data.inputParams` is missing, so reading it throws. */
  datatype FlowNode = FlowNode(inputParams: Option<seq<InputParam>>)

  /** A parsed flow graph. `nodes` is None when `flowData.nodes` is missing
      or not iterable, so looping over it throws. */
  datatype FlowGraph = FlowGraph(nodes: Option<seq<FlowNode>>)
}
