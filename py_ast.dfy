/**
 * The part of a Python syntax tree that the Python analyzer inspects. Nodes keep the
 * `type` tags the analyzer switches on; every other node is an `Other` holding, in key
 * order, the child nodes its `for (const key in node)` loop reaches.
 */
module PyAst {
  import opened Wrappers

  datatype PyNode =
    | FunctionDef(name: string, params: seq<PyNode>, body: seq<PyNode>)
    | For(target: PyNode, iter: PyNode, body: seq<PyNode>, orelse: seq<PyNode>)
    | While(test: PyNode, body: seq<PyNode>, orelse: seq<PyNode>)
      /** `keywords` holds the `value` of each keyword argument. */
    | Call(func: PyNode, args: seq<PyNode>, keywords: seq<PyNode>)
    | Name(id: string)
    | Attribute(value: PyNode, attr: string)
    | List(elts: seq<PyNode>)
    | Dict(keys: seq<PyNode>, values: seq<PyNode>)
    | Set(elts: seq<PyNode>)
    | Other(children: seq<PyNode>)

  predicate IsLoop(n: PyNode) {
    n.For? || n.While?
  }

  /** `node.name || null`: an empty name is falsy and becomes null. */
  function FunctionName(name: string): (r: Option<string>)
    ensures r.None? <==> name == ""
  {
    if name == "" then None else Some(name)
  }

  /**
   * The current function name under which the children of `n` are walked: a definition
   * sets it to its own name, any other node keeps it.
   */
  function InnerName(name: Option<string>, n: PyNode): (r: Option<string>)
    ensures n.FunctionDef? ==> r == FunctionName(n.name)
    ensures !n.FunctionDef? ==> r == name
  {
    if n.FunctionDef? then FunctionName(n.name) else name
  }

  /** The callee is a `Name` equal to the current function name (never equal to null). */
  predicate IsSelfCall(func: PyNode, currentFunctionName: Option<string>) {
    func.Name? && currentFunctionName == Some(func.id)
  }

  /**
   * The nodes the default case reaches from `n`: every array field and every object field
   * except `loc`, in key order. (Scalar fields such as `id` or `attr` are not nodes, and
   * object fields without nodes below them, such as `ctx`, are left out of the tree.)
   */
  function Fields(n: PyNode): (cs: seq<PyNode>)
    ensures forall i :: 0 <= i < |cs| ==> cs[i] < n
  {
    match n
    case FunctionDef(_, params, body) => params + body
    case For(target, iter, body, orelse) => [target, iter] + body + orelse
    case While(test, body, orelse) => [test] + body + orelse
    case Call(func, args, keywords) => [func] + args + keywords
    case Name(_) => []
    case Attribute(value, _) => [value]
    case List(elts) => elts
    case Dict(keys, values) => keys + values
    case Set(elts) => elts
    case Other(children) => children
  }

  /** The arguments the `Call` case traverses: `args`, then the keyword values. */
  function CallArguments(n: PyNode): (cs: seq<PyNode>)
    requires n.Call?
    ensures forall i :: 0 <= i < |cs| ==> cs[i] < n
  {
    n.args + n.keywords
  }
}
