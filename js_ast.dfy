/**
 * The part of a Babel syntax tree that the JavaScript analyzer inspects, and Babel's
 * traversal order over it. Node kinds keep Babel's names; every other kind of node is an
 * `OtherNode` with its children.
 */
module JsAst {
  import opened Wrappers

  /** How Babel's scope analysis resolves an identifier. */
  datatype Resolution =
    | Unbound     // `scope.getBinding(name)` is undefined
    | BindingId   // the node is the `id` of its own binding's declaring node
    | Reference   // any other occurrence of a bound name

  datatype JsNode =
    | Program(body: seq<JsNode>)
    | ForStatement(init: Option<JsNode>, test: Option<JsNode>, update: Option<JsNode>, loopBody: JsNode, line: nat)
    | ForOfStatement(left: JsNode, iterable: JsNode, loopBody: JsNode, line: nat)
    | WhileStatement(condition: JsNode, loopBody: JsNode, line: nat)
    | DoWhileStatement(loopBody: JsNode, condition: JsNode, line: nat)
    | CallExpression(callee: JsNode, arguments: seq<JsNode>, line: nat)
    | MemberExpression(obj: JsNode, property: JsNode)
    | NewExpression(constructed: JsNode, arguments: seq<JsNode>)
    | ArrayExpression(elements: seq<JsNode>)
    | ObjectExpression(properties: seq<JsNode>)
      /** A function; `blockName` is the `name` property the scope lookup reads from it. */
    | FunctionNode(isDeclaration: bool, blockName: Option<string>, id: Option<JsNode>,
                   params: seq<JsNode>, body: seq<JsNode>, line: nat)
    | BlockStatement(body: seq<JsNode>)
    | ReturnStatement(argument: Option<JsNode>)
    | VariableDeclarator(declared: JsNode, init: Option<JsNode>, line: nat)
    | Identifier(name: string, resolution: Resolution)
    | NumericLiteral
    | BinaryExpression(left: JsNode, right: JsNode)
      /** Any other node kind with a `right` operand (assignment, logical expression, ...). */
    | OtherWithRight(left: JsNode, right: JsNode)
    | OtherNode(children: seq<JsNode>)

  predicate IsLoop(n: JsNode) {
    n.ForStatement? || n.ForOfStatement? || n.WhileStatement? || n.DoWhileStatement?
  }

  function OptionList(o: Option<JsNode>): (r: seq<JsNode>)
    ensures |r| <= 1
    ensures o.Some? ==> r == [o.value]
    ensures o.None? ==> r == []
  {
    if o.Some? then [o.value] else []
  }

  /** The children of a node, in the order Babel's visitor keys give them. */
  function Children(n: JsNode): (cs: seq<JsNode>)
    ensures forall i :: 0 <= i < |cs| ==> cs[i] < n
  {
    match n
    case Program(body) => body
    case ForStatement(init, test, update, body, _) =>
      OptionList(init) + OptionList(test) + OptionList(update) + [body]
    case ForOfStatement(left, right, body, _) => [left, right, body]
    case WhileStatement(test, body, _) => [test, body]
    case DoWhileStatement(body, test, _) => [body, test]
    case CallExpression(callee, args, _) => [callee] + args
    case MemberExpression(o, p) => [o, p]
    case NewExpression(callee, args) => [callee] + args
    case ArrayExpression(elements) => elements
    case ObjectExpression(properties) => properties
    case FunctionNode(_, _, id, params, body, _) => OptionList(id) + params + body
    case BlockStatement(body) => body
    case ReturnStatement(argument) => OptionList(argument)
    case VariableDeclarator(id, init, _) => [id] + OptionList(init)
    case Identifier(_, _) => []
    case NumericLiteral => []
    case BinaryExpression(l, r) => [l, r]
    case OtherWithRight(l, r) => [l, r]
    case OtherNode(children) => children
  }

  /**
   * `path.scope.block` as the analyzer reads it: the `name` property of the block that
   * opens the scope, and the statements of that block's body (`block.body.body`).
   */
  datatype Scope = Scope(name: Option<string>, statements: seq<JsNode>)

  /** The scope of the Program node, whose block has no `name`. */
  const TopScope := Scope(None, [])

  /**
   * The scope in which the children of `n` are visited: the scopable kinds the tree keeps
   * (the program, functions, blocks and the four loops) open one; any other node keeps
   * the enclosing scope.
   */
  function ChildScope(n: JsNode, sc: Scope): (r: Scope)
  {
    match n
    case Program(body) => Scope(None, body)
    case FunctionNode(_, blockName, _, _, body, _) => Scope(blockName, body)
    case BlockStatement(body) => Scope(None, body)
    case ForStatement(_, _, _, _, _) => Scope(None, [])
    case ForOfStatement(_, _, _, _) => Scope(None, [])
    case WhileStatement(_, _, _) => Scope(None, [])
    case DoWhileStatement(_, _, _) => Scope(None, [])
    case _ => sc
  }

  /** The callee is an Identifier whose name is the `name` of the enclosing scope block. */
  predicate IsSelfCall(callee: JsNode, sc: Scope) {
    callee.Identifier? && sc.name == Some(callee.name)
  }

  /** Some top-level statement of the block is `return <call expression>`. */
  predicate HasReturnOfCall(statements: seq<JsNode>) {
    exists i :: 0 <= i < |statements| && ReturnsCall(statements[i])
  }

  predicate ReturnsCall(stmt: JsNode) {
    stmt.ReturnStatement? && stmt.argument.Some? && stmt.argument.value.CallExpression?
  }

  /**
   * `node.name` read from a node that is expected to be an identifier (the callee of a `new`
   * expression, the `id` of a declarator): undefined for any other node.
   */
  function IdentifierName(n: JsNode): (r: Option<string>)
    ensures r.Some? <==> n.Identifier?
  {
    if n.Identifier? then Some(n.name) else None
  }

  /** `callee.property?.name`: defined when the callee is a member access by identifier. */
  function PropertyName(callee: JsNode): (r: Option<string>)
    ensures r.Some? <==> callee.MemberExpression? && callee.property.Identifier?
  {
    if callee.MemberExpression? && callee.property.Identifier? then Some(callee.property.name)
    else None
  }

  /** One step of the traversal: a node and the scope it is visited in. */
  datatype Visit = Visit(node: JsNode, scope: Scope)

  /** Every node of the tree with its scope, in the pre-order Babel visits them. */
  function Visits(n: JsNode, sc: Scope): (vs: seq<Visit>)
    ensures |vs| >= 1 && vs[0] == Visit(n, sc)
    decreases n, 1
  {
    [Visit(n, sc)] + ChildVisits(n, ChildScope(n, sc), |Children(n)|)
  }

  /** The visits of the first `k` children of `n`, each visited in scope `sc`. */
  function ChildVisits(n: JsNode, sc: Scope, k: nat): seq<Visit>
    requires k <= |Children(n)|
    decreases n, 0, k
  {
    if k == 0 then [] else ChildVisits(n, sc, k - 1) + Visits(Children(n)[k - 1], sc)
  }
}
