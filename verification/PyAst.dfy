/** The parts of a Python syntax tree that symbol extraction and name resolution look at. */
module PyAst {
  import opened Prelude

  /** node_id_for: the digest is modelled by the tuple it covers, so equal ids mean equal tuples. */
  datatype NodeKey = NodeKey(path: string, kind: Kind, name: string, startLine: nat, endLine: nat)
  datatype NodeId = NodeId(scope: string, key: NodeKey)

  /** A symbol that stands for a whole file exists only in files of other languages. */
  datatype Kind = Class | Function | AsyncFunction | WholeFile

  datatype Alias = Alias(name: string, asname: Option<string>)

  datatype Pos = Pos(line: nat, col: nat, endLine: nat)

  datatype Node =
    | Def(kind: Kind, name: string, line: nat, endLine: nat, params: seq<string>, bases: seq<Node>, body: seq<Node>)
    | Import(aliases: seq<Alias>)
    | ImportFrom(module_: Option<string>, level: nat, aliases: seq<Alias>)
    | Name(id: string, store: bool, at: Pos)
    | Attribute(value: Node, attr: string, at: Pos)
    | Call(func: Node, args: seq<Node>, at: Pos)
    | Scoping(names: seq<string>)  // global and nonlocal statements
    | Other(children: seq<Node>, at: Pos)

  /** ast.iter_child_nodes, for the nodes the visitors descend into generically. */
  function Children(n: Node): (r: seq<Node>)
    ensures forall i :: 0 <= i < |r| ==> r[i] < n
  {
    match n
    case Def(_, _, _, _, _, bases, body) => bases + body
    case Attribute(value, _, _) => [value]
    case Call(func, args, _) => [func] + args
    case Other(children, _) => children
    case _ => []
  }

  /** Where an expression stands. */
  function Site(n: Node): Pos {
    match n
    case Def(_, _, line, endLine, _, _, _) => Pos(line, 0, endLine)
    case Name(_, _, at) => at
    case Attribute(_, _, at) => at
    case Call(_, _, at) => at
    case Other(_, at) => at
    case _ => Pos(0, 0, 0)
  }
}
