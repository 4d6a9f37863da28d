/**
  Conservative lexical and import resolution of call and inheritance sites. A
  target is named only when one binding of the name is visible.
*/
module Relations {
  import opened Prelude
  import opened PyAst

  datatype Symbol = Symbol(id: NodeId, name: string, endLine: nat)

  /** A parsed file: module body and emitted symbols. */
  datatype File = File(path: string, errors: bool, body: seq<Node>, symbols: seq<Symbol>)

  /* ---------- binding tables ---------- */

  datatype Binding = Defines(def: Node) | Imports(statement: Node, alias: Alias) | Opaque

  /** A table lists (name, binding) pairs in source order. */
  type Table = seq<(string, Binding)>

  function FirstPart(name: string): string {
    if name == "" || name[0] == '.' then "" else [name[0]] + FirstPart(name[1..])
  }

  function AliasBindings(statement: Node, aliases: seq<Alias>): Table {
    if aliases == [] then []
    else
      var a := aliases[0];
      [(if a.asname.Some? then a.asname.value else FirstPart(a.name), Imports(statement, a))]
      + AliasBindings(statement, aliases[1..])
  }

  function OpaqueNames(names: seq<string>): Table {
    if names == [] then [] else [(names[0], Opaque)] + OpaqueNames(names[1..])
  }

  /** bindings(body): definitions are not entered, everything else is. */
  function Bindings(body: seq<Node>): Table
    decreases body, 0
  {
    if body == [] then [] else NodeBindings(body[0]) + Bindings(body[1..])
  }

  function NodeBindings(n: Node): Table
    decreases n, 1
  {
    match n
    case Def(_, name, _, _, _, _, _) => [(name, Defines(n))]
    case Import(aliases) => AliasBindings(n, aliases)
    case ImportFrom(_, _, aliases) => AliasBindings(n, aliases)
    case Name(id, store, _) => if store then [(id, Opaque)] else []
    case Scoping(names) => OpaqueNames(names)
    case Attribute(value, _, _) => NodeBindings(value)
    case Call(func, args, _) => NodeBindings(func) + Bindings(args)
    case Other(children, _) => Bindings(children)
  }

  /** table.get(name, []) */
  function Values(table: Table, name: string): seq<Binding> {
    if table == [] then []
    else (if table[0].0 == name then [table[0].1] else []) + Values(table[1..], name)
  }

  /** The local table of a function: its body's bindings and its parameters. */
  function LocalTable(def: Node): Table
    requires def.Def?
  {
    Bindings(def.body) + OpaqueNames(def.params)
  }

  /* ---------- modules ---------- */

  function RemoveSuffix(s: string, suffix: string): string {
    if |suffix| <= |s| && s[|s| - |suffix|..] == suffix then s[..|s| - |suffix|] else s
  }

  function Dotted(s: string): string {
    if s == "" then "" else [if s[0] == '/' then '.' else s[0]] + Dotted(s[1..])
  }

  function ModuleName(path: string): string {
    RemoveSuffix(Dotted(RemoveSuffix(path, ".py")), ".__init__")
  }

  function Split(s: string): (r: seq<string>)
    ensures r != []
  {
    if s == "" then [""]
    else
      var rest := Split(s[1..]);
      if s[0] == '.' then [""] + rest else [[s[0]] + rest[0]] + rest[1..]
  }

  function Join(parts: seq<string>): string {
    if parts == [] then "" else if |parts| == 1 then parts[0] else parts[0] + "." + Join(parts[1..])
  }

  /** Python's parts[:n], negative n included. */
  function Slice(parts: seq<string>, n: int): seq<string> {
    if n < 0 then (if |parts| + n <= 0 then [] else parts[..|parts| + n])
    else if n <= |parts| then parts[..n] else parts
  }

  predicate EndsWith(s: string, suffix: string) {
    |suffix| <= |s| && s[|s| - |suffix|..] == suffix
  }

  /** The absolute module a from-import names. */
  function ImportedModule(path: string, statement: Node): string
    requires statement.ImportFrom?
  {
    var module_ := if statement.module_.Some? then statement.module_.value else "";
    if statement.level == 0 then module_
    else
      var parts := Split(ModuleName(path));
      var package := if EndsWith(path, "/__init__.py") then parts else parts[..|parts| - 1];
      Join(Slice(package, |package| - statement.level + 1) + if module_ == "" then [] else [module_])
  }

  /** Files without errors whose module name is `name`. */
  function ModuleFiles(files: seq<File>, name: string): seq<File> {
    if files == [] then []
    else (if !files[0].errors && ModuleName(files[0].path) == name then [files[0]] else []) + ModuleFiles(files[1..], name)
  }

  function Named(symbols: seq<Symbol>, name: string): seq<Symbol> {
    if symbols == [] then []
    else (if symbols[0].name == name then [symbols[0]] else []) + Named(symbols[1..], name)
  }

  /** external: one module of that name, one symbol of that name, one binding of that name. */
  function External(files: seq<File>, name: string, member: string): Option<Symbol> {
    var candidates := ModuleFiles(files, name);
    if |candidates| != 1 then None
    else
      var found := Named(candidates[0].symbols, member);
      if |found| == 1 && |Values(Bindings(candidates[0].body), member)| == 1 then Some(found[0]) else None
  }

  /** local_symbols.get((qualified, end_lineno)): the last symbol with that key. */
  function Local(symbols: seq<Symbol>, name: string, endLine: nat): Option<Symbol> {
    if symbols == [] then None
    else
      var last := symbols[|symbols| - 1];
      if last.name == name && last.endLine == endLine then Some(last)
      else Local(symbols[..|symbols| - 1], name, endLine)
  }

  function Qualified(prefix: string, name: string): string {
    if prefix == "" then name else if name == "" then prefix else prefix + "." + name
  }

  /* ---------- resolution ---------- */

  datatype Basis = ExplicitImportAlias | ModuleAttribute | LexicalBinding | Ambiguous | Shadowed | Dynamic

  datatype Scope = Scope(table: Table, prefix: string)

  function Base(expr: Node): Option<string> {
    if expr.Name? then Some(expr.id)
    else if expr.Attribute? && expr.value.Name? then Some(expr.value.id)
    else None
  }

  /** What the one visible binding of the base name resolves to. */
  function Settle(files: seq<File>, file: File, expr: Node, name: string, value: Binding, prefix: string): (Option<Symbol>, Basis) {
    match value
    case Imports(statement, alias) =>
      if statement.ImportFrom? && expr.Name? && alias.name != "*" then
        (External(files, ImportedModule(file.path, statement), alias.name), ExplicitImportAlias)
      else if statement.Import? && expr.Attribute? then (External(files, alias.name, expr.attr), ModuleAttribute)
      else (None, Shadowed)
    case Defines(def) =>
      if expr.Name? && def.Def? then (Local(file.symbols, Qualified(prefix, name), def.endLine), LexicalBinding)
      else (None, Shadowed)
    case Opaque => (None, Shadowed)
  }

  /** resolve: innermost scope first; the first one that binds the name decides. */
  function Resolve(files: seq<File>, file: File, expr: Node, scopes: seq<Scope>): (Option<Symbol>, Basis) {
    if Base(expr).None? || scopes == [] then (None, Dynamic)
    else
      var scope := scopes[|scopes| - 1];
      var values := Values(scope.table, Base(expr).value);
      if values == [] then Resolve(files, file, expr, scopes[..|scopes| - 1])
      else if |values| != 1 then (None, Ambiguous)
      else Settle(files, file, expr, Base(expr).value, values[0], scope.prefix)
  }

  /** Scope k decides a name: it binds it and no scope further in does. */
  ghost predicate Decides(scopes: seq<Scope>, k: nat, name: string) {
    && k < |scopes|
    && Values(scopes[k].table, name) != []
    && forall j :: k < j < |scopes| ==> Values(scopes[j].table, name) == []
  }

  /** Resolution depends on the innermost binding scope alone, and only when that binding is the only one there. */
  lemma {:induction false} InnermostDecides(files: seq<File>, file: File, expr: Node, scopes: seq<Scope>, k: nat)
    requires Base(expr).Some? && Decides(scopes, k, Base(expr).value)
    ensures var values := Values(scopes[k].table, Base(expr).value);
      Resolve(files, file, expr, scopes) ==
        if |values| == 1 then Settle(files, file, expr, Base(expr).value, values[0], scopes[k].prefix) else (None, Ambiguous)
    decreases |scopes|
  {
    var n := |scopes| - 1;
    if k < n {
      assert scopes[..n][k] == scopes[k];
      forall j | k < j < n ensures Values(scopes[..n][j].table, Base(expr).value) == [] {
        assert scopes[..n][j] == scopes[j];
      }
      InnermostDecides(files, file, expr, scopes[..n], k);
    }
  }

  lemma {:induction false} SomeScopeDecides(scopes: seq<Scope>, name: string) returns (k: Option<nat>)
    ensures k.Some? ==> Decides(scopes, k.value, name)
    ensures k.None? ==> forall j :: 0 <= j < |scopes| ==> Values(scopes[j].table, name) == []
  {
    var n := |scopes|;
    while n > 0
      invariant 0 <= n <= |scopes|
      invariant forall j :: n <= j < |scopes| ==> Values(scopes[j].table, name) == []
    {
      n := n - 1;
      if Values(scopes[n].table, name) != [] {
        return Some(n);
      }
    }
    k := None;
  }

  lemma {:induction false} UnboundIsDynamic(files: seq<File>, file: File, expr: Node, scopes: seq<Scope>)
    requires Base(expr).None? || forall j :: 0 <= j < |scopes| ==> Values(scopes[j].table, Base(expr).value) == []
    ensures Resolve(files, file, expr, scopes) == (None, Dynamic)
    decreases |scopes|
  {
    if scopes != [] && Base(expr).Some? {
      var n := |scopes| - 1;
      forall j | 0 <= j < n ensures Values(scopes[..n][j].table, Base(expr).value) == [] {
        assert scopes[..n][j] == scopes[j];
      }
      UnboundIsDynamic(files, file, expr, scopes[..n]);
    }
  }

  predicate Matches(s: Symbol, name: string, endLine: nat) { s.name == name && s.endLine == endLine }

  /** The last symbol of a name and end line, or none where there is no such symbol. */
  ghost predicate LastMatch(symbols: seq<Symbol>, name: string, endLine: nat, target: Option<Symbol>) {
    match target
    case None => forall j :: 0 <= j < |symbols| ==> !Matches(symbols[j], name, endLine)
    case Some(t) =>
      exists i :: 0 <= i < |symbols| && symbols[i] == t && Matches(t, name, endLine)
        && forall j :: i < j < |symbols| ==> !Matches(symbols[j], name, endLine)
  }

  lemma {:induction false} LocalIsLastMatch(symbols: seq<Symbol>, name: string, endLine: nat, target: Option<Symbol>)
    ensures target == Local(symbols, name, endLine) <==> LastMatch(symbols, name, endLine, target)
  {
    if symbols != [] {
      var n := |symbols| - 1;
      if Matches(symbols[n], name, endLine) {
        assert LastMatch(symbols, name, endLine, Some(symbols[n]));
      } else {
        LocalIsLastMatch(symbols[..n], name, endLine, target);
        if target.Some? && LastMatch(symbols[..n], name, endLine, target) {
          var i :| 0 <= i < n && symbols[..n][i] == target.value && Matches(target.value, name, endLine)
            && forall j :: i < j < n ==> !Matches(symbols[..n][j], name, endLine);
          assert forall j :: i < j < n ==> symbols[..n][j] == symbols[j];
          assert symbols[i] == target.value;
        }
        if target.Some? && LastMatch(symbols, name, endLine, target) {
          var i :| 0 <= i <= n && symbols[i] == target.value && Matches(target.value, name, endLine)
            && forall j :: i < j <= n ==> !Matches(symbols[j], name, endLine);
          assert symbols[..n][i] == target.value;
        }
      }
    }
  }

  /**
    A lexical target is exact: the name is a plain name, some scope decides it
    with one single definition, and the target is the symbol recorded under the
    qualified name and end line of that definition, if one was recorded.
  */
  lemma LexicalTargetIsSoleBinding(files: seq<File>, file: File, expr: Node, scopes: seq<Scope>, target: Option<Symbol>)
    ensures Resolve(files, file, expr, scopes) == (target, LexicalBinding) <==>
      exists k: nat, def: Node ::
        && expr.Name? && Decides(scopes, k, expr.id) && def.Def?
        && Values(scopes[k].table, expr.id) == [Defines(def)]
        && LastMatch(file.symbols, Qualified(scopes[k].prefix, expr.id), def.endLine, target)
  {
    forall name, endLine ensures target == Local(file.symbols, name, endLine) <==> LastMatch(file.symbols, name, endLine, target) {
      LocalIsLastMatch(file.symbols, name, endLine, target);
    }
    if Base(expr).Some? {
      var k := SomeScopeDecides(scopes, Base(expr).value);
      if k.Some? {
        InnermostDecides(files, file, expr, scopes, k.value);
        forall l: nat | Decides(scopes, l, Base(expr).value) ensures l == k.value {
        }
      } else {
        UnboundIsDynamic(files, file, expr, scopes);
      }
    }
  }

  /* ---------- edges ---------- */

  datatype Relation = Calls | Inherits | ImportsSymbol | TestedBy | Contains

  /** `expression` is kept exactly for unresolved sites; `written` is what the edge id digests. */
  datatype Edge = Edge(source: NodeId, relation: Relation, target: Option<NodeId>, expression: Option<Node>,
                       written: Option<Node>, at: Pos, basis: string)

  function BasisText(b: Basis): string {
    match b
    case ExplicitImportAlias => "explicit_import_alias"
    case ModuleAttribute => "module_attribute"
    case LexicalBinding => "lexical_binding"
    case Ambiguous => "ambiguous_binding"
    case Shadowed => "shadowed_or_dynamic"
    case Dynamic => "dynamic_or_unknown"
  }

  function MakeEdge(source: NodeId, relation: Relation, target: Option<NodeId>, expression: Option<Node>, at: Pos, basis: string): Edge {
    Edge(source, relation, target, if target.None? then expression else None, expression, at, basis)
  }

  function PathParts(path: string): (r: seq<string>)
    ensures r != []
  {
    if path == "" then [""]
    else
      var rest := PathParts(path[1..]);
      if path[0] == '/' then [""] + rest else [[path[0]] + rest[0]] + rest[1..]
  }

  predicate TestPath(path: string) {
    var parts := PathParts(path);
    "test_" <= parts[|parts| - 1] || "tests" in parts
  }

  /** emit: the site's own edge, and for resolved calls the import and test mirrors. */
  function Emit(files: seq<File>, file: File, owner: Symbol, relation: Relation, expr: Node, scopes: seq<Scope>, at: Pos): seq<Edge> {
    var (target, basis) := Resolve(files, file, expr, scopes);
    var id := if target.Some? then Some(target.value.id) else None;
    [MakeEdge(owner.id, relation, id, Some(expr), at, BasisText(basis))]
    + (if id.Some? && relation.Calls? && basis.ExplicitImportAlias?
       then [MakeEdge(owner.id, ImportsSymbol, id, None, at, BasisText(basis))] else [])
    + (if id.Some? && relation.Calls? && TestPath(file.path)
       then [MakeEdge(id.value, TestedBy, Some(owner.id), None, at, "static_test_call")] else [])
  }

  /** The module scope, then one scope per enclosing function; class bodies contribute none. */
  ghost predicate SearchedScopes(file: File, scopes: seq<Scope>) {
    && scopes != []
    && scopes[0] == Scope(Bindings(file.body), "")
    && forall k :: 1 <= k < |scopes| ==>
         exists def: Node :: def.Def? && !def.kind.Class? && scopes[k].table == LocalTable(def)
  }

  function EmitBases(files: seq<File>, file: File, owner: Symbol, bases: seq<Node>, scopes: seq<Scope>): seq<Edge> {
    if bases == [] then []
    else Emit(files, file, owner, Inherits, bases[0], scopes, Site(bases[0])) + EmitBases(files, file, owner, bases[1..], scopes)
  }

  function Nested(def: Node, scopes: seq<Scope>, qualified: string): seq<Scope>
    requires def.Def?
  {
    if def.kind.Class? then scopes else scopes + [Scope(LocalTable(def), qualified)]
  }

  function Visit(files: seq<File>, file: File, node: Node, scopes: seq<Scope>, owner: Option<Symbol>, prefix: string): seq<Edge>
    requires SearchedScopes(file, scopes)
    decreases node, 1
  {
    if node.Def? then
      var qualified := Qualified(prefix, node.name);
      match Local(file.symbols, qualified, node.endLine)
      case None => []
      case Some(current) =>
        (if node.kind.Class? then EmitBases(files, file, current, node.bases, scopes) else [])
        + VisitAll(files, file, node.body, Nested(node, scopes, qualified), Some(current), qualified)
    else
      (if node.Call? && owner.Some? then Emit(files, file, owner.value, Calls, node.func, scopes, node.at) else [])
      + VisitChildren(files, file, node, Children(node), scopes, owner, prefix)
  }

  function VisitAll(files: seq<File>, file: File, nodes: seq<Node>, scopes: seq<Scope>, owner: Option<Symbol>, prefix: string): seq<Edge>
    requires SearchedScopes(file, scopes)
    decreases nodes, 0
  {
    if nodes == [] then []
    else Visit(files, file, nodes[0], scopes, owner, prefix) + VisitAll(files, file, nodes[1..], scopes, owner, prefix)
  }

  function VisitChildren(files: seq<File>, file: File, parent: Node, nodes: seq<Node>, scopes: seq<Scope>, owner: Option<Symbol>, prefix: string): seq<Edge>
    requires SearchedScopes(file, scopes) && forall i :: 0 <= i < |nodes| ==> nodes[i] < parent
    decreases parent, 0, |nodes|
  {
    if nodes == [] then []
    else Visit(files, file, nodes[0], scopes, owner, prefix) + VisitChildren(files, file, parent, nodes[1..], scopes, owner, prefix)
  }

  function FileEdges(files: seq<File>, file: File): seq<Edge> {
    if file.errors then [] else VisitAll(files, file, file.body, [Scope(Bindings(file.body), "")], None, "")
  }

  /** RelationResolver.resolve, before the final ordering of the edges. */
  function ResolveAll(files: seq<File>, rest: seq<File>): seq<Edge> {
    if rest == [] then [] else FileEdges(files, rest[0]) + ResolveAll(files, rest[1..])
  }

  /* ---------- what the edges satisfy ---------- */

  ghost predicate Emitted(files: seq<File>, id: NodeId) {
    exists f, s :: f in files && !f.errors && s in f.symbols && s.id == id
  }

  /** Both ends are emitted symbols, and an expression is kept exactly when there is no target. */
  ghost predicate Closed(files: seq<File>, e: Edge) {
    && Emitted(files, e.source)
    && (e.target.Some? ==> Emitted(files, e.target.value))
    && (e.expression.Some? <==> e.target.None?)
  }

  /** A test edge or an import edge is backed by a call edge at the same place between the same symbols. */
  ghost predicate Mirrored(edges: seq<Edge>, e: Edge) {
    && (e.relation.TestedBy? ==> exists c :: c in edges && c.relation.Calls? && c.at == e.at
                                             && Some(c.source) == e.target && c.target == Some(e.source))
    && (e.relation.ImportsSymbol? ==> exists c :: c in edges && c.relation.Calls? && c.at == e.at
                                                  && c.source == e.source && c.target == e.target)
  }

  ghost predicate Good(files: seq<File>, edges: seq<Edge>) {
    forall e :: e in edges ==> Closed(files, e) && Mirrored(edges, e)
  }

  lemma GoodConcat(files: seq<File>, a: seq<Edge>, b: seq<Edge>)
    requires Good(files, a) && Good(files, b)
    ensures Good(files, a + b)
  {
    forall e | e in a + b ensures Closed(files, e) && Mirrored(a + b, e) {
      if e in a {
        assert Mirrored(a, e);
      } else {
        assert Mirrored(b, e);
      }
    }
  }

  lemma {:induction false} LocalIsEmitted(symbols: seq<Symbol>, name: string, endLine: nat)
    ensures Local(symbols, name, endLine).Some? ==>
      var s := Local(symbols, name, endLine).value; s in symbols && s.name == name && s.endLine == endLine
  {
    if symbols != [] {
      LocalIsEmitted(symbols[..|symbols| - 1], name, endLine);
    }
  }

  lemma {:induction false} ModuleFilesAreFiles(files: seq<File>, name: string)
    ensures forall f :: f in ModuleFiles(files, name) ==> f in files && !f.errors
  {
    if files != [] {
      ModuleFilesAreFiles(files[1..], name);
    }
  }

  lemma {:induction false} NamedAreSymbols(symbols: seq<Symbol>, name: string)
    ensures forall s :: s in Named(symbols, name) ==> s in symbols && s.name == name
  {
    if symbols != [] {
      NamedAreSymbols(symbols[1..], name);
    }
  }

  lemma {:induction false} TargetIsEmitted(files: seq<File>, file: File, expr: Node, scopes: seq<Scope>)
    requires file in files && !file.errors
    ensures Resolve(files, file, expr, scopes).0.Some? ==> Emitted(files, Resolve(files, file, expr, scopes).0.value.id)
    decreases |scopes|
  {
    if Base(expr).Some? && scopes != [] {
      var scope := scopes[|scopes| - 1];
      var name := Base(expr).value;
      var values := Values(scope.table, name);
      if values == [] {
        TargetIsEmitted(files, file, expr, scopes[..|scopes| - 1]);
      } else if |values| == 1 {
        SettledIsEmitted(files, file, expr, name, values[0], scope.prefix);
      }
    }
  }

  lemma SettledIsEmitted(files: seq<File>, file: File, expr: Node, name: string, value: Binding, prefix: string)
    requires file in files && !file.errors
    ensures var target := Settle(files, file, expr, name, value, prefix).0;
      target.Some? ==> Emitted(files, target.value.id)
  {
    match value
    case Imports(statement, alias) =>
      if statement.ImportFrom? && expr.Name? && alias.name != "*" {
        ExternalIsEmitted(files, ImportedModule(file.path, statement), alias.name);
      } else if statement.Import? && expr.Attribute? {
        ExternalIsEmitted(files, alias.name, expr.attr);
      }
    case Defines(def) =>
      if expr.Name? && def.Def? {
        LocalIsEmitted(file.symbols, Qualified(prefix, name), def.endLine);
      }
    case Opaque =>
  }

  lemma ExternalIsEmitted(files: seq<File>, name: string, member: string)
    ensures External(files, name, member).Some? ==> Emitted(files, External(files, name, member).value.id)
  {
    var candidates := ModuleFiles(files, name);
    ModuleFilesAreFiles(files, name);
    if |candidates| == 1 {
      NamedAreSymbols(candidates[0].symbols, member);
      assert candidates[0] in candidates;
    }
  }

  lemma EmitIsGood(files: seq<File>, file: File, owner: Symbol, relation: Relation, expr: Node, scopes: seq<Scope>, at: Pos)
    requires file in files && !file.errors && owner in file.symbols && (relation.Calls? || relation.Inherits?)
    ensures Good(files, Emit(files, file, owner, relation, expr, scopes, at))
  {
    TargetIsEmitted(files, file, expr, scopes);
    assert Emitted(files, owner.id);
    var (target, basis) := Resolve(files, file, expr, scopes);
    var id := if target.Some? then Some(target.value.id) else None;
    var site := MakeEdge(owner.id, relation, id, Some(expr), at, BasisText(basis));
    var edges := Emit(files, file, owner, relation, expr, scopes, at);
    assert edges[0] == site && site in edges;
    forall e | e in edges ensures Closed(files, e) && Mirrored(edges, e) {
      assert e == site || e == MakeEdge(owner.id, ImportsSymbol, id, None, at, BasisText(basis))
        || e == MakeEdge(id.value, TestedBy, Some(owner.id), None, at, "static_test_call");
    }
  }

  lemma {:induction false} EmitBasesIsGood(files: seq<File>, file: File, owner: Symbol, bases: seq<Node>, scopes: seq<Scope>)
    requires file in files && !file.errors && owner in file.symbols
    ensures Good(files, EmitBases(files, file, owner, bases, scopes))
  {
    if bases != [] {
      EmitIsGood(files, file, owner, Inherits, bases[0], scopes, Site(bases[0]));
      EmitBasesIsGood(files, file, owner, bases[1..], scopes);
      GoodConcat(files, Emit(files, file, owner, Inherits, bases[0], scopes, Site(bases[0])),
                 EmitBases(files, file, owner, bases[1..], scopes));
    }
  }

  lemma {:induction false} VisitIsGood(files: seq<File>, file: File, node: Node, scopes: seq<Scope>, owner: Option<Symbol>, prefix: string)
    requires SearchedScopes(file, scopes) && file in files && !file.errors
    requires owner.Some? ==> owner.value in file.symbols
    ensures Good(files, Visit(files, file, node, scopes, owner, prefix))
    decreases node, 1
  {
    if node.Def? {
      var qualified := Qualified(prefix, node.name);
      LocalIsEmitted(file.symbols, qualified, node.endLine);
      var current := Local(file.symbols, qualified, node.endLine);
      if current.Some? {
        EmitBasesIsGood(files, file, current.value, node.bases, scopes);
        VisitAllIsGood(files, file, node.body, Nested(node, scopes, qualified), current, qualified);
        GoodConcat(files, if node.kind.Class? then EmitBases(files, file, current.value, node.bases, scopes) else [],
                   VisitAll(files, file, node.body, Nested(node, scopes, qualified), current, qualified));
      }
    } else {
      if node.Call? && owner.Some? {
        EmitIsGood(files, file, owner.value, Calls, node.func, scopes, node.at);
      }
      VisitChildrenIsGood(files, file, node, Children(node), scopes, owner, prefix);
      GoodConcat(files,
                 if node.Call? && owner.Some? then Emit(files, file, owner.value, Calls, node.func, scopes, node.at) else [],
                 VisitChildren(files, file, node, Children(node), scopes, owner, prefix));
    }
  }

  lemma {:induction false} VisitAllIsGood(files: seq<File>, file: File, nodes: seq<Node>, scopes: seq<Scope>, owner: Option<Symbol>, prefix: string)
    requires SearchedScopes(file, scopes) && file in files && !file.errors
    requires owner.Some? ==> owner.value in file.symbols
    ensures Good(files, VisitAll(files, file, nodes, scopes, owner, prefix))
    decreases nodes, 0
  {
    if nodes != [] {
      VisitIsGood(files, file, nodes[0], scopes, owner, prefix);
      VisitAllIsGood(files, file, nodes[1..], scopes, owner, prefix);
      GoodConcat(files, Visit(files, file, nodes[0], scopes, owner, prefix), VisitAll(files, file, nodes[1..], scopes, owner, prefix));
    }
  }

  lemma {:induction false} VisitChildrenIsGood(files: seq<File>, file: File, parent: Node, nodes: seq<Node>, scopes: seq<Scope>,
                                               owner: Option<Symbol>, prefix: string)
    requires SearchedScopes(file, scopes) && file in files && !file.errors && forall i :: 0 <= i < |nodes| ==> nodes[i] < parent
    requires owner.Some? ==> owner.value in file.symbols
    ensures Good(files, VisitChildren(files, file, parent, nodes, scopes, owner, prefix))
    decreases parent, 0, |nodes|
  {
    if nodes != [] {
      VisitIsGood(files, file, nodes[0], scopes, owner, prefix);
      VisitChildrenIsGood(files, file, parent, nodes[1..], scopes, owner, prefix);
      GoodConcat(files, Visit(files, file, nodes[0], scopes, owner, prefix),
                 VisitChildren(files, file, parent, nodes[1..], scopes, owner, prefix));
    }
  }

  /** Every resolved relation joins emitted symbols, and every test or import edge mirrors a call edge. */
  lemma {:induction false} ResolveAllIsGood(files: seq<File>, rest: seq<File>)
    requires forall f :: f in rest ==> f in files
    ensures Good(files, ResolveAll(files, rest))
  {
    if rest != [] {
      var file := rest[0];
      if !file.errors {
        VisitAllIsGood(files, file, file.body, [Scope(Bindings(file.body), "")], None, "");
      }
      ResolveAllIsGood(files, rest[1..]);
      GoodConcat(files, FileEdges(files, file), ResolveAll(files, rest[1..]));
    }
  }
}
