/**
  Which symbol an imported name is resolved to, and when an attribute of an
  imported module is looked up in the module the name really denotes.
*/
module ImportTargets {
  import opened Prelude
  import opened PyAst
  import opened Relations

  /* ---------- the only one of a kind ---------- */

  function Kept<T>(xs: seq<T>, keep: T -> bool): seq<T> {
    if xs == [] then [] else (if keep(xs[0]) then [xs[0]] else []) + Kept(xs[1..], keep)
  }

  /** x satisfies `keep`, and no other position does. */
  ghost predicate Sole<T>(xs: seq<T>, keep: T -> bool, x: T) {
    exists i :: 0 <= i < |xs| && xs[i] == x && keep(x) && forall j :: 0 <= j < |xs| && j != i ==> !keep(xs[j])
  }

  lemma {:induction false} KeptNothing<T>(xs: seq<T>, keep: T -> bool)
    ensures Kept(xs, keep) == [] <==> forall j :: 0 <= j < |xs| ==> !keep(xs[j])
  {
    if xs != [] {
      KeptNothing(xs[1..], keep);
      assert forall j :: 1 <= j < |xs| ==> xs[j] == xs[1..][j - 1];
    }
  }

  lemma {:induction false} KeptSole<T>(xs: seq<T>, keep: T -> bool, x: T)
    ensures Kept(xs, keep) == [x] <==> Sole(xs, keep, x)
  {
    if xs != [] {
      var rest := xs[1..];
      assert forall j :: 1 <= j < |xs| ==> xs[j] == rest[j - 1];
      if keep(xs[0]) {
        KeptNothing(rest, keep);
        if Kept(xs, keep) == [x] {
          assert Kept(xs, keep)[0] == xs[0] && Kept(rest, keep) == Kept(xs, keep)[1..];
          assert xs[0] == x;
        }
        if Sole(xs, keep, x) {
          var i :| 0 <= i < |xs| && xs[i] == x && keep(x) && forall j :: 0 <= j < |xs| && j != i ==> !keep(xs[j]);
          assert i == 0;
        }
      } else {
        KeptSole(rest, keep, x);
        SoleOfRest(xs, keep, x);
      }
    }
  }

  lemma SoleOfRest<T>(xs: seq<T>, keep: T -> bool, x: T)
    requires xs != [] && !keep(xs[0])
    ensures Sole(xs, keep, x) <==> Sole(xs[1..], keep, x)
  {
    var rest := xs[1..];
    if Sole(rest, keep, x) {
      var i :| 0 <= i < |rest| && rest[i] == x && keep(x) && forall j :: 0 <= j < |rest| && j != i ==> !keep(rest[j]);
      assert xs[i + 1] == x;
      forall j | 0 <= j < |xs| && j != i + 1 ensures !keep(xs[j]) {
        assert j > 0 ==> xs[j] == rest[j - 1];
      }
    }
    if Sole(xs, keep, x) {
      var i :| 0 <= i < |xs| && xs[i] == x && keep(x) && forall j :: 0 <= j < |xs| && j != i ==> !keep(xs[j]);
      assert rest[i - 1] == x;
      forall j | 0 <= j < |rest| && j != i - 1 ensures !keep(rest[j]) {
        assert rest[j] == xs[j + 1];
      }
    }
  }

  /* ---------- what `external` finds ---------- */

  predicate Offers(f: File, module_: string) { !f.errors && ModuleName(f.path) == module_ }

  /** The one file of the module has one symbol of the name, and binds the name once at its top level. */
  ghost predicate SoleMember(files: seq<File>, module_: string, member: string, target: Symbol) {
    exists f ::
      && Sole(files, (g: File) => Offers(g, module_), f)
      && Sole(f.symbols, (s: Symbol) => s.name == member, target)
      && |Values(Bindings(f.body), member)| == 1
  }

  lemma {:induction false} ModuleFilesAreKept(files: seq<File>, module_: string)
    ensures ModuleFiles(files, module_) == Kept(files, (g: File) => Offers(g, module_))
  {
    if files != [] {
      ModuleFilesAreKept(files[1..], module_);
    }
  }

  lemma {:induction false} NamedAreKept(symbols: seq<Symbol>, name: string)
    ensures Named(symbols, name) == Kept(symbols, (s: Symbol) => s.name == name)
  {
    if symbols != [] {
      NamedAreKept(symbols[1..], name);
    }
  }

  lemma ExternalIff(files: seq<File>, module_: string, member: string, target: Symbol)
    ensures External(files, module_, member) == Some(target) <==> SoleMember(files, module_, member, target)
  {
    var candidates := ModuleFiles(files, module_);
    ModuleFilesAreKept(files, module_);
    if |candidates| == 1 {
      var f := candidates[0];
      assert candidates == [f];
      KeptSole(files, (g: File) => Offers(g, module_), f);
      NamedAreKept(f.symbols, member);
      KeptSole(f.symbols, (s: Symbol) => s.name == member, target);
      assert |Named(f.symbols, member)| == 1 ==> Named(f.symbols, member) == [Named(f.symbols, member)[0]];
    }
    if SoleMember(files, module_, member, target) {
      var f :| && Sole(files, (g: File) => Offers(g, module_), f)
               && Sole(f.symbols, (s: Symbol) => s.name == member, target)
               && |Values(Bindings(f.body), member)| == 1;
      KeptSole(files, (g: File) => Offers(g, module_), f);
      NamedAreKept(f.symbols, member);
      KeptSole(f.symbols, (s: Symbol) => s.name == member, target);
    }
  }

  /* ---------- targets of imported names ---------- */

  /** Scope k decides the name with one single import and nothing else. */
  ghost predicate ImportedBy(scopes: seq<Scope>, k: nat, name: string, statement: Node, alias: Alias) {
    Decides(scopes, k, name) && Values(scopes[k].table, name) == [Imports(statement, alias)]
  }

  lemma ResolvedByImport(files: seq<File>, file: File, expr: Node, scopes: seq<Scope>, k: nat, statement: Node, alias: Alias)
    requires Base(expr).Some? && ImportedBy(scopes, k, Base(expr).value, statement, alias)
    ensures Resolve(files, file, expr, scopes) ==
      if statement.ImportFrom? && expr.Name? && alias.name != "*"
      then (External(files, ImportedModule(file.path, statement), alias.name), ExplicitImportAlias)
      else if statement.Import? && expr.Attribute? then (External(files, alias.name, expr.attr), ModuleAttribute)
      else (None, Shadowed)
  {
    InnermostDecides(files, file, expr, scopes, k);
  }

  /** The basis tells which kind of binding decided. */
  lemma ImportDecides(files: seq<File>, file: File, expr: Node, scopes: seq<Scope>) returns (k: nat, statement: Node, alias: Alias)
    requires Resolve(files, file, expr, scopes).1 in {ExplicitImportAlias, ModuleAttribute}
    ensures Base(expr).Some? && ImportedBy(scopes, k, Base(expr).value, statement, alias)
  {
    if Base(expr).None? {
      UnboundIsDynamic(files, file, expr, scopes);
    } else {
      var found := SomeScopeDecides(scopes, Base(expr).value);
      if found.None? {
        UnboundIsDynamic(files, file, expr, scopes);
      } else {
        k := found.value;
        InnermostDecides(files, file, expr, scopes, k);
        var values := Values(scopes[k].table, Base(expr).value);
        statement, alias := values[0].statement, values[0].alias;
        assert values == [values[0]];
      }
    }
  }

  /**
    A plain name is resolved through a from-import exactly when the deciding scope
    binds it by that import alone; the target is the sole member of that name in
    the sole file of the module.
  */
  lemma FromImportTargetIff(files: seq<File>, file: File, expr: Node, scopes: seq<Scope>, target: Symbol)
    ensures Resolve(files, file, expr, scopes) == (Some(target), ExplicitImportAlias) <==>
      exists k: nat, statement, alias ::
        && expr.Name? && ImportedBy(scopes, k, expr.id, statement, alias) && statement.ImportFrom? && alias.name != "*"
        && SoleMember(files, ImportedModule(file.path, statement), alias.name, target)
  {
    if Resolve(files, file, expr, scopes) == (Some(target), ExplicitImportAlias) {
      var k, statement, alias := ImportDecides(files, file, expr, scopes);
      ResolvedByImport(files, file, expr, scopes, k, statement, alias);
      ExternalIff(files, ImportedModule(file.path, statement), alias.name, target);
    }
    forall k: nat, statement, alias
      | && expr.Name? && ImportedBy(scopes, k, expr.id, statement, alias) && statement.ImportFrom? && alias.name != "*"
        && SoleMember(files, ImportedModule(file.path, statement), alias.name, target)
      ensures Resolve(files, file, expr, scopes) == (Some(target), ExplicitImportAlias)
    {
      ResolvedByImport(files, file, expr, scopes, k, statement, alias);
      ExternalIff(files, ImportedModule(file.path, statement), alias.name, target);
    }
  }

  /** An attribute is resolved through a plain import in the same way, in the module the import statement names. */
  lemma ModuleAttributeTargetIff(files: seq<File>, file: File, expr: Node, scopes: seq<Scope>, target: Symbol)
    ensures Resolve(files, file, expr, scopes) == (Some(target), ModuleAttribute) <==>
      exists k: nat, statement, alias ::
        && expr.Attribute? && expr.value.Name? && ImportedBy(scopes, k, expr.value.id, statement, alias) && statement.Import?
        && SoleMember(files, alias.name, expr.attr, target)
  {
    if Resolve(files, file, expr, scopes) == (Some(target), ModuleAttribute) {
      var k, statement, alias := ImportDecides(files, file, expr, scopes);
      ResolvedByImport(files, file, expr, scopes, k, statement, alias);
      ExternalIff(files, alias.name, expr.attr, target);
    }
    forall k: nat, statement, alias
      | && expr.Attribute? && expr.value.Name? && ImportedBy(scopes, k, expr.value.id, statement, alias) && statement.Import?
        && SoleMember(files, alias.name, expr.attr, target)
      ensures Resolve(files, file, expr, scopes) == (Some(target), ModuleAttribute)
    {
      ResolvedByImport(files, file, expr, scopes, k, statement, alias);
      ExternalIff(files, alias.name, expr.attr, target);
    }
  }

  /* ---------- the module a name denotes ---------- */

  /** `import a.b` binds a to the package a; with `as`, the name stands for a.b. */
  function Denoted(alias: Alias): string {
    if alias.asname.Some? then alias.name else FirstPart(alias.name)
  }

  lemma {:induction false} FirstPartIsAll(name: string)
    ensures FirstPart(name) == name <==> '.' !in name
  {
    if name != "" && name[0] != '.' {
      FirstPartIsAll(name[1..]);
      assert name == [name[0]] + name[1..];
      assert FirstPart(name)[1..] == FirstPart(name[1..]);
    }
  }

  /** Symbols carry the path of their file, as parsing records them. */
  ghost predicate OwnSymbols(files: seq<File>) {
    forall f, s :: f in files && s in f.symbols ==> s.id.key.path == f.path
  }

  lemma MemberOfOneModule(files: seq<File>, m: string, n: string, member: string, target: Symbol)
    requires OwnSymbols(files) && SoleMember(files, m, member, target) && SoleMember(files, n, member, target)
    ensures m == n
  {
    var f :| && Sole(files, (g: File) => Offers(g, m), f)
             && Sole(f.symbols, (s: Symbol) => s.name == member, target)
             && |Values(Bindings(f.body), member)| == 1;
    var h :| && Sole(files, (g: File) => Offers(g, n), h)
             && Sole(h.symbols, (s: Symbol) => s.name == member, target)
             && |Values(Bindings(h.body), member)| == 1;
    assert f in files && h in files && target in f.symbols && target in h.symbols;
    assert f.path == h.path;
  }

  /**
    The target of a module attribute belongs to the module its name denotes exactly
    when the import gives an `as` name or names a module without a dot.
  */
  lemma AttributeOfDenotedModuleIff(files: seq<File>, statement: Node, alias: Alias, member: string, target: Symbol)
    requires OwnSymbols(files) && statement.Import? && SoleMember(files, alias.name, member, target)
    ensures SoleMember(files, Denoted(alias), member, target) <==> alias.asname.Some? || '.' !in alias.name
  {
    FirstPartIsAll(alias.name);
    if SoleMember(files, Denoted(alias), member, target) {
      MemberOfOneModule(files, alias.name, Denoted(alias), member, target);
    }
  }

  /* ---------- a dotted import ---------- */

  /** A module a.b with a function f, and a module that imports it and calls a.f(). */
  function Member(): Symbol { Symbol(NodeId("s", NodeKey("a/b.py", Function, "f", 1, 1)), "f", 1) }
  function Library(): File { File("a/b.py", false, [Def(Function, "f", 1, 1, [], [], [])], [Member()]) }
  function Statement(): Node { Import([Alias("a.b", None)]) }
  function Caller(): File { File("m.py", false, [Statement()], []) }
  function Callee(): Node { Attribute(Name("a", false, Pos(2, 0, 2)), "f", Pos(2, 0, 2)) }

  lemma DottedNames()
    ensures ModuleName("a/b.py") == "a.b" && ModuleName("m.py") == "m" && FirstPart("a.b") == "a"
  {
    assert "a/b.py"[..3] == "a/b" && "m.py"[..1] == "m";
    assert Dotted("a/b") == "a.b" by {
      assert "a/b"[1..] == "/b" && "/b"[1..] == "b" && "b"[1..] == "";
      assert Dotted("b") == "b" && Dotted("/b") == ".b";
    }
    assert Dotted("m") == "m" by {
      assert "m"[1..] == "";
    }
    assert "a.b"[1..] == ".b";
  }

  lemma CallerBindsPackage()
    ensures ImportedBy([Scope(Bindings(Caller().body), "")], 0, "a", Statement(), Alias("a.b", None))
  {
    var alias := Alias("a.b", None);
    DottedNames();
    assert AliasBindings(Statement(), [alias]) == [("a", Imports(Statement(), alias))];
    assert Bindings(Caller().body) == [("a", Imports(Statement(), alias))];
  }

  lemma MemberIsSole()
    ensures SoleMember([Library(), Caller()], "a.b", "f", Member())
  {
    DottedNames();
    var files := [Library(), Caller()];
    assert files[0] == Library() && Library().symbols[0] == Member();
    assert Sole(files, (g: File) => Offers(g, "a.b"), Library());
    assert Sole(Library().symbols, (s: Symbol) => s.name == "f", Member());
    assert Bindings(Library().body) == [("f", Defines(Library().body[0]))];
  }

  /** `import a.b` followed by `a.f()`: the name denotes the package a, the call is resolved to f of a.b. */
  lemma DottedImportLooksElsewhere()
    ensures var files, scopes := [Library(), Caller()], [Scope(Bindings(Caller().body), "")];
      && Resolve(files, Caller(), Callee(), scopes) == (Some(Member()), ModuleAttribute)
      && OwnSymbols(files) && Denoted(Statement().aliases[0]) == "a" && ModuleName(Library().path) == "a.b"
      && !SoleMember(files, "a", "f", Member())
  {
    var files, scopes := [Library(), Caller()], [Scope(Bindings(Caller().body), "")];
    DottedNames();
    CallerBindsPackage();
    MemberIsSole();
    ModuleAttributeTargetIff(files, Caller(), Callee(), scopes, Member());
    AttributeOfDenotedModuleIff(files, Statement(), Alias("a.b", None), "f", Member());
  }
}
