/**
  Edges of snapshots with files of other languages: names are looked up across
  all files, and a line belongs to the last symbol that starts at or before it.
*/
module TextEdges {
  import opened Prelude
  import opened PyAst
  import F = FileFacts
  import R = Relations

  /** What the patterns and the call parser find in a file, line by line. */
  datatype Extension = Extension(child: string, parent: string, line: nat)
  datatype Mention = ImportLine(text: string, line: nat) | CallOf(name: string, line: nat)

  /** `parameters` are pairs of a symbol and a name its head declares. */
  datatype File = File(symbols: seq<F.Symbol>, extensions: seq<Extension>, mentions: seq<Mention>,
                       parameters: set<(NodeId, string)>)

  datatype Edge = Edge(source: NodeId, relation: R.Relation, target: Option<NodeId>, expression: Option<string>, line: nat)

  /** by_name over the symbols of all files: the last one of a name stays. */
  function ByName(files: seq<File>, name: string): Option<NodeId> {
    if files == [] then None
    else
      var last := LastNamed(files[|files| - 1].symbols, name);
      if last.Some? then last else ByName(files[..|files| - 1], name)
  }

  function LastNamed(symbols: seq<F.Symbol>, name: string): Option<NodeId> {
    if symbols == [] then None
    else
      var last := symbols[|symbols| - 1];
      if last.name == name then Some(last.id) else LastNamed(symbols[..|symbols| - 1], name)
  }

  /** The candidate that starts last; the first of several that start together. */
  function LastStart(symbols: seq<F.Symbol>, line: nat): Option<F.Symbol> {
    if symbols == [] then None
    else
      var best, s := LastStart(symbols[..|symbols| - 1], line), symbols[|symbols| - 1];
      if s.kind.WholeFile? || s.startLine > line then best
      else if best.Some? && best.value.startLine >= s.startLine then best
      else Some(s)
  }

  function SourceFor(file: File, line: nat): Option<NodeId> {
    match LastStart(file.symbols, line)
    case Some(s) => Some(s.id)
    case None => if file.symbols != [] then Some(file.symbols[0].id) else None
  }

  function ExtensionEdges(files: seq<File>, found: seq<Extension>): seq<Edge> {
    if found == [] then []
    else
      var x := found[0];
      var child, parent := ByName(files, x.child), ByName(files, x.parent);
      (if child.Some? && x.parent != ""
       then [Edge(child.value, R.Inherits, parent, if parent.None? then Some(x.parent) else None, x.line)] else [])
      + ExtensionEdges(files, found[1..])
  }

  function MentionEdges(files: seq<File>, file: File, found: seq<Mention>): seq<Edge> {
    if found == [] then []
    else
      var source := SourceFor(file, found[0].line);
      var here :=
        if source.None? then []
        else match found[0]
          case ImportLine(text, line) => [Edge(source.value, R.ImportsSymbol, None, Some(text), line)]
          case CallOf(name, line) =>
            var target := ByName(files, name);
            if (source.value, name) in file.parameters || target.None? || target == source then []
            else [Edge(source.value, R.Calls, target, None, line)];
      here + MentionEdges(files, file, found[1..])
  }

  function AllExtensions(files: seq<File>, rest: seq<File>): seq<Edge> {
    if rest == [] then [] else ExtensionEdges(files, rest[0].extensions) + AllExtensions(files, rest[1..])
  }

  function AllMentions(files: seq<File>, rest: seq<File>): seq<Edge> {
    if rest == [] then [] else MentionEdges(files, rest[0], rest[0].mentions) + AllMentions(files, rest[1..])
  }

  /** resolve_edges */
  function Resolve(files: seq<File>): seq<Edge> { AllExtensions(files, files) + AllMentions(files, files) }

  /* ---------- both ends are symbols ---------- */

  ghost predicate Known(files: seq<File>, id: NodeId) {
    exists f, s :: f in files && s in f.symbols && s.id == id
  }

  ghost predicate Joins(files: seq<File>, e: Edge) {
    Known(files, e.source) && (e.target.Some? ==> Known(files, e.target.value)) && (e.expression.Some? <==> e.target.None?)
  }

  lemma {:induction false} LastNamedIsSymbol(symbols: seq<F.Symbol>, name: string)
    ensures LastNamed(symbols, name).Some? ==> exists s :: s in symbols && s.id == LastNamed(symbols, name).value
  {
    if symbols != [] {
      LastNamedIsSymbol(symbols[..|symbols| - 1], name);
      assert symbols[|symbols| - 1] in symbols;
    }
  }

  lemma {:induction false} ByNameIsKnown(files: seq<File>, name: string)
    ensures ByName(files, name).Some? ==> Known(files, ByName(files, name).value)
  {
    if files != [] {
      var f := files[|files| - 1];
      LastNamedIsSymbol(f.symbols, name);
      ByNameIsKnown(files[..|files| - 1], name);
      assert f in files;
      if LastNamed(f.symbols, name).None? && ByName(files, name).Some? {
        var g, s :| g in files[..|files| - 1] && s in g.symbols && s.id == ByName(files, name).value;
        assert g in files;
      }
    }
  }

  lemma {:induction false} LastStartIsSymbol(symbols: seq<F.Symbol>, line: nat)
    ensures LastStart(symbols, line).Some? ==> LastStart(symbols, line).value in symbols
  {
    if symbols != [] {
      LastStartIsSymbol(symbols[..|symbols| - 1], line);
    }
  }

  lemma SourceIsKnown(files: seq<File>, file: File, line: nat)
    requires file in files
    ensures SourceFor(file, line).Some? ==> Known(files, SourceFor(file, line).value)
  {
    LastStartIsSymbol(file.symbols, line);
    if LastStart(file.symbols, line).None? && file.symbols != [] {
      assert file.symbols[0] in file.symbols;
    }
  }

  lemma {:induction false} ExtensionEdgesJoin(files: seq<File>, found: seq<Extension>)
    ensures forall e :: e in ExtensionEdges(files, found) ==> Joins(files, e)
  {
    if found != [] {
      ByNameIsKnown(files, found[0].child);
      ByNameIsKnown(files, found[0].parent);
      ExtensionEdgesJoin(files, found[1..]);
    }
  }

  lemma {:induction false} MentionEdgesJoin(files: seq<File>, file: File, found: seq<Mention>)
    requires file in files
    ensures forall e :: e in MentionEdges(files, file, found) ==> Joins(files, e)
  {
    if found != [] {
      SourceIsKnown(files, file, found[0].line);
      if found[0].CallOf? {
        ByNameIsKnown(files, found[0].name);
      }
      MentionEdgesJoin(files, file, found[1..]);
    }
  }

  lemma {:induction false} AllExtensionsJoin(files: seq<File>, rest: seq<File>)
    ensures forall e :: e in AllExtensions(files, rest) ==> Joins(files, e)
  {
    if rest != [] {
      ExtensionEdgesJoin(files, rest[0].extensions);
      AllExtensionsJoin(files, rest[1..]);
    }
  }

  lemma {:induction false} AllMentionsJoin(files: seq<File>, rest: seq<File>)
    requires forall f :: f in rest ==> f in files
    ensures forall e :: e in AllMentions(files, rest) ==> Joins(files, e)
  {
    if rest != [] {
      MentionEdgesJoin(files, rest[0], rest[0].mentions);
      AllMentionsJoin(files, rest[1..]);
    }
  }

  /** Every edge starts at a symbol of the given files, and ends at one or keeps the text it could not resolve. */
  lemma ResolveJoins(files: seq<File>)
    ensures forall e :: e in Resolve(files) ==> Joins(files, e)
  {
    AllExtensionsJoin(files, files);
    AllMentionsJoin(files, files);
  }
}
