/**
  A small toolchain that meets what builds assume of theirs: one Python function
  with its tree, and whole-file symbols for everything else. With it the empty
  file of another language is a concrete input.
*/
module SampleTools {
  import opened Prelude
  import opened PyAst
  import opened BuildRows
  import opened BuildHistories
  import opened BuiltSources
  import opened EmptyFiles
  import B = SnapshotBuild
  import F = FileFacts
  import L = JobLeases
  import P = PythonChunks
  import R = Relations
  import S = SourceContext

  /** A digest that loses nothing: one character for each octet. */
  function Hash(data: B.Bytes): string { seq(|data|, i requires 0 <= i < |data| => data[i] as char) }

  lemma HashIsInjective(a: B.Bytes, b: B.Bytes)
    requires Hash(a) == Hash(b)
    ensures a == b
  {
    assert |Hash(a)| == |a| && |Hash(b)| == |b|;
    forall i | 0 <= i < |a| ensures a[i] == b[i] {
      assert Hash(a)[i] == Hash(b)[i];
      assert (a[i] as char) as int == a[i] && (b[i] as char) as int == b[i];
    }
  }

  /* ---------- a file of another language: one symbol, one chunk ---------- */

  function FileSymbol(path: string): F.Symbol {
    F.Symbol(NodeId(B.SCOPE, NodeKey(path, WholeFile, "file", 1, 1)), B.SCOPE, WholeFile, "file", path, 1, 1)
  }

  function FileChunk(path: string, length: nat): F.Chunk {
    var id := FileSymbol(path).id;
    F.Chunk(F.ChunkId(id, 0, length), id, B.SCOPE, path, P.Chunk(0, length, 1, 1, false, false))
  }

  function WholeParsed(path: string, data: B.Bytes): B.Parsed {
    B.Parsed(path, false, "utf-8", data, Hash(data), F.Facts([FileSymbol(path)], [FileChunk(path, |data|)], map[]), None)
  }

  lemma WholeIsSound(path: string, data: B.Bytes)
    ensures B.SoundFile(WholeParsed(path, data))
  {
    var f := WholeParsed(path, data).facts;
    assert FileSymbol(path) in f.symbols;
    assert F.HasSymbol(f, FileSymbol(path).id);
  }

  /* ---------- one Python function ---------- */

  /** The octets of `def f(): 0`. */
  function Source(): B.Bytes { [100, 101, 102, 32, 102, 40, 41, 58, 32, 48] }

  function Tree(): seq<Node> { [Def(Function, "f", 1, 1, [], [], [])] }

  function How(): B.Cutting {
    B.Cutting((first: nat, last: nat) => [P.Chunk(0, 10, 1, 1, false, false)], [0, 10], 16_384, 200)
  }

  function TreeParsed(path: string): B.Parsed {
    B.Parsed(path, false, "utf-8", Source(), Hash(Source()),
             F.FileFactsOf(F.Context(B.SCOPE, path, How().cut), Tree()), Some(Tree()))
  }

  lemma SourceLines()
    ensures P.LineTable([0, 10], Source())
  {
    forall p | 0 < p < |Source()| ensures p in [0, 10] <==> P.LineBreak(Source(), p) {
      assert Source()[p - 1] != 10 && Source()[p - 1] != 13;
    }
  }

  lemma SourceIsOneChunk()
    ensures P.SymbolChunks([0, 10], Source(), 1, 1, 16_384, 200, [P.Chunk(0, 10, 1, 1, false, false)])
  {
    SourceLines();
    var chunks := [P.Chunk(0, 10, 1, 1, false, false)];
    var w := P.SpanOf([0, 10], 10, 1, 1, 16_384, 200);
    assert w == P.Span(0, 10, 10, 16_384);
    assert P.PiecesOf(chunks) == [P.Piece(0, 10, false)];
    assert P.ChunkOk([0, 10], w, 1, 1, false, chunks[0]);
  }

  lemma TreeSymbols(path: string)
    ensures forall s :: s in TreeParsed(path).facts.symbols ==> s.startLine == 1 && s.endLine == 1
    ensures TreeParsed(path).facts.symbols != []
  {
    var c := F.Context(B.SCOPE, path, How().cut);
    var s := F.SymbolOf(c, Tree()[0], "");
    assert F.BodyFacts(c, Tree()[1..], "", None) == F.NONE;
    assert F.BodyFacts(c, [], s.name, Some(s.id)) == F.NONE;
    assert TreeParsed(path).facts.symbols == [s];
  }

  lemma TreeIsSound(path: string)
    ensures B.SoundFile(TreeParsed(path))
  {
    var p := TreeParsed(path);
    F.BodyFactsWellFormed(F.Context(B.SCOPE, path, How().cut), Tree(), "", None);
    TreeSymbols(path);
    SourceIsOneChunk();
    assert B.LineCut(p, How());
    assert B.ReadFromTree(p, B.SCOPE, How());
  }

  /* ---------- the toolchain ---------- */

  function Parse(path: string, data: B.Bytes): B.Parsed {
    if R.EndsWith(path, ".py") && data == Source() then TreeParsed(path) else WholeParsed(path, data)
  }

  function Tools(): B.Toolchain {
    B.Toolchain((revision, path, data) => Parse(path, data), Hash, path => R.EndsWith(path, ".go"), p => ([], [], {}))
  }

  /** What builds assume of a toolchain can be met, with trees and without. */
  lemma ToolsAreSound()
    ensures B.Sound(Tools())
    ensures Tools().parse("", "a.py", Source()).tree.Some? && Tools().parse("", "a.py", Source()).facts.symbols != []
  {
    forall a, b | Tools().sha(a) == Tools().sha(b) ensures a == b {
      HashIsInjective(a, b);
    }
    forall revision, path, data
      ensures B.SoundFile(Tools().parse(revision, path, data))
      ensures B.Describes(Tools(), Tools().parse(revision, path, data), path, data)
    {
      WholeIsSound(path, data);
      TreeIsSound(path);
    }
    assert "a.py"[1..] == ".py";
    TreeSymbols("a.py");
  }

  /* ---------- an empty Go file ---------- */

  function GoFile(): B.Entry { B.Entry("a.go", "o", true) }

  function GoBuild(): Build {
    Build(L.Identity("r", "c", "multilang-tree-sitter-v1", "d"), [GoFile()], o => [], 0, 0)
  }

  function Reader(): S.Platform { S.Platform(Hash, name => None, (name, data) => None) }

  lemma GoFileIsEmpty(d: Digests)
    ensures B.Sound(Tools()) && EmptyWithChunk(Tools(), d, GoBuild(), GoFile())
  {
    ToolsAreSound();
    var b, e := GoBuild(), GoFile();
    assert e in b.entries && "a.go"[1..] == ".go";
    assert "python"[0] != b.identity.parser[0];
    assert B.Parse(Tools(), BuildRequest(d, b), e) == Parse("a.go", []);
    assert Parse("a.go", []) == WholeParsed("a.go", []);
  }

  /** Building a commit with one empty Go file stores a chunk that never loads. */
  lemma EmptyGoFile(d: Digests) returns (g: nat, id: string)
    requires Injective(d)
    ensures B.Sound(Tools()) && StoredButRefused(Reader(), After(Tools(), d, [GoBuild()]), SnapshotOf(d, GoBuild()), g, id, "a.go")
  {
    GoFileIsEmpty(d);
    assert [] + [GoBuild()] == [GoBuild()];
    g, id := EmptyFileNeverLoads(Tools(), d, Reader(), [], GoBuild(), GoFile());
  }
}
