/**
 * The hook name of an operation path made of plain segments and
 * `/<items>/{<id>}` items (`operation.ts`, `buildHookName`): the item rewrite,
 * the split into words and the PascalCase join, stated over the pieces of
 * the path.
 */
module HookNames {
  import opened Wrappers
  import opened Strings
  import opened Seqs
  import opened Utils
  import opened SchemaNames
  import opened Operations


  /** One piece of an operation path: `/<word>`, or an item `/<items>/{<id>}`. */
  datatype PathSeg = Plain(word: string) | Item(items: string, id: string)

  function SegText(g: PathSeg): string {
    match g
    case Plain(w) => "/" + w
    case Item(items, id) => "/" + items + "/{" + id + "}"
  }

  function PathOf(segs: seq<PathSeg>): string {
    if segs == [] then "" else SegText(segs[0]) + PathOf(segs[1..])
  }

  /** The word a piece contributes to the hook name: the word, or the singular of the collection. */
  function SegWord(g: PathSeg, inf: Inflector): string {
    match g
    case Plain(w) => w
    case Item(items, _) => Singular(inf, items)
  }

  function WordsOf(segs: seq<PathSeg>, inf: Inflector): seq<string> {
    Map((g: PathSeg) => SegWord(g, inf), segs)
  }

  predicate AllSeg(s: string) {
    forall i :: 0 <= i < |s| ==> IsSegChar(s[i])
  }

  /** A plain word of word characters, or an item whose collection ends in `s` and whose singular is a word. */
  predicate SegOk(g: PathSeg, inf: Inflector) {
    match g
    case Plain(w) => w != [] && AllWord(w)
    case Item(items, id) =>
      && |items| >= 2 && items[|items| - 1] == 's' && AllSeg(items)
      && id != [] && AllSeg(id)
      && Singular(inf, items) != [] && AllWord(Singular(inf, items))
  }

  function SlashPath(ws: seq<string>): string {
    if ws == [] then "" else "/" + ws[0] + SlashPath(ws[1..])
  }

  /** No item starts at the slash of a plain segment. */
  lemma NoItemAtPlain(w: string, t: string)
    requires w != [] && AllWord(w)
    requires t == [] || (|t| >= 2 && t[0] == '/' && t[1] != '{')
    ensures ItemAt("/" + w + t).None?
  {
    var s := "/" + w + t;
    assert s[1..] == w + t;
    if t == [] {
      assert SegRun(w) == |w|;
    } else {
      SegRunOf(w, t);
      assert s[1 + |w|] == '/' && s[2 + |w|] == t[1];
    }
  }

  /** A run without `/` is copied by the item rewrite. */
  lemma {:induction false} SingularizeItemsSkip(w: string, t: string, inf: Inflector)
    requires '/' !in w
    ensures SingularizeItems(w + t, inf) == w + SingularizeItems(t, inf)
    decreases |w|
  {
    if w != [] {
      var u := w[1..] + t;
      assert w + t == [w[0]] + u;
      SingularizeItemsCons(w[0], u, inf);
      SingularizeItemsSkip(w[1..], t, inf);
      assert w == [w[0]] + w[1..];
    } else {
      assert w + t == t;
    }
  }

  /** A plain segment is copied by the item rewrite when no `{` follows its word. */
  lemma SingularizePlain(w: string, t: string, inf: Inflector)
    requires w != [] && AllWord(w)
    requires t == [] || (|t| >= 2 && t[0] == '/' && t[1] != '{')
    ensures SingularizeItems("/" + w + t, inf) == "/" + w + SingularizeItems(t, inf)
  {
    NoItemAtPlain(w, t);
    assert '/' !in w by {
      forall i | 0 <= i < |w| ensures w[i] != '/' {
        assert IsWordChar(w[i]);
      }
    }
    var u := w + t;
    assert "/" + w + t == ['/'] + u;
    SingularizeItemsSlash(u, inf);
    SingularizeItemsSkip(w, t, inf);
    SlashGlue(w, SingularizeItems(t, inf));
  }

  /** The item rewrite copies a `/` where no item starts. */
  lemma SingularizeItemsSlash(u: string, inf: Inflector)
    requires ItemAt(['/'] + u).None?
    ensures SingularizeItems(['/'] + u, inf) == ['/'] + SingularizeItems(u, inf)
  {
    assert (['/'] + u)[1..] == u;
  }

  lemma SlashGlue(w: string, x: string)
    ensures ['/'] + (w + x) == "/" + w + x
  {
  }

  /** A character other than `/` is copied by the item rewrite. */
  lemma SingularizeItemsCons(c: char, u: string, inf: Inflector)
    requires c != '/'
    ensures SingularizeItems([c] + u, inf) == [c] + SingularizeItems(u, inf)
  {
    assert ([c] + u)[1..] == u;
  }

  /** One piece: the rewrite gives `/` and the piece's word, then goes on with the rest. */
  lemma SingularizeSeg(g: PathSeg, rest: string, inf: Inflector)
    requires SegOk(g, inf)
    requires rest == [] || (|rest| >= 2 && rest[0] == '/' && rest[1] != '{')
    ensures SingularizeItems(SegText(g) + rest, inf) == "/" + SegWord(g, inf) + SingularizeItems(rest, inf)
  {
    match g
    case Plain(w) =>
      SingularizePlain(w, rest, inf);
    case Item(items, id) =>
      SingularizeItemsItem(items, id, rest, inf);
  }

  /** A path of pieces is empty or starts with `/` and a character other than `{`. */
  lemma PathOfStart(segs: seq<PathSeg>, inf: Inflector)
    requires forall i :: 0 <= i < |segs| ==> SegOk(segs[i], inf)
    ensures var t := PathOf(segs); t == [] || (|t| >= 2 && t[0] == '/' && t[1] != '{')
  {
    if segs != [] {
      assert SegOk(segs[0], inf);
    }
  }

  lemma SlashWordsCons(segs: seq<PathSeg>, inf: Inflector)
    requires segs != []
    ensures SlashPath(WordsOf(segs, inf)) == "/" + SegWord(segs[0], inf) + SlashPath(WordsOf(segs[1..], inf))
  {
    assert WordsOf(segs, inf)[1..] == WordsOf(segs[1..], inf);
  }

  /** The item rewrite turns a path of pieces into the slash-separated words of its pieces. */
  lemma {:induction false} SingularizePath(segs: seq<PathSeg>, inf: Inflector)
    requires forall i :: 0 <= i < |segs| ==> SegOk(segs[i], inf)
    ensures SingularizeItems(PathOf(segs), inf) == SlashPath(WordsOf(segs, inf))
  {
    if segs != [] {
      var rest := PathOf(segs[1..]);
      assert PathOf(segs) == SegText(segs[0]) + rest;
      SingularizePath(segs[1..], inf);
      PathOfStart(segs[1..], inf);
      SingularizeSeg(segs[0], rest, inf);
      SlashWordsCons(segs, inf);
    }
  }

  lemma WordRunOf(a: string, b: string)
    requires AllWord(a)
    requires b == [] || !IsWordChar(b[0])
    ensures WordRun(a + b) == |a|
  {
    assert forall i :: 0 <= i < |a| ==> (a + b)[i] == a[i];
    assert |a| < |a + b| ==> (a + b)[|a|] == b[0];
  }

  /** Splitting a word followed by slash-separated words gives the word, then those words. */
  lemma {:induction false} SplitSlashPath(w: string, ws: seq<string>)
    requires AllWord(w) && forall i :: 0 <= i < |ws| ==> ws[i] != [] && AllWord(ws[i])
    ensures SplitNonWord(w + SlashPath(ws)) == [w] + ws
    decreases |ws|
  {
    var s := w + SlashPath(ws);
    if ws == [] {
      assert s == w;
      WordRunOf(w, []);
    } else {
      var t := ws[0] + SlashPath(ws[1..]);
      assert s == w + "/" + t;
      WordRunOf(w, "/" + t);
      var e := NonWordRunEnd(s, |w|);
      assert s[|w|] == '/' && s[|w| + 1] == ws[0][0];
      assert e == |w| + 1;
      assert s[..|w|] == w && s[e..] == t;
      SplitSlashPath(ws[0], ws[1..]);
    }
  }

  lemma PascalCaseEmpty()
    ensures PascalCase("") == ""
  {
    assert SplitFrom("", 0, 0) == [""];
  }

  /** The name a path gives: the PascalCase of each of its words, concatenated. */
  lemma PathNameOfSegs(segs: seq<PathSeg>, inf: Inflector)
    requires forall i :: 0 <= i < |segs| ==> SegOk(segs[i], inf)
    ensures PathName(PathOf(segs), inf) == Join(Map(PascalCase, WordsOf(segs, inf)), "")
  {
    var ws := WordsOf(segs, inf);
    SingularizePath(segs, inf);
    forall i | 0 <= i < |ws| ensures ws[i] != [] && AllWord(ws[i]) {
      assert SegOk(segs[i], inf);
    }
    SplitSlashPath("", ws);
    assert "" + SlashPath(ws) == SlashPath(ws);
    PascalCaseEmpty();
    var ps := Map(PascalCase, ws);
    assert Map(PascalCase, [""] + ws) == [""] + ps;
    JoinCons("", ps, "");
  }

  /**
   * The hook is named after its path: `use`, the method, the PascalCase words
   * of the path with every `/<items>/{<id>}` made singular (`/foos/{id}`
   * gives `Foo`), the whole name made singular for a POST, then `Query` or
   * `Mutation`.
   */
  lemma HookNameOfPath(segs: seq<PathSeg>, m: Method, t: HookType, inf: Inflector)
    requires forall i :: 0 <= i < |segs| ==> SegOk(segs[i], inf)
    ensures var words := Join(Map(PascalCase, WordsOf(segs, inf)), "");
      BuildHookName(PathOf(segs), m, t, inf)
      == "use" + UcFirst(MethodName(m)) + (if m == Post then Singular(inf, words) else words)
         + (if IsQuery(t) then "Query" else "Mutation")
  {
    PathNameOfSegs(segs, inf);
  }
}
