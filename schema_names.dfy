/**
 * Schema names: `buildSchemaName` reads an API Platform reference such as
 * `#/components/schemas/Foo.jsonld-foo.read` with the regular expression
 * `^#.+\/(?<name>\w+)(\.(?<dto>\w+))?\.jsonld(?:-(?<group>\w+(?:\.\w+)*))?$`
 * and derives the schema name from its parts.
 */
module SchemaNames {
  import opened Wrappers
  import opened Strings
  import opened Seqs
  import opened Utils

  /** The named groups of a successful match. */
  datatype RefParts = RefParts(name: string, dto: Option<string>, group: Option<string>)

  /** The last position of `c` in `s`. */
  function LastIndexOf(s: string, c: char): (r: Option<nat>)
    ensures r.Some? ==> r.value < |s| && s[r.value] == c && c !in s[r.value + 1..]
    ensures r.None? ==> c !in s
  {
    if s == [] then None
    else if s[|s| - 1] == c then Some(|s| - 1)
    else
      var r := LastIndexOf(s[..|s| - 1], c);
      assert r.Some? ==> s[r.value + 1..] == s[..|s| - 1][r.value + 1..] + [s[|s| - 1]];
      r
  }

  predicate NoLineTerminator(s: string) {
    forall i :: 0 <= i < |s| ==> !IsLineTerminator(s[i])
  }

  /** `\w+(?:\.\w+)*`: dot-separated words. */
  predicate GroupOk(g: string) {
    forall piece :: piece in Split(g, '.') ==> IsWord(piece)
  }

  /** `(?<name>\w+)(\.(?<dto>\w+))?\.jsonld` */
  function ParseHead(h: string): Option<(string, Option<string>)> {
    var ps := Split(h, '.');
    if |ps| == 2 && IsWord(ps[0]) && ps[1] == "jsonld" then Some((ps[0], None))
    else if |ps| == 3 && IsWord(ps[0]) && IsWord(ps[1]) && ps[2] == "jsonld" then Some((ps[0], Some(ps[1])))
    else None
  }

  /** What follows the last `/`: the head, then optionally `-` and the group. */
  function ParseTail(t: string): Option<RefParts> {
    if '-' in t then
      var k := IndexOf(t, '-');
      match ParseHead(t[..k])
      case Some((name, dto)) => if GroupOk(t[k + 1..]) then Some(RefParts(name, dto, Some(t[k + 1..]))) else None
      case None => None
    else
      match ParseHead(t)
      case Some((name, dto)) => Some(RefParts(name, dto, None))
      case None => None
  }

  /**
   * The match of the reference expression. The tail admits no `/`, so the
   * greedy `.+` can only end before the last `/` of the reference.
   */
  function MatchRef(ref: string): Option<RefParts> {
    if |ref| > 0 && ref[0] == '#' then
      match LastIndexOf(ref, '/')
      case Some(j) => if j >= 2 && NoLineTerminator(ref[1..j]) then ParseTail(ref[j + 1..]) else None
      case None => None
    else None
  }

  // ----- the reference a set of parts is read from

  predicate ValidParts(p: RefParts) {
    && IsWord(p.name)
    && (p.dto.Some? ==> IsWord(p.dto.value))
    && (p.group.Some? ==> GroupOk(p.group.value))
  }

  predicate ValidPrefix(prefix: string) {
    |prefix| > 0 && NoLineTerminator(prefix)
  }

  function HeadPieces(p: RefParts): seq<string> {
    [p.name] + (if p.dto.Some? then [p.dto.value] else []) + ["jsonld"]
  }

  function MakeTail(p: RefParts): string {
    Join(HeadPieces(p), ".") + (if p.group.Some? then "-" + p.group.value else "")
  }

  /** `#<prefix>/<name>[.<dto>].jsonld[-<group>]` */
  function MakeRef(prefix: string, p: RefParts): string {
    "#" + prefix + "/" + MakeTail(p)
  }

  lemma {:induction false} JoinFree(parts: seq<string>, sep: string, c: char)
    requires c !in sep
    requires forall i :: 0 <= i < |parts| ==> c !in parts[i]
    ensures c !in Join(parts, sep)
  {
    if |parts| > 1 {
      JoinFree(parts[1..], sep, c);
    }
  }

  lemma WordFree(w: string, c: char)
    requires AllWord(w) && !IsWordChar(c)
    ensures c !in w
  {
  }

  lemma {:induction false} LastIndexOfAt(s: string, j: nat, c: char)
    requires j < |s| && s[j] == c && c !in s[j + 1..]
    ensures LastIndexOf(s, c) == Some(j)
  {
    if j < |s| - 1 {
      var init := s[..|s| - 1];
      assert s[|s| - 1] in s[j + 1..];
      assert init[j + 1..] <= s[j + 1..];
      LastIndexOfAt(init, j, c);
    }
  }

  lemma IndexOfAt(s: string, k: nat, c: char)
    requires k < |s| && s[k] == c && c !in s[..k]
    ensures IndexOf(s, c) == k
  {
  }

  lemma TailFacts(p: RefParts)
    requires ValidParts(p)
    ensures '/' !in MakeTail(p)
    ensures '-' !in Join(HeadPieces(p), ".")
    ensures forall i :: 0 <= i < |HeadPieces(p)| ==> '.' !in HeadPieces(p)[i] && '/' !in HeadPieces(p)[i]
  {
    var hp := HeadPieces(p);
    forall i | 0 <= i < |hp| ensures '.' !in hp[i] && '/' !in hp[i] && '-' !in hp[i] {
      assert AllWord(hp[i]);
    }
    JoinFree(hp, ".", '/');
    JoinFree(hp, ".", '-');
    if p.group.Some? {
      var g := p.group.value;
      var gs := Split(g, '.');
      forall i | 0 <= i < |gs| ensures '/' !in gs[i] {
        assert gs[i] in gs;
      }
      JoinFree(gs, ".", '/');
      JoinSplit(g, '.');
    }
  }

  lemma ParseHeadOf(p: RefParts)
    requires ValidParts(p)
    ensures ParseHead(Join(HeadPieces(p), ".")) == Some((p.name, p.dto))
  {
    TailFacts(p);
    SplitJoin(HeadPieces(p), '.');
  }

  lemma ParseMakeTail(p: RefParts)
    requires ValidParts(p)
    ensures ParseTail(MakeTail(p)) == Some(p)
  {
    var t := MakeTail(p);
    var h := Join(HeadPieces(p), ".");
    TailFacts(p);
    ParseHeadOf(p);
    if p.group.Some? {
      var g := p.group.value;
      assert t == h + "-" + g;
      assert t[..|h|] == h;
      IndexOfAt(t, |h|, '-');
      assert t[|h| + 1..] == g;
    } else {
      assert t == h;
    }
  }

  /** Reading the reference built from valid parts gives back those parts. */
  lemma MatchMakeRef(prefix: string, p: RefParts)
    requires ValidPrefix(prefix) && ValidParts(p)
    ensures MatchRef(MakeRef(prefix, p)) == Some(p)
  {
    var t := MakeTail(p);
    var r := MakeRef(prefix, p);
    var j := |prefix| + 1;
    TailFacts(p);
    assert r[j + 1..] == t;
    assert r[1..j] == prefix;
    assert r[j] == '/';
    LastIndexOfAt(r, j, '/');
    ParseMakeTail(p);
  }

  lemma ParseHeadParts(h: string, name: string, dto: Option<string>, group: Option<string>)
    requires ParseHead(h) == Some((name, dto))
    ensures IsWord(name) && (dto.Some? ==> IsWord(dto.value))
    ensures h == Join(HeadPieces(RefParts(name, dto, group)), ".")
  {
    JoinSplit(h, '.');
    assert Split(h, '.') == HeadPieces(RefParts(name, dto, group));
  }

  lemma ParseTailParts(t: string, p: RefParts)
    requires ParseTail(t) == Some(p)
    ensures ValidParts(p) && t == MakeTail(p)
  {
    if '-' in t {
      ParseGroupedTailParts(t, p);
    } else {
      assert ParseHead(t) == Some((p.name, p.dto)) && p.group == None;
      ParseHeadParts(t, p.name, p.dto, p.group);
    }
  }

  lemma ParseGroupedTailParts(t: string, p: RefParts)
    requires '-' in t && ParseTail(t) == Some(p)
    ensures ValidParts(p) && t == MakeTail(p)
  {
    var k := IndexOf(t, '-');
    var h, g := t[..k], t[k + 1..];
    assert ParseHead(h) == Some((p.name, p.dto)) && p.group == Some(g) && GroupOk(g);
    ParseHeadParts(h, p.name, p.dto, p.group);
    assert MakeTail(p) == h + "-" + g;
    assert t == h + "-" + g;
  }

  /** A successful match reads valid parts, and the reference is the one built from them. */
  lemma MatchRefParts(ref: string, p: RefParts)
    requires MatchRef(ref) == Some(p)
    ensures ValidParts(p)
    ensures exists prefix :: ValidPrefix(prefix) && ref == MakeRef(prefix, p)
  {
    var j := LastIndexOf(ref, '/').value;
    var prefix := ref[1..j];
    var t := ref[j + 1..];
    assert ref == "#" + prefix + "/" + t;
    ParseTailParts(t, p);
    assert ValidPrefix(prefix);
  }

  // ----- the name derived from the parts

  /** `/[^A-Za-z]([a-z])/g` replaced by the upper-cased letter: `foo_bar` becomes `fooBar`. */
  function Camelise(g: string): (r: string)
    ensures |r| <= |g|
    ensures |r| == 0 <==> |g| == 0
    ensures |r| > 0 ==> r[0] == g[0] || IsUpper(r[0])
    ensures AllWord(g) ==> AllWord(r)
  {
    if |g| >= 2 && !IsLetter(g[0]) && IsLower(g[1]) then [ToUpper(g[1])] + Camelise(g[2..])
    else if g == [] then []
    else [g[0]] + Camelise(g[1..])
  }

  /** No non-letter is followed by a lower-case letter. */
  predicate NoBreak(s: string) {
    forall i :: 0 <= i < |s| - 1 ==> IsLetter(s[i]) || !IsLower(s[i + 1])
  }

  lemma {:induction false} CameliseNoBreak(g: string)
    ensures NoBreak(Camelise(g))
  {
    if |g| >= 2 && !IsLetter(g[0]) && IsLower(g[1]) {
      CameliseNoBreak(g[2..]);
    } else if g != [] {
      CameliseNoBreak(g[1..]);
      var r := Camelise(g);
      var rest := Camelise(g[1..]);
      assert r == [g[0]] + rest;
      if |rest| > 0 && !IsLetter(g[0]) {
        assert rest[0] == g[1] || IsUpper(rest[0]);
      }
      forall i | 0 <= i < |r| - 1 ensures IsLetter(r[i]) || !IsLower(r[i + 1]) {
        if i > 0 {
          assert r[i] == rest[i - 1] && r[i + 1] == rest[i];
        }
      }
    }
  }

  lemma {:induction false} CameliseFixed(g: string)
    requires NoBreak(g)
    ensures Camelise(g) == g
  {
    if g != [] {
      NoBreakTail(g);
      CameliseFixed(g[1..]);
      CameliseHead(g);
      assert g == [g[0]] + g[1..];
    }
  }

  lemma NoBreakTail(g: string)
    requires NoBreak(g) && g != []
    ensures NoBreak(g[1..])
  {
    var t := g[1..];
    forall i | 0 <= i < |t| - 1 ensures IsLetter(t[i]) || !IsLower(t[i + 1]) {
      assert t[i] == g[i + 1] && t[i + 1] == g[i + 2];
    }
  }

  lemma CameliseHead(g: string)
    requires NoBreak(g) && g != []
    ensures Camelise(g) == [g[0]] + Camelise(g[1..])
  {
    if |g| >= 2 {
      assert IsLetter(g[0]) || !IsLower(g[1]);
    }
  }

  /** Camelising is idempotent. */
  lemma CameliseIdempotent(g: string)
    ensures Camelise(Camelise(g)) == Camelise(g)
  {
    CameliseNoBreak(g);
    CameliseFixed(Camelise(g));
  }

  /** The groups after camelising, without the first one when it repeats the name. */
  function NameGroups(p: RefParts): seq<string> {
    var groups := if p.group.Some? then Map(Camelise, Split(p.group.value, '.')) else [];
    if |groups| > 0 && LowerStr(p.name) == LowerStr(groups[0]) then groups[1..] else groups
  }

  function DeriveName(p: RefParts): string {
    NameFromGroups(p.name, p.dto, NameGroups(p))
  }

  /** The remaining groups are appended to the name part; without any, the dto or the name part is the name. */
  function NameFromGroups(name: string, dto: Option<string>, groups: seq<string>): string {
    if |groups| > 0 then name + Join(Map(UcFirst, groups), "")
    else if dto.Some? then dto.value
    else name
  }

  /** `buildSchemaName` */
  function BuildSchemaName(ref: Option<string>): Result<string> {
    if ref.None? || ref.value == "" then Err("Unhandled schema")
    else
      match MatchRef(ref.value)
      case None => Err("Wrong RegExp")
      case Some(p) => Ok(DeriveName(p))
  }

  lemma {:induction false} JoinAllWord(parts: seq<string>)
    requires forall i :: 0 <= i < |parts| ==> AllWord(parts[i])
    ensures AllWord(Join(parts, ""))
  {
    if |parts| > 1 {
      JoinAllWord(parts[1..]);
      assert Join(parts, "") == parts[0] + Join(parts[1..], "");
    }
  }

  /** Camelised groups of a valid reference consist of word characters. */
  lemma NameGroupsWord(p: RefParts)
    requires ValidParts(p)
    ensures forall i :: 0 <= i < |NameGroups(p)| ==> AllWord(NameGroups(p)[i])
  {
    if p.group.Some? {
      var gs := Split(p.group.value, '.');
      var all := Map(Camelise, gs);
      forall i | 0 <= i < |all| ensures AllWord(all[i]) {
        assert gs[i] in gs;
      }
    }
  }

  lemma NameFromGroupsIsWord(name: string, dto: Option<string>, groups: seq<string>)
    requires IsWord(name) && (dto.Some? ==> IsWord(dto.value))
    requires forall i :: 0 <= i < |groups| ==> AllWord(groups[i])
    ensures IsWord(NameFromGroups(name, dto, groups))
  {
    if |groups| > 0 {
      var m := Map(UcFirst, groups);
      assert forall i :: 0 <= i < |m| ==> AllWord(m[i]);
      JoinAllWord(m);
    }
  }

  lemma DeriveNameIsWord(p: RefParts)
    requires ValidParts(p)
    ensures IsWord(DeriveName(p))
  {
    NameGroupsWord(p);
    NameFromGroupsIsWord(p.name, p.dto, NameGroups(p));
  }

  /**
   * A schema name is a non-empty run of word characters, so it holds no `.`
   * and never splits the `<schema>.<property>` keys of the recursion guard.
   */
  lemma SchemaNameIsWord(ref: Option<string>)
    requires BuildSchemaName(ref).Ok?
    ensures IsWord(BuildSchemaName(ref).value)
    ensures '.' !in BuildSchemaName(ref).value
  {
    var p := MatchRef(ref.value).value;
    MatchRefParts(ref.value, p);
    DeriveNameIsWord(p);
  }

  /** Without a group, or when the only group repeats the name, the dto names the schema. */
  lemma NameWithoutGroups(p: RefParts)
    requires NameGroups(p) == []
    ensures DeriveName(p) == if p.dto.Some? then p.dto.value else p.name
  {
  }

  // ----- the entity name: `$ref.match(/^.+\/(\w+)/)?.[1] ?? "TODO EntityName"`

  /** The last `/` at position `j < n`, `j >= 1`, reachable by `.+` and followed by a word character. */
  function EntitySlash(ref: string, n: nat): (r: Option<nat>)
    requires n <= |ref|
    ensures r.Some? ==> 1 <= r.value < n
  {
    if n <= 1 then None
    else
      var j := n - 1;
      if ref[j] == '/' && j + 1 < |ref| && IsWordChar(ref[j + 1]) && NoLineTerminator(ref[..j]) then Some(j)
      else EntitySlash(ref, j)
  }

  /** The end of the run of word characters starting at `i`. */
  function WordRunEnd(s: string, i: nat): (e: nat)
    requires i <= |s|
    ensures i <= e <= |s| && AllWord(s[i..e]) && (e < |s| ==> !IsWordChar(s[e]))
    decreases |s| - i
  {
    if i < |s| && IsWordChar(s[i]) then
      var e := WordRunEnd(s, i + 1);
      assert s[i..e] == [s[i]] + s[i + 1..e];
      e
    else i
  }

  function EntityName(ref: string): string {
    match EntitySlash(ref, |ref|)
    case Some(j) => ref[j + 1..WordRunEnd(ref, j + 1)]
    case None => "TODO EntityName"
  }

  lemma {:induction false} EntitySlashAt(ref: string, n: nat, j: nat)
    requires j < n <= |ref|
    requires j >= 1 && ref[j] == '/' && j + 1 < |ref| && IsWordChar(ref[j + 1]) && NoLineTerminator(ref[..j])
    requires '/' !in ref[j + 1..]
    ensures EntitySlash(ref, n) == Some(j)
    decreases n
  {
    if n - 1 != j {
      assert ref[n - 1] in ref[j + 1..];
      EntitySlashAt(ref, n - 1, j);
    }
  }

  lemma TailStartsWithName(p: RefParts)
    requires ValidParts(p)
    ensures |MakeTail(p)| > |p.name| && MakeTail(p)[..|p.name|] == p.name && MakeTail(p)[|p.name|] == '.'
  {
    var hp := HeadPieces(p);
    var h := Join(hp, ".");
    assert h == p.name + "." + Join(hp[1..], ".");
    var t := MakeTail(p);
    assert t == h + (if p.group.Some? then "-" + p.group.value else "");
    assert t[..|h|] == h;
  }

  lemma {:induction false} WordRunEndAt(s: string, i: nat, e: nat)
    requires i <= e < |s| && AllWord(s[i..e]) && !IsWordChar(s[e])
    ensures WordRunEnd(s, i) == e
    decreases e - i
  {
    if i < e {
      assert s[i] == s[i..e][0];
      assert s[i + 1..e] == s[i..e][1..];
      WordRunEndAt(s, i + 1, e);
    }
  }

  lemma PrefixNoLineTerminator(prefix: string, ref: string, j: nat)
    requires ValidPrefix(prefix) && j == |prefix| + 1 && j <= |ref| && ref[..j] == "#" + prefix
    ensures NoLineTerminator(ref[..j])
  {
    forall i | 0 <= i < j ensures !IsLineTerminator(ref[..j][i]) {
      if i > 0 {
        assert ref[..j][i] == prefix[i - 1];
      }
    }
  }

  lemma EntityNameOfRef(prefix: string, p: RefParts)
    requires ValidPrefix(prefix) && ValidParts(p)
    ensures EntityName(MakeRef(prefix, p)) == p.name
  {
    var ref := MakeRef(prefix, p);
    var j := |prefix| + 1;
    var t := MakeTail(p);
    TailFacts(p);
    TailStartsWithName(p);
    assert ref[j + 1..] == t;
    assert ref[..j] == "#" + prefix;
    PrefixNoLineTerminator(prefix, ref, j);
    assert ref[j + 1] == p.name[0];
    assert ref[j] == '/';
    EntitySlashAt(ref, |ref|, j);
    var e := j + 1 + |p.name|;
    assert ref[j + 1..e] == t[..|p.name|];
    assert ref[e] == t[|p.name|];
    WordRunEndAt(ref, j + 1, e);
  }

  /** The entity name of a reference that names a schema is the `name` part. */
  lemma EntityNameOfMatch(ref: string, p: RefParts)
    requires MatchRef(ref) == Some(p)
    ensures EntityName(ref) == p.name
  {
    MatchRefParts(ref, p);
    var prefix :| ValidPrefix(prefix) && ref == MakeRef(prefix, p);
    EntityNameOfRef(prefix, p);
  }

  // ----- worked examples

  lemma TwoPieceGroup(a: string, b: string)
    requires IsWord(a) && IsWord(b)
    ensures Split(a + "." + b, '.') == [a, b]
    ensures GroupOk(a + "." + b)
  {
    assert Join([a, b], ".") == a + "." + b;
    WordFree(a, '.');
    WordFree(b, '.');
    SplitJoin([a, b], '.');
  }

  lemma OnePieceGroup(a: string)
    requires IsWord(a)
    ensures Split(a, '.') == [a]
    ensures GroupOk(a)
  {
    WordFree(a, '.');
  }

  lemma CamelisedGroups(g: string, gs: seq<string>)
    requires Split(g, '.') == gs
    requires forall i :: 0 <= i < |gs| ==> NoBreak(gs[i])
    ensures Map(Camelise, Split(g, '.')) == gs
  {
    forall i | 0 <= i < |gs| ensures Camelise(gs[i]) == gs[i] {
      CameliseFixed(gs[i]);
    }
  }

  /** Appending two groups upper-cases each and concatenates them. */
  lemma JoinUcTwo(a: string, b: string)
    ensures Join(Map(UcFirst, [a, b]), "") == UcFirst(a) + UcFirst(b)
  {
    var m := Map(UcFirst, [a, b]);
    assert m == [UcFirst(a), UcFirst(b)];
    assert m[1..] == [UcFirst(b)];
    assert Join(m, "") == UcFirst(a) + "" + Join([UcFirst(b)], "");
  }

  lemma JoinUcOne(a: string)
    ensures Join(Map(UcFirst, [a]), "") == UcFirst(a)
  {
    assert Map(UcFirst, [a]) == [UcFirst(a)];
  }

  /** The groups left of a single NoBreak group. */
  lemma GroupsOfOne(p: RefParts, g: string)
    requires p.group == Some(g) && IsWord(g) && NoBreak(g)
    ensures GroupOk(g)
    ensures NameGroups(p) == if LowerStr(p.name) == LowerStr(g) then [] else [g]
  {
    OnePieceGroup(g);
    CamelisedGroups(g, [g]);
  }

  /** The groups left of two NoBreak groups. */
  lemma GroupsOfTwo(p: RefParts, g1: string, g2: string)
    requires p.group == Some(g1 + "." + g2) && IsWord(g1) && NoBreak(g1) && IsWord(g2) && NoBreak(g2)
    ensures GroupOk(g1 + "." + g2)
    ensures NameGroups(p) == if LowerStr(p.name) == LowerStr(g1) then [g2] else [g1, g2]
  {
    TwoPieceGroup(g1, g2);
    CamelisedGroups(g1 + "." + g2, [g1, g2]);
    assert [g1, g2][1..] == [g2];
  }

  /** A well-formed reference is named after its parts. */
  lemma NameOfParts(prefix: string, p: RefParts)
    requires ValidPrefix(prefix) && ValidParts(p)
    ensures BuildSchemaName(Some(MakeRef(prefix, p))) == Ok(NameFromGroups(p.name, p.dto, NameGroups(p)))
  {
    MatchMakeRef(prefix, p);
  }

  /** A group that is not the name is appended with an upper-case first letter, and the dto is then ignored. */
  lemma NameAppendsGroup(prefix: string, name: string, dto: Option<string>, g: string)
    requires ValidPrefix(prefix) && IsWord(name) && (dto.Some? ==> IsWord(dto.value))
    requires IsWord(g) && NoBreak(g) && LowerStr(name) != LowerStr(g)
    ensures BuildSchemaName(Some(MakeRef(prefix, RefParts(name, dto, Some(g))))) == Ok(name + UcFirst(g))
  {
    var p := RefParts(name, dto, Some(g));
    GroupsOfOne(p, g);
    NameOfParts(prefix, p);
    JoinUcOne(g);
  }

  /** A first group equal to the name, ignoring case, is dropped; the next one is appended. */
  lemma NameDropsRepeatedGroup(prefix: string, name: string, dto: Option<string>, g1: string, g2: string)
    requires ValidPrefix(prefix) && IsWord(name) && (dto.Some? ==> IsWord(dto.value))
    requires IsWord(g1) && NoBreak(g1) && IsWord(g2) && NoBreak(g2) && LowerStr(name) == LowerStr(g1)
    ensures BuildSchemaName(Some(MakeRef(prefix, RefParts(name, dto, Some(g1 + "." + g2))))) == Ok(name + UcFirst(g2))
  {
    var p := RefParts(name, dto, Some(g1 + "." + g2));
    GroupsOfTwo(p, g1, g2);
    NameOfParts(prefix, p);
    JoinUcOne(g2);
  }

  /** When the only group is the name, ignoring case, the dto names the schema, else the name part does. */
  lemma NameDropsOnlyGroup(prefix: string, name: string, dto: Option<string>, g: string)
    requires ValidPrefix(prefix) && IsWord(name) && (dto.Some? ==> IsWord(dto.value))
    requires IsWord(g) && NoBreak(g) && LowerStr(name) == LowerStr(g)
    ensures BuildSchemaName(Some(MakeRef(prefix, RefParts(name, dto, Some(g))))) == Ok(if dto.Some? then dto.value else name)
  {
    var p := RefParts(name, dto, Some(g));
    GroupsOfOne(p, g);
    NameOfParts(prefix, p);
  }

  /** Two groups unrelated to the name are both appended, each with an upper-case first letter. */
  lemma NameAppendsGroups(prefix: string, name: string, dto: Option<string>, g1: string, g2: string)
    requires ValidPrefix(prefix) && IsWord(name) && (dto.Some? ==> IsWord(dto.value))
    requires IsWord(g1) && NoBreak(g1) && IsWord(g2) && NoBreak(g2) && LowerStr(name) != LowerStr(g1)
    ensures BuildSchemaName(Some(MakeRef(prefix, RefParts(name, dto, Some(g1 + "." + g2)))))
         == Ok(name + UcFirst(g1) + UcFirst(g2))
  {
    var p := RefParts(name, dto, Some(g1 + "." + g2));
    var u1, u2 := UcFirst(g1), UcFirst(g2);
    assert ValidParts(p) && NameGroups(p) == [g1, g2] by {
      GroupsOfTwo(p, g1, g2);
    }
    assert NameFromGroups(name, dto, [g1, g2]) == name + u1 + u2 by {
      JoinUcTwo(g1, g2);
      assert name + (u1 + u2) == name + u1 + u2;
    }
    NameOfParts(prefix, p);
  }

  /** Without a group, the dto names the schema (`Foo.Bar.jsonld` gives `Bar`). */
  lemma NameFromDto(prefix: string, name: string, dto: string)
    requires ValidPrefix(prefix) && IsWord(name) && IsWord(dto)
    ensures BuildSchemaName(Some(MakeRef(prefix, RefParts(name, Some(dto), None)))) == Ok(dto)
  {
    MatchMakeRef(prefix, RefParts(name, Some(dto), None));
  }

  /** Without a dto or a group, the name part names the schema (`Foo.jsonld` gives `Foo`). */
  lemma NameFromName(prefix: string, name: string)
    requires ValidPrefix(prefix) && IsWord(name)
    ensures BuildSchemaName(Some(MakeRef(prefix, RefParts(name, None, None)))) == Ok(name)
  {
    MatchMakeRef(prefix, RefParts(name, None, None));
  }

  /** A reference that does not start with `#` is refused, and so is a missing one. */
  lemma NameErrors()
    ensures BuildSchemaName(Some("Foo.jsonld")) == Err("Wrong RegExp")
    ensures BuildSchemaName(Some("")) == Err("Unhandled schema")
    ensures BuildSchemaName(None) == Err("Unhandled schema")
  {
  }
}
