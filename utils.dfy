/**
 * The string helpers of the generator: case changes, PascalCase, JavaScript
 * identifiers and object keys, and the type-name mapping. The inflection
 * library (`pluralize`) is foreign code and is passed in as an `Inflector`.
 */
module Utils {
  import opened Wrappers
  import opened Strings
  import opened Seqs

  /** The two entry points of the foreign inflection library. */
  datatype Inflector = Inflector(plural: string -> string, singular: string -> string)

  function Plural(inf: Inflector, text: string): string {
    inf.plural(text)
  }

  /** The library's singular, with the one word it gets wrong patched. */
  function Singular(inf: Inflector, text: string): (r: string)
    ensures r != "skus"
    ensures inf.singular(text) != "skus" ==> r == inf.singular(text)
  {
    var sing := inf.singular(text);
    if sing == "skus" then "sku" else sing
  }

  /** Length of the leading run of ASCII capitals. */
  function UpperRun(s: string): (k: nat)
    ensures k <= |s|
    ensures forall i :: 0 <= i < k ==> IsUpper(s[i])
    ensures k < |s| ==> !IsUpper(s[k])
  {
    if |s| > 0 && IsUpper(s[0]) then 1 + UpperRun(s[1..]) else 0
  }

  /** `lcFirst`: `/^[A-Z]+/` lower-cased. */
  function LcFirst(text: string): (r: string)
    ensures |r| == |text|
    ensures forall i :: 0 <= i < UpperRun(text) ==> r[i] == ToLower(text[i])
    ensures r[UpperRun(text)..] == text[UpperRun(text)..]
    ensures |r| > 0 ==> !IsUpper(r[0])
  {
    if |text| > 0 && IsUpper(text[0]) then
      var rest := LcFirst(text[1..]);
      assert UpperRun(text) == 1 + UpperRun(text[1..]);
      [ToLower(text[0])] + rest
    else text
  }

  /** `ucFirst`: `/^[a-z]/` upper-cased. */
  function UcFirst(text: string): (r: string)
    ensures |r| == |text|
    ensures |r| > 0 ==> !IsLower(r[0])
    ensures |text| > 0 ==> r[1..] == text[1..]
    ensures |text| > 0 && !IsLower(text[0]) ==> r == text
    ensures |text| > 0 && IsLower(text[0]) ==> r[0] == ToUpper(text[0])
  {
    if |text| > 0 && IsLower(text[0]) then [ToUpper(text[0])] + text[1..] else text
  }

  // ----- pascalCase: text.split(/[^a-z\d]+(?=[a-z]|$)/i).filter(Boolean).map(ucFirst).join("")

  /** End of the maximal run of non-alphanumerics that starts at `i`. */
  function RunEnd(s: string, i: nat): (e: nat)
    requires i <= |s|
    ensures i <= e <= |s|
    ensures forall k :: i <= k < e ==> !IsAlnum(s[k])
    ensures e < |s| ==> IsAlnum(s[e])
    decreases |s| - i
  {
    if i < |s| && !IsAlnum(s[i]) then RunEnd(s, i + 1) else i
  }

  /** The separator of `pascalCase` matches at `i`: a run followed by a letter or the end. */
  predicate SplitsAt(s: string, i: nat)
    requires i <= |s|
  {
    i < |s| && !IsAlnum(s[i]) && (RunEnd(s, i) == |s| || IsLetter(s[RunEnd(s, i)]))
  }

  /** The split loop: the current piece starts at `p`, the scan is at `q`. */
  function SplitFrom(s: string, p: nat, q: nat): (r: seq<string>)
    requires p <= q <= |s|
    ensures |r| >= 1
    decreases |s| - q
  {
    if q == |s| then [s[p..]]
    else if SplitsAt(s, q) then [s[p..q]] + SplitFrom(s, RunEnd(s, q), RunEnd(s, q))
    else SplitFrom(s, p, q + 1)
  }

  function NonEmpty(s: string): bool {
    s != ""
  }

  function PascalCase(text: string): string {
    Join(Map(UcFirst, Filter(SplitFrom(text, 0, 0), NonEmpty)), "")
  }

  /** No separator of `pascalCase` can match: every non-alphanumeric is followed by a non-letter. */
  predicate Settled(r: string) {
    forall i :: 0 <= i < |r| && !IsAlnum(r[i]) ==> i + 1 < |r| && !IsLetter(r[i + 1])
  }

  lemma PieceSettled(s: string, p: nat, q: nat)
    requires p <= q <= |s|
    requires forall j :: p <= j < q ==> !SplitsAt(s, j)
    requires q == |s| || SplitsAt(s, q)
    ensures Settled(s[p..q])
  {
    var piece := s[p..q];
    forall i | 0 <= i < |piece| && !IsAlnum(piece[i])
      ensures i + 1 < |piece| && !IsLetter(piece[i + 1])
    {
      var k := p + i;
      assert s[k] == piece[i];
      assert !SplitsAt(s, k);
      var e := RunEnd(s, k);
      assert e == RunEnd(s, k + 1);
      if k + 1 == q {
        assert false;
      }
      assert s[k + 1] == piece[i + 1];
    }
  }

  lemma {:induction false} SplitFromSettled(s: string, p: nat, q: nat)
    requires p <= q <= |s|
    requires forall j :: p <= j < q ==> !SplitsAt(s, j)
    ensures forall k :: 0 <= k < |SplitFrom(s, p, q)| ==> Settled(SplitFrom(s, p, q)[k])
    decreases |s| - q
  {
    if q == |s| {
      PieceSettled(s, p, q);
      assert s[p..q] == s[p..];
    } else if SplitsAt(s, q) {
      PieceSettled(s, p, q);
      SplitFromSettled(s, RunEnd(s, q), RunEnd(s, q));
    } else {
      SplitFromSettled(s, p, q + 1);
    }
  }

  lemma SettledConcat(x: string, y: string)
    requires Settled(x) && Settled(y)
    ensures Settled(x + y)
  {
    var z := x + y;
    forall i | 0 <= i < |z| && !IsAlnum(z[i]) ensures i + 1 < |z| && !IsLetter(z[i + 1]) {
      if i < |x| {
        assert x[i] == z[i];
      } else {
        assert y[i - |x|] == z[i];
      }
    }
  }

  lemma {:induction false} SettledJoin(parts: seq<string>)
    requires forall k :: 0 <= k < |parts| ==> Settled(parts[k])
    ensures Settled(Join(parts, ""))
  {
    if |parts| >= 2 {
      SettledJoin(parts[1..]);
      SettledConcat(parts[0], Join(parts[1..], ""));
      assert parts[0] + "" == parts[0];
    }
  }

  lemma {:induction false} JoinHead(parts: seq<string>)
    requires |parts| > 0 && |parts[0]| > 0
    ensures |Join(parts, "")| > 0 && Join(parts, "")[0] == parts[0][0]
  {
  }

  lemma SettledUcFirst(x: string)
    requires Settled(x)
    ensures Settled(UcFirst(x))
  {
    var y := UcFirst(x);
    forall i | 0 <= i < |y| && !IsAlnum(y[i]) ensures i + 1 < |y| && !IsLetter(y[i + 1]) {
      assert i > 0 ==> y[i] == x[i];
      assert i == 0 ==> (IsAlnum(y[0]) <==> IsAlnum(x[0]));
      assert y[i + 1] == x[i + 1] || i + 1 >= |x|;
    }
  }

  /** The output of `pascalCase` is settled and does not start with a lower-case letter. */
  lemma PascalCaseShape(text: string)
    ensures Settled(PascalCase(text))
    ensures |PascalCase(text)| > 0 ==> !IsLower(PascalCase(text)[0])
  {
    var pieces := SplitFrom(text, 0, 0);
    SplitFromSettled(text, 0, 0);
    var kept := Filter(pieces, NonEmpty);
    var caps := Map(UcFirst, kept);
    forall k | 0 <= k < |caps| ensures Settled(caps[k]) {
      assert kept[k] in kept;
      assert kept[k] in pieces;
      SettledUcFirst(kept[k]);
    }
    SettledJoin(caps);
    if |caps| > 0 {
      assert kept[0] in kept;
      JoinHead(caps);
    }
  }

  lemma SettledHasNoSplit(r: string)
    requires Settled(r)
    ensures forall j :: 0 <= j <= |r| ==> !SplitsAt(r, j)
  {
    forall j | 0 <= j <= |r| ensures !SplitsAt(r, j) {
      if j < |r| && !IsAlnum(r[j]) {
        var e := RunEnd(r, j);
        assert e > j by { assert RunEnd(r, j) == RunEnd(r, j + 1); }
        assert !IsAlnum(r[e - 1]);
      }
    }
  }

  lemma {:induction false} NoSplitOnePiece(s: string, p: nat, q: nat)
    requires p <= q <= |s|
    requires forall j :: q <= j <= |s| ==> !SplitsAt(s, j)
    ensures SplitFrom(s, p, q) == [s[p..]]
    decreases |s| - q
  {
    if q < |s| {
      NoSplitOnePiece(s, p, q + 1);
    }
  }

  /** A string with no separator is one piece, so `pascalCase` only upper-cases its head. */
  lemma PascalCaseOfSettled(r: string)
    requires Settled(r)
    ensures PascalCase(r) == UcFirst(r)
  {
    SettledHasNoSplit(r);
    NoSplitOnePiece(r, 0, 0);
    assert r[0..] == r;
  }

  /** Applying `pascalCase` twice is the same as applying it once. */
  lemma PascalCaseIdempotent(text: string)
    ensures PascalCase(PascalCase(text)) == PascalCase(text)
  {
    PascalCaseShape(text);
    PascalCaseOfSettled(PascalCase(text));
  }

  /** A purely alphanumeric word only has its first letter upper-cased. */
  lemma PascalCaseOfAlnum(text: string)
    requires forall i :: 0 <= i < |text| ==> IsAlnum(text[i])
    ensures PascalCase(text) == UcFirst(text)
  {
    assert Settled(text);
    PascalCaseOfSettled(text);
  }

  // ----- toJsIdentifier

  /** Start of the maximal run of word characters that ends at `e`. */
  function WordRunStart(s: string, e: nat): (j: nat)
    requires e <= |s|
    ensures j <= e
    ensures forall k :: j <= k < e ==> IsWordChar(s[k])
    ensures j > 0 ==> !IsWordChar(s[j - 1])
  {
    if e > 0 && IsWordChar(s[e - 1]) then WordRunStart(s, e - 1) else e
  }

  /** `.replace(/(\w+)\[\]$/, (_, m) => plural(m))` */
  function PluralizeArraySuffix(s: string, inf: Inflector): string {
    if |s| >= 3 && s[|s| - 2] == '[' && s[|s| - 1] == ']' && IsWordChar(s[|s| - 3]) then
      var j := WordRunStart(s, |s| - 2);
      s[..j] + Plural(inf, s[j..|s| - 2])
    else s
  }

  /** End of the maximal run of non-word characters that starts at `i`. */
  function NonWordRunEnd(s: string, i: nat): (e: nat)
    requires i <= |s|
    ensures i <= e <= |s|
    ensures forall k :: i <= k < e ==> !IsWordChar(s[k])
    ensures e < |s| ==> IsWordChar(s[e])
    decreases |s| - i
  {
    if i < |s| && !IsWordChar(s[i]) then NonWordRunEnd(s, i + 1) else i
  }

  /** `.replaceAll(/[^\w]+(\w)/g, (_, m) => m.toUpperCase())` */
  function CamelJoin(s: string): string
    decreases |s|
  {
    if s == [] then []
    else if IsWordChar(s[0]) then [s[0]] + CamelJoin(s[1..])
    else
      var e := NonWordRunEnd(s, 0);
      if e < |s| then [ToUpper(s[e])] + CamelJoin(s[e + 1..]) else s
  }

  /** `.replaceAll(/[^\w]+/g, "")` */
  function DropNonWord(s: string): (r: string)
    ensures AllWord(r)
  {
    if s == [] then []
    else if IsWordChar(s[0]) then [s[0]] + DropNonWord(s[1..])
    else DropNonWord(s[1..])
  }

  /** `toJsIdentifier`: the result consists of word characters only. */
  function ToJsIdentifier(text: string, inf: Inflector): (r: string)
    ensures AllWord(r)
  {
    DropNonWord(CamelJoin(PluralizeArraySuffix(text, inf)))
  }

  lemma {:induction false} CamelJoinOfWord(s: string)
    requires AllWord(s)
    ensures CamelJoin(s) == s
  {
    if s != [] {
      CamelJoinOfWord(s[1..]);
    }
  }

  lemma {:induction false} DropNonWordOfWord(s: string)
    requires AllWord(s)
    ensures DropNonWord(s) == s
  {
    if s != [] {
      DropNonWordOfWord(s[1..]);
    }
  }

  /** A valid identifier is kept as it is. */
  lemma ToJsIdentifierOfWord(text: string, inf: Inflector)
    requires AllWord(text)
    ensures ToJsIdentifier(text, inf) == text
  {
    CamelJoinOfWord(text);
    DropNonWordOfWord(text);
  }

  /** `toJsIdentifier` is idempotent. */
  lemma ToJsIdentifierIdempotent(text: string, inf: Inflector)
    ensures ToJsIdentifier(ToJsIdentifier(text, inf), inf) == ToJsIdentifier(text, inf)
  {
    ToJsIdentifierOfWord(ToJsIdentifier(text, inf), inf);
  }

  lemma {:induction false} CamelJoinWordPrefix(a: string, rest: string)
    requires AllWord(a)
    ensures CamelJoin(a + rest) == a + CamelJoin(rest)
  {
    if a != [] {
      assert (a + rest)[1..] == a[1..] + rest;
      CamelJoinWordPrefix(a[1..], rest);
    } else {
      assert a + rest == rest;
    }
  }

  lemma NoArraySuffix(s: string, inf: Inflector)
    requires |s| > 0 && IsWordChar(s[|s| - 1])
    ensures PluralizeArraySuffix(s, inf) == s
  {
  }

  lemma CamelJoinAfterRun(w: string, c: char, b: string)
    requires AllWord(b) && IsWordChar(c)
    requires |w| > 0 && forall k :: 0 <= k < |w| ==> !IsWordChar(w[k])
    ensures CamelJoin(w + [c] + b) == [ToUpper(c)] + b
  {
    var tail := w + [c] + b;
    NonWordRunEndAt(tail, 0, |w|);
    assert tail[|w| + 1..] == b;
    assert tail[|w|] == c;
    assert !IsWordChar(tail[0]);
    CamelJoinOfWord(b);
  }

  /** A run of separators between two words disappears and upper-cases the next character. */
  lemma ToJsIdentifierJoinsWords(a: string, w: string, c: char, b: string, inf: Inflector)
    requires AllWord(a) && AllWord(b) && IsWordChar(c)
    requires |w| > 0 && forall k :: 0 <= k < |w| ==> !IsWordChar(w[k])
    ensures ToJsIdentifier(a + w + [c] + b, inf) == a + [ToUpper(c)] + b
  {
    var tail := w + [c] + b;
    var s := a + tail;
    assert a + w + [c] + b == s;
    assert s[|s| - 1] == tail[|tail| - 1];
    assert IsWordChar(tail[|tail| - 1]);
    NoArraySuffix(s, inf);
    CamelJoinWordPrefix(a, tail);
    CamelJoinAfterRun(w, c, b);
    var r := a + ([ToUpper(c)] + b);
    assert IsWordChar(ToUpper(c));
    assert AllWord(r);
    DropNonWordOfWord(r);
    assert a + [ToUpper(c)] + b == r;
  }

  lemma {:induction false} NonWordRunEndAt(s: string, i: nat, e: nat)
    requires i <= e < |s|
    requires forall k :: i <= k < e ==> !IsWordChar(s[k])
    requires IsWordChar(s[e])
    ensures NonWordRunEnd(s, i) == e
    decreases e - i
  {
    if i < e {
      NonWordRunEndAt(s, i + 1, e);
    }
  }

  // ----- other helpers

  /** `toJsObjKey`: kept as is exactly when it starts with an ASCII letter, JSON-quoted otherwise. */
  function ToJsObjKey(text: string): (r: string)
    ensures r == text <==> |text| > 0 && IsLetter(text[0])
    ensures r != text ==> r == Quote(text)
  {
    if |text| > 0 && IsLetter(text[0]) then text else Quote(text)
  }

  /** `apiPlatformTypeToTypescript` */
  function ApiPlatformTypeToTypescript(t: string): (r: string)
    ensures t == "integer" ==> r == "number"
    ensures t != "integer" ==> r == t
  {
    if t == "integer" then "number" else t
  }

  /** `.replace(/Schema$/, "")` */
  function StripSchemaSuffix(name: string): (r: string)
    ensures EndsWith(name, "Schema") ==> r + "Schema" == name
    ensures !EndsWith(name, "Schema") ==> r == name
  {
    if EndsWith(name, "Schema") then name[..|name| - 6] else name
  }

  /** `importFromZodSchemaName`: with `tsType` the type (the name without `Schema`) is imported too. */
  function ImportFromZodSchemaName(zodSchemaName: string, importPrefix: string, tsType: bool): (r: string)
    ensures tsType ==> StartsWith(r, "import { " + StripSchemaSuffix(zodSchemaName) + ", " + zodSchemaName + " }")
    ensures !tsType ==> StartsWith(r, "import { " + zodSchemaName + " }")
    ensures EndsWith(r, " from \"" + importPrefix + "/schemas/" + zodSchemaName + "\";")
  {
    var names := (if tsType then StripSchemaSuffix(zodSchemaName) + ", " else "") + zodSchemaName;
    var head := "import { " + names + " }";
    var tail := " from \"" + importPrefix + "/schemas/" + zodSchemaName + "\";";
    assert (head + tail)[..|head|] == head;
    assert (head + tail)[|head + tail| - |tail|..] == tail;
    head + tail
  }
}
