/** String rules of JavaScript that the extension relies on: white space, `trim`, the
    `/\s+/g` collapse, `includes`, `startsWith`/`endsWith`, `toLowerCase` and `join`. */
module Text {

  /** JavaScript's WhiteSpace and LineTerminator characters: exactly what `trim` removes and
      what the regular-expression class `\s` matches. */
  predicate IsSpace(c: char) {
    c in SpaceChars
  }

  const SpaceChars: set<char> := {
    ' ', '\t', '\n', '\r', '\U{000B}', '\U{000C}', '\U{00A0}', '\U{FEFF}', '\U{1680}',
    '\U{2000}', '\U{2001}', '\U{2002}', '\U{2003}', '\U{2004}', '\U{2005}', '\U{2006}',
    '\U{2007}', '\U{2008}', '\U{2009}', '\U{200A}',
    '\U{2028}', '\U{2029}', '\U{202F}', '\U{205F}', '\U{3000}'}

  predicate AllSpace(s: string) {
    forall i :: 0 <= i < |s| ==> IsSpace(s[i])
  }

  /** Drops the leading white space. */
  function TrimStart(s: string): (r: string)
    ensures |r| <= |s| && r == s[|s| - |r|..]
    ensures r == [] || !IsSpace(r[0])
  {
    if s != [] && IsSpace(s[0]) then TrimStart(s[1..]) else s
  }

  /** Drops the trailing white space. */
  function TrimEnd(s: string): (r: string)
    ensures |r| <= |s| && r == s[..|r|]
    ensures r == [] || !IsSpace(r[|r| - 1])
  {
    if s != [] && IsSpace(s[|s| - 1]) then TrimEnd(s[..|s| - 1]) else s
  }

  /** What `TrimStart` drops is white space. */
  lemma {:induction false} TrimStartDropsSpace(s: string)
    ensures AllSpace(s[..|s| - |TrimStart(s)|])
  {
    if s != [] && IsSpace(s[0]) {
      TrimStartDropsSpace(s[1..]);
      var n := |s| - |TrimStart(s)|;
      forall i | 0 <= i < n ensures IsSpace(s[..n][i]) {
        if i > 0 { assert s[..n][i] == s[1..][..n - 1][i - 1]; }
      }
    }
  }

  /** What `TrimEnd` drops is white space. */
  lemma {:induction false} TrimEndDropsSpace(s: string)
    ensures AllSpace(s[|TrimEnd(s)|..])
  {
    if s != [] && IsSpace(s[|s| - 1]) {
      var p := s[..|s| - 1];
      TrimEndDropsSpace(p);
      var n := |TrimEnd(s)|;
      forall i | n <= i < |s| ensures IsSpace(s[i]) {
        if i < |s| - 1 { assert s[i] == p[n..][i - n]; }
      }
    }
  }

  /** `String.prototype.trim`. */
  function Trim(s: string): (r: string)
    ensures |r| <= |s|
    ensures r == [] || (!IsSpace(r[0]) && !IsSpace(r[|r| - 1]))
    ensures r == [] <==> AllSpace(s)
    ensures exists k :: TrimmedAt(s, r, k)
  {
    TrimFrame(s);
    TrimEmptyWhenAllSpace(s);
    TrimEnd(TrimStart(s))
  }

  /** `r` is `s` with only white space before index `k` and after `r` removed. */
  predicate TrimmedAt(s: string, r: string, k: int) {
    0 <= k && k + |r| <= |s| && AllSpace(s[..k]) && s[k..k + |r|] == r && AllSpace(s[k + |r|..])
  }

  lemma TrimFrame(s: string)
    ensures TrimmedAt(s, TrimEnd(TrimStart(s)), |s| - |TrimStart(s)|)
  {
    TrimStartDropsSpace(s);
    TrimEndDropsSpace(TrimStart(s));
    FrameOf(s, TrimStart(s), TrimEnd(TrimStart(s)));
  }

  /** A suffix `t` of `s` after white space, and a prefix `r` of `t` before white space. */
  lemma FrameOf(s: string, t: string, r: string)
    requires |t| <= |s| && t == s[|s| - |t|..] && AllSpace(s[..|s| - |t|])
    requires |r| <= |t| && r == t[..|r|] && AllSpace(t[|r|..])
    ensures TrimmedAt(s, r, |s| - |t|)
  {
    var k := |s| - |t|;
    assert s[k..k + |r|] == s[k..][..|r|];
    assert s[k + |r|..] == t[|r|..];
  }

  lemma TrimEmptyWhenAllSpace(s: string)
    ensures (TrimEnd(TrimStart(s)) == []) <==> AllSpace(s)
  {
    if TrimEnd(TrimStart(s)) == [] {
      EmptyTrimIsAllSpace(s);
    } else {
      NonEmptyTrimHasNonSpace(s);
    }
  }

  lemma EmptyTrimIsAllSpace(s: string)
    requires TrimEnd(TrimStart(s)) == []
    ensures AllSpace(s)
  {
    TrimEndKeepsFirst(TrimStart(s));
    TrimStartEmpty(s);
  }

  /** `TrimEnd` never drops a first character that is not white space. */
  lemma {:induction false} TrimEndKeepsFirst(t: string)
    ensures t != [] && !IsSpace(t[0]) ==> TrimEnd(t) != []
    decreases |t|
  {
    if |t| > 1 && IsSpace(t[|t| - 1]) {
      TrimEndKeepsFirst(t[..|t| - 1]);
    }
  }

  /** Only an all-white-space text loses everything to `TrimStart`. */
  lemma {:induction false} TrimStartEmpty(s: string)
    ensures TrimStart(s) == [] ==> AllSpace(s)
    decreases |s|
  {
    if s != [] && IsSpace(s[0]) {
      TrimStartEmpty(s[1..]);
      AllSpaceCons(s);
    }
  }

  lemma NonEmptyTrimHasNonSpace(s: string)
    requires TrimEnd(TrimStart(s)) != []
    ensures !AllSpace(s)
  {
    var t := TrimStart(s);
    var k := |s| - |t|;
    assert t[0] == TrimEnd(t)[0];
    assert s[k] == t[0];
    assert !IsSpace(s[k]);
  }

  /** `trim` removes only white space: every other character keeps its count. */
  lemma TrimKeepsNonSpace(s: string, c: char)
    requires !IsSpace(c)
    ensures multiset(Trim(s))[c] == multiset(s)[c]
  {
    TrimStartKeepsNonSpace(s, c);
    TrimEndKeepsNonSpace(TrimStart(s), c);
  }

  lemma {:induction false} TrimStartKeepsNonSpace(s: string, c: char)
    requires !IsSpace(c)
    ensures multiset(TrimStart(s))[c] == multiset(s)[c]
    decreases |s|
  {
    if s != [] && IsSpace(s[0]) {
      TrimStartKeepsNonSpace(s[1..], c);
      CountWithoutFirst(s, c);
    }
  }

  lemma {:induction false} TrimEndKeepsNonSpace(s: string, c: char)
    requires !IsSpace(c)
    ensures multiset(TrimEnd(s))[c] == multiset(s)[c]
    decreases |s|
  {
    if s != [] && IsSpace(s[|s| - 1]) {
      TrimEndKeepsNonSpace(s[..|s| - 1], c);
      CountWithoutLast(s, c);
    }
  }

  /** Dropping a first or last character other than `c` keeps the count of `c`. */
  lemma CountWithoutFirst(s: string, c: char)
    requires s != [] && s[0] != c
    ensures multiset(s[1..])[c] == multiset(s)[c]
  {
    assert s == [s[0]] + s[1..];
  }

  lemma CountWithoutLast(s: string, c: char)
    requires s != [] && s[|s| - 1] != c
    ensures multiset(s[..|s| - 1])[c] == multiset(s)[c]
  {
    assert s == s[..|s| - 1] + [s[|s| - 1]];
  }

  /** Removes every character of `bad`, keeping the others in order (`replace(/[...]/g, '')`). */
  function RemoveChars(s: string, bad: set<char>): (r: string)
    ensures |r| <= |s|
    ensures forall i :: 0 <= i < |r| ==> r[i] !in bad
    ensures forall c {:trigger multiset(r)[c]} :: c !in bad ==> multiset(r)[c] == multiset(s)[c]
  {
    if s == [] then []
    else
      var rest := RemoveChars(s[1..], bad);
      assert s == [s[0]] + s[1..];
      if s[0] in bad then rest else [s[0]] + rest
  }

  /** Removal works character by character: a kept character stays, a removed one goes, and
      the result of a concatenation is the concatenation of the results, so the kept
      characters keep their order. */
  lemma {:induction false} RemoveCharsConcat(a: string, b: string, bad: set<char>)
    ensures RemoveChars(a + b, bad) == RemoveChars(a, bad) + RemoveChars(b, bad)
    ensures |a| == 1 ==> RemoveChars(a, bad) == (if a[0] in bad then [] else a)
    decreases |a|
  {
    if a == [] {
      assert a + b == b;
    } else {
      RemoveCharsConcat(a[1..], b, bad);
      RemoveCharsHead(a, b, bad);
      PrependAssoc(RemoveChars(a + b, bad), RemoveChars(a, bad), if a[0] in bad then [] else [a[0]],
                   RemoveChars(a[1..], bad), RemoveChars(b, bad));
    }
  }

  /** One unfolding of the removal on `a` and on `a + b`. */
  lemma RemoveCharsHead(a: string, b: string, bad: set<char>)
    requires a != []
    ensures RemoveChars(a + b, bad) == (if a[0] in bad then [] else [a[0]]) + RemoveChars(a[1..] + b, bad)
    ensures RemoveChars(a, bad) == (if a[0] in bad then [] else [a[0]]) + RemoveChars(a[1..], bad)
  {
    assert (a + b)[0] == a[0] && (a + b)[1..] == a[1..] + b;
  }

  lemma PrependAssoc(ab: string, a: string, h: string, t: string, b: string)
    requires ab == h + (t + b) && a == h + t
    ensures ab == a + b
  {
  }

  /** The characters of `s` that are not white space, in order. */
  function NonSpace(s: string): (r: string)
    ensures forall i :: 0 <= i < |r| ==> !IsSpace(r[i])
  {
    if s == [] then [] else (if IsSpace(s[0]) then [] else [s[0]]) + NonSpace(s[1..])
  }

  lemma {:induction false} TrimStartNonSpace(s: string)
    ensures NonSpace(TrimStart(s)) == NonSpace(s)
    decreases |s|
  {
    if s != [] && IsSpace(s[0]) {
      TrimStartNonSpace(s[1..]);
    }
  }

  /** Dropping leading white space from a concatenation. */
  lemma {:induction false} TrimStartConcat(a: string, b: string)
    ensures AllSpace(a) ==> TrimStart(a + b) == TrimStart(b)
    ensures !AllSpace(a) ==> TrimStart(a + b) == TrimStart(a) + b
    decreases |a|
  {
    if a == [] {
      assert a + b == b;
    } else {
      AllSpaceCons(a);
      assert (a + b)[0] == a[0] && (a + b)[1..] == a[1..] + b;
      if IsSpace(a[0]) {
        TrimStartConcat(a[1..], b);
      }
    }
  }

  lemma AllSpaceCons(a: string)
    requires a != []
    ensures AllSpace(a) <==> IsSpace(a[0]) && AllSpace(a[1..])
  {
    if IsSpace(a[0]) && AllSpace(a[1..]) {
      forall i | 0 <= i < |a| ensures IsSpace(a[i]) {
        if i > 0 { assert a[i] == a[1..][i - 1]; }
      }
    }
  }

  /** `replace(/\s+/g, ' ')`: every maximal run of white space becomes one space. */
  function CollapseSpaces(s: string): (r: string)
    ensures |r| <= |s|
    ensures NonSpace(r) == NonSpace(s)
    ensures r == [] <==> s == []
    ensures s != [] && !IsSpace(s[0]) ==> r[0] == s[0]
    ensures forall i :: 0 <= i < |r| && IsSpace(r[i]) ==> r[i] == ' '
    ensures forall i :: 0 <= i < |r| - 1 && r[i] == ' ' ==> !IsSpace(r[i + 1])
    decreases |s|
  {
    if s == [] then []
    else if IsSpace(s[0]) then
      var t := TrimStart(s);
      assert |t| < |s|;
      TrimStartNonSpace(s);
      [' '] + CollapseSpaces(t)
    else [s[0]] + CollapseSpaces(s[1..])
  }

  /** A non-empty run of white space collapses to one space, and the collapse of a text cut
      anywhere outside such a run is the collapse of the two pieces put together; with the
      non-space characters kept (the contract above), this fixes every output. */
  lemma {:induction false} CollapseConcat(a: string, b: string)
    requires a == [] || b == [] || !IsSpace(a[|a| - 1]) || !IsSpace(b[0])
    ensures CollapseSpaces(a + b) == CollapseSpaces(a) + CollapseSpaces(b)
    decreases |a|
  {
    if a == [] {
      assert a + b == b;
    } else if b == [] {
      assert a + b == a;
    } else if !IsSpace(a[0]) {
      CollapseConcat(a[1..], b);
      CollapseCharStep(a, b);
    } else if AllSpace(a) {
      CollapseRunConcat(a, b);
    } else {
      TrimStartKeepsLast(a);
      CollapseConcat(TrimStart(a), b);
      CollapseSpaceStep(a, b);
    }
  }

  /** The step of `CollapseConcat` past a first character that is not white space. */
  lemma CollapseCharStep(a: string, b: string)
    requires a != [] && !IsSpace(a[0])
    requires CollapseSpaces(a[1..] + b) == CollapseSpaces(a[1..]) + CollapseSpaces(b)
    ensures CollapseSpaces(a + b) == CollapseSpaces(a) + CollapseSpaces(b)
  {
    CollapseHead(a, b);
  }

  /** The step of `CollapseConcat` past leading white space that is not the whole of `a`. */
  lemma CollapseSpaceStep(a: string, b: string)
    requires a != [] && IsSpace(a[0]) && !AllSpace(a)
    requires CollapseSpaces(TrimStart(a) + b) == CollapseSpaces(TrimStart(a)) + CollapseSpaces(b)
    ensures CollapseSpaces(a + b) == CollapseSpaces(a) + CollapseSpaces(b)
  {
    var t := TrimStart(a);
    CollapseHead(a, b);
    TrimStartConcat(a, b);
    SpaceInFront(CollapseSpaces(a + b), CollapseSpaces(a), CollapseSpaces(t), CollapseSpaces(b));
  }

  lemma SpaceInFront(ab: string, a: string, t: string, b: string)
    requires ab == " " + (t + b) && a == " " + t
    ensures ab == a + b
  {
  }

  /** A white-space run followed by text that starts with no white space. */
  lemma CollapseRunConcat(a: string, b: string)
    requires a != [] && AllSpace(a) && b != [] && !IsSpace(b[0])
    ensures CollapseSpaces(a + b) == CollapseSpaces(a) + CollapseSpaces(b)
  {
    CollapseHead(a, b);
    TrimStartConcat(a, b);
    CollapseRun(a);
  }

  /** Leading white space gone, a text that is not all white space keeps its last character. */
  lemma {:induction false} TrimStartKeepsLast(a: string)
    requires !AllSpace(a)
    ensures TrimStart(a) != [] && |TrimStart(a)| <= |a|
    ensures TrimStart(a)[|TrimStart(a)| - 1] == a[|a| - 1]
    decreases |a|
  {
    AllSpaceCons(a);
    if IsSpace(a[0]) {
      TrimStartKeepsLast(a[1..]);
    }
  }

  /** One unfolding of the collapse on `a` and on `a + b`. */
  lemma CollapseHead(a: string, b: string)
    requires a != []
    ensures !IsSpace(a[0]) ==> (CollapseSpaces(a + b) == [a[0]] + CollapseSpaces(a[1..] + b)
      && CollapseSpaces(a) == [a[0]] + CollapseSpaces(a[1..]))
    ensures IsSpace(a[0]) ==> (CollapseSpaces(a + b) == " " + CollapseSpaces(TrimStart(a + b))
      && CollapseSpaces(a) == " " + CollapseSpaces(TrimStart(a)))
  {
    assert (a + b)[0] == a[0] && (a + b)[1..] == a[1..] + b;
  }

  lemma CollapseRun(w: string)
    requires w != [] && AllSpace(w)
    ensures CollapseSpaces(w) == " "
  {
    TrimStartConcat(w, []);
    assert w + [] == w;
  }

  /** The page-text digest: the first `limit` characters, then each white-space run collapsed. */
  function Digest(text: string, limit: nat): (r: string)
    ensures |r| <= limit
    ensures NonSpace(r) == NonSpace(if |text| <= limit then text else text[..limit])
    ensures forall i :: 0 <= i < |r| - 1 && r[i] == ' ' ==> !IsSpace(r[i + 1])
  {
    CollapseSpaces(if |text| <= limit then text else text[..limit])
  }

  /** `sub` occurs in `s` starting at index `i`. */
  predicate OccursAt(s: string, sub: string, i: int) {
    0 <= i && i + |sub| <= |s| && s[i..i + |sub|] == sub
  }

  /** `s.includes(sub)`. */
  predicate Contains(s: string, sub: string) {
    exists i :: 0 <= i <= |s| && OccursAt(s, sub, i)
  }

  /** `s.endsWith(suf)`. */
  predicate EndsWith(s: string, suf: string) {
    |suf| <= |s| && s[|s| - |suf|..] == suf
  }

  /** If `c` does not occur in `s`, no string starting with `c` occurs in `s`. */
  lemma NotContainsByFirstChar(s: string, sub: string)
    requires sub != [] && sub[0] !in s
    ensures !Contains(s, sub)
  {
    forall i | 0 <= i <= |s| ensures !OccursAt(s, sub, i) {
      if i + |sub| <= |s| {
        assert s[i..i + |sub|][0] == s[i];
      }
    }
  }

  /** A contained string is contained in any extension on either side. */
  lemma ContainsInConcat(a: string, s: string, b: string, sub: string)
    requires Contains(s, sub)
    ensures Contains(a + s + b, sub)
  {
    var i :| 0 <= i <= |s| && OccursAt(s, sub, i);
    assert (a + s + b)[|a| + i..|a| + i + |sub|] == s[i..i + |sub|];
    assert OccursAt(a + s + b, sub, |a| + i);
  }

  /** ASCII `toLowerCase` of one character. */
  function LowerChar(c: char): char {
    if 'A' <= c <= 'Z' then (c as int + 32) as char else c
  }

  function Lower(s: string): (r: string)
    ensures |r| == |s|
    ensures forall i :: 0 <= i < |s| ==> r[i] == LowerChar(s[i])
  {
    if s == [] then [] else [LowerChar(s[0])] + Lower(s[1..])
  }

  /** `parts.join(sep)`. */
  function Join(parts: seq<string>, sep: string): (r: string)
    ensures parts == [] ==> r == []
    ensures |parts| == 1 ==> r == parts[0]
  {
    if parts == [] then []
    else if |parts| == 1 then parts[0]
    else parts[0] + sep + Join(parts[1..], sep)
  }

  /** Each further part comes after one more separator. */
  lemma {:induction false} JoinAppend(parts: seq<string>, p: string, sep: string)
    requires parts != []
    ensures Join(parts + [p], sep) == Join(parts, sep) + sep + p
    decreases |parts|
  {
    if |parts| == 1 {
      assert (parts + [p])[1..] == [p];
    } else {
      JoinAppend(parts[1..], p, sep);
      assert (parts + [p])[1..] == parts[1..] + [p];
    }
  }
}
