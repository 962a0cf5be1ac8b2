/** The few JavaScript string operations the client relies on:
    `String.prototype.trim`, `startsWith`, `split` on one character and
    `indexOf`. Strings are sequences of characters; JavaScript counts UTF-16
    code units instead, and the two agree on text without astral characters. */
module Text {

  /** The characters `trim` removes: ECMAScript WhiteSpace and LineTerminator. */
  predicate IsWhitespace(c: char) {
    || c == ' ' || c == '\t' || c == '\n' || c == '\r'
    || c == '\U{000B}' || c == '\U{000C}' || c == '\U{00A0}' || c == '\U{1680}'
    || ('\U{2000}' <= c <= '\U{200A}')
    || c == '\U{2028}' || c == '\U{2029}' || c == '\U{202F}' || c == '\U{205F}'
    || c == '\U{3000}' || c == '\U{FEFF}'
  }

  /** Neither end of `s` is whitespace. */
  predicate IsTrimmed(s: string) {
    s == [] || (!IsWhitespace(s[0]) && !IsWhitespace(s[|s| - 1]))
  }

  predicate IsBlank(s: string) {
    forall i :: 0 <= i < |s| ==> IsWhitespace(s[i])
  }

  /** `trimStart`: drops the leading whitespace and nothing else. */
  function TrimStart(s: string): (r: string)
    ensures |r| <= |s| && r == s[|s| - |r|..]
    ensures r != [] ==> !IsWhitespace(r[0])
  {
    if s != [] && IsWhitespace(s[0]) then TrimStart(s[1..]) else s
  }

  /** What `trimStart` drops is whitespace. */
  lemma {:induction false} TrimStartDropsWhitespace(s: string)
    ensures forall i :: 0 <= i < |s| - |TrimStart(s)| ==> IsWhitespace(s[i])
  {
    if s != [] && IsWhitespace(s[0]) {
      TrimStartDropsWhitespace(s[1..]);
      forall i | 1 <= i < |s| - |TrimStart(s)| ensures IsWhitespace(s[i]) {
        assert s[i] == s[1..][i - 1];
      }
    }
  }

  /** `trimEnd`: drops the trailing whitespace and nothing else. */
  function TrimEnd(s: string): (r: string)
    ensures |r| <= |s| && r == s[..|r|]
    ensures r != [] ==> !IsWhitespace(r[|r| - 1])
  {
    if s != [] && IsWhitespace(s[|s| - 1]) then TrimEnd(s[..|s| - 1]) else s
  }

  /** What `trimEnd` drops is whitespace. */
  lemma {:induction false} TrimEndDropsWhitespace(s: string)
    ensures forall i :: |TrimEnd(s)| <= i < |s| ==> IsWhitespace(s[i])
  {
    if s != [] && IsWhitespace(s[|s| - 1]) {
      TrimEndDropsWhitespace(s[..|s| - 1]);
      forall i | |TrimEnd(s)| <= i < |s| - 1 ensures IsWhitespace(s[i]) {
        assert s[i] == s[..|s| - 1][i];
      }
    }
  }

  /** `trim`: the result has no whitespace at either end, a string that has
      none is returned unchanged, and exactly the blank strings trim to "". */
  function Trim(s: string): (r: string)
    ensures IsTrimmed(r)
    ensures IsTrimmed(s) ==> r == s
    ensures r == [] <==> IsBlank(s)
    ensures forall c :: c in r ==> c in s
  {
    TrimFacts(s);
    TrimEnd(TrimStart(s))
  }

  lemma TrimFacts(s: string)
    ensures var r := TrimEnd(TrimStart(s));
      && IsTrimmed(r)
      && (IsTrimmed(s) ==> r == s)
      && (r == [] <==> IsBlank(s))
      && (forall c :: c in r ==> c in s)
  {
    TrimBothEnds(s);
    if IsTrimmed(s) {
      TrimUnchanged(s);
    }
    TrimBlank(s);
    TrimChars(s);
  }

  lemma TrimBothEnds(s: string)
    ensures IsTrimmed(TrimEnd(TrimStart(s)))
  {
    var t := TrimStart(s);
    var r := TrimEnd(t);
    if r != [] {
      assert r[0] == t[0];
    }
  }

  lemma TrimUnchanged(s: string)
    requires IsTrimmed(s)
    ensures TrimEnd(TrimStart(s)) == s
  {
    if s != [] {
      assert TrimStart(s) == s;
      assert TrimEnd(s) == s;
    }
  }

  lemma TrimBlank(s: string)
    ensures TrimEnd(TrimStart(s)) == [] <==> IsBlank(s)
  {
    var t := TrimStart(s);
    TrimStartDropsWhitespace(s);
    TrimEndDropsWhitespace(t);
    assert t != [] ==> t[0] == s[|s| - |t|];
  }

  lemma TrimChars(s: string)
    ensures forall c :: c in TrimEnd(TrimStart(s)) ==> c in s
  {
    var t := TrimStart(s);
    var r := TrimEnd(t);
    SliceChars(t, 0, |r|);
    SliceChars(s, |s| - |t|, |s|);
  }

  /** A slice holds no element its sequence lacks. */
  lemma SliceChars<T>(s: seq<T>, a: nat, b: nat)
    requires a <= b <= |s|
    ensures forall c :: c in s[a..b] ==> c in s
  {
    forall c | c in s[a..b] ensures c in s {
      var j :| 0 <= j < b - a && s[a..b][j] == c;
      assert s[a + j] == c;
    }
  }

  /** Prepending whitespace to a trimmed string is undone by `trim`. */
  lemma TrimLeadingSpace(e: string)
    requires IsTrimmed(e) && e != []
    ensures Trim([' '] + e) == e
  {
    TrimStartSkips(' ', e);
    TrimStartKeeps(e);
    TrimEndKeeps(e);
  }

  lemma TrimStartSkips(c: char, e: string)
    requires IsWhitespace(c)
    ensures TrimStart([c] + e) == TrimStart(e)
  {
    assert ([c] + e)[1..] == e;
  }

  lemma TrimStartKeeps(s: string)
    requires s != [] && !IsWhitespace(s[0])
    ensures TrimStart(s) == s
  {
  }

  lemma TrimEndKeeps(s: string)
    requires s != [] && !IsWhitespace(s[|s| - 1])
    ensures TrimEnd(s) == s
  {
  }

  predicate StartsWith(s: string, prefix: string) {
    |prefix| <= |s| && s[..|prefix|] == prefix
  }

  /** `indexOf` of a character known to occur: the position of its first occurrence. */
  function IndexOf(s: string, c: char): (i: nat)
    requires c in s
    ensures i < |s| && s[i] == c && c !in s[..i]
  {
    if s[0] == c then 0
    else
      var k := IndexOf(s[1..], c);
      assert s[..k + 1] == [s[0]] + s[1..][..k];
      k + 1
  }

  /** `s.split(d)` for a one-character separator: the pieces between
      separators, in order, never fewer than one. */
  function Split(s: string, d: char): (parts: seq<string>)
    ensures |parts| >= 1
    ensures forall i :: 0 <= i < |parts| ==> d !in parts[i]
  {
    if s == [] then [""]
    else
      var rest := Split(s[1..], d);
      if s[0] == d then [""] + rest else [[s[0]] + rest[0]] + rest[1..]
  }

  /** `parts.join(d)` */
  function Join(parts: seq<string>, d: char): string {
    if parts == [] then ""
    else if |parts| == 1 then parts[0]
    else parts[0] + [d] + Join(parts[1..], d)
  }

  /** `[a, b, c, e].join(d)` written out, one separated piece at a time. */
  lemma JoinFour(a: string, b: string, c: string, e: string, d: char)
    ensures Join([a, b, c, e], d) == a + ([d] + b) + ([d] + c) + ([d] + e)
  {
    assert [c, e][1..] == [e];
    assert Join([c, e], d) == c + [d] + e;
    assert [b, c, e][1..] == [c, e];
    assert Join([b, c, e], d) == b + [d] + (c + [d] + e);
    assert [a, b, c, e][1..] == [b, c, e];
    assert Join([a, b, c, e], d) == a + [d] + (b + [d] + (c + [d] + e));
  }

  /** `[a, b, c, e, f].join(d)` written out, one separated piece at a time. */
  lemma JoinFive(a: string, b: string, c: string, e: string, f: string, d: char)
    ensures Join([a, b, c, e, f], d) == a + ([d] + b) + ([d] + c) + ([d] + e) + ([d] + f)
  {
    assert [e, f][1..] == [f];
    assert Join([e, f], d) == e + [d] + f;
    assert [c, e, f][1..] == [e, f];
    assert Join([c, e, f], d) == c + [d] + (e + [d] + f);
    assert [b, c, e, f][1..] == [c, e, f];
    assert Join([b, c, e, f], d) == b + [d] + (c + [d] + (e + [d] + f));
    assert [a, b, c, e, f][1..] == [b, c, e, f];
    assert Join([a, b, c, e, f], d) == a + [d] + (b + [d] + (c + [d] + (e + [d] + f)));
  }

  /** Joining the pieces of a split gives back the original string. */
  lemma {:induction false} JoinSplit(s: string, d: char)
    ensures Join(Split(s, d), d) == s
  {
    if s != [] {
      JoinSplit(s[1..], d);
      var rest := Split(s[1..], d);
      if s[0] == d {
        assert Join(Split(s, d), d) == "" + [d] + Join(rest, d);
      } else if |rest| == 1 {
        assert Join(Split(s, d), d) == [s[0]] + rest[0];
      } else {
        var parts := Split(s, d);
        assert parts[1..] == rest[1..];
        assert Join(parts, d) == [s[0]] + rest[0] + [d] + Join(rest[1..], d);
      }
    }
  }

  lemma {:induction false} SplitWithoutSeparator(x: string, d: char)
    requires d !in x
    ensures Split(x, d) == [x]
  {
    if x != [] {
      SplitWithoutSeparator(x[1..], d);
      assert [x[0]] + x[1..] == x;
    }
  }

  lemma {:induction false} SplitAtSeparator(x: string, y: string, d: char)
    requires d !in x
    ensures Split(x + [d] + y, d) == [x] + Split(y, d)
  {
    var s := x + [d] + y;
    if x == [] {
      assert s[1..] == y;
    } else {
      assert s[1..] == x[1..] + [d] + y;
      SplitAtSeparator(x[1..], y, d);
      assert [x[0]] + x[1..] == x;
    }
  }

  /** Splitting a join of separator-free pieces gives back the pieces. */
  lemma {:induction false} SplitJoin(parts: seq<string>, d: char)
    requires parts != []
    requires forall i :: 0 <= i < |parts| ==> d !in parts[i]
    ensures Split(Join(parts, d), d) == parts
  {
    if |parts| == 1 {
      SplitWithoutSeparator(parts[0], d);
    } else {
      SplitJoin(parts[1..], d);
      SplitAtSeparator(parts[0], Join(parts[1..], d), d);
      assert [parts[0]] + parts[1..] == parts;
    }
  }

  /** `xs.map((x) => x.trim())` */
  function TrimAll(xs: seq<string>): (ys: seq<string>)
    ensures |ys| == |xs|
    ensures forall i :: 0 <= i < |xs| ==> ys[i] == Trim(xs[i])
  {
    if xs == [] then [] else [Trim(xs[0])] + TrimAll(xs[1..])
  }
}
