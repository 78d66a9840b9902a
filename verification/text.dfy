/** The three string primitives the dashboard relies on, written out over
    `seq<char>`: ECMAScript's `String.prototype.trim`, `includes` and
    `split` with a one-character separator. */
module Text {

  /** The characters `trim` strips: ECMAScript's WhiteSpace production (tab,
      vertical tab, form feed, space, no-break space, byte order mark and the
      Unicode space separators) and its LineTerminator production. */
  predicate IsWhitespace(c: char) {
    || c == '\t' || c == '\n' || c == '\U{B}' || c == '\U{C}' || c == '\r'
    || c == ' ' || c == '\U{A0}' || c == '\U{1680}'
    || ('\U{2000}' <= c && c <= '\U{200A}')
    || c == '\U{2028}' || c == '\U{2029}' || c == '\U{202F}' || c == '\U{205F}'
    || c == '\U{3000}' || c == '\U{FEFF}'
  }

  ghost predicate AllWhitespace(s: string) {
    forall k :: 0 <= k < |s| ==> IsWhitespace(s[k])
  }

  /** `r` neither starts nor ends with whitespace. */
  ghost predicate Stripped(r: string) {
    r == [] || (!IsWhitespace(r[0]) && !IsWhitespace(r[|r| - 1]))
  }

  /** `s` is `r` placed at offset `i` with nothing but whitespace around it. */
  ghost predicate PaddedAt(s: string, r: string, i: int) {
    && 0 <= i && i + |r| <= |s|
    && s[i..i + |r|] == r
    && AllWhitespace(s[..i])
    && AllWhitespace(s[i + |r|..])
  }

  /** Drops leading whitespace. */
  function TrimStart(s: string): string
    decreases |s|
  {
    if |s| > 0 && IsWhitespace(s[0]) then TrimStart(s[1..]) else s
  }

  /** Drops trailing whitespace. */
  function TrimEnd(s: string): string
    decreases |s|
  {
    if |s| > 0 && IsWhitespace(s[|s| - 1]) then TrimEnd(s[..|s| - 1]) else s
  }

  /** `String.prototype.trim`: the input with whitespace removed at both ends. */
  function Trim(s: string): string {
    TrimEnd(TrimStart(s))
  }

  /** TrimStart keeps a suffix, drops only whitespace, and stops at the
      first character that is not whitespace. */
  lemma {:induction false} TrimStartSpec(s: string)
    ensures var r := TrimStart(s);
      && |r| <= |s| && r == s[|s| - |r|..]
      && AllWhitespace(s[..|s| - |r|])
      && (r == [] || !IsWhitespace(r[0]))
    decreases |s|
  {
    if |s| > 0 && IsWhitespace(s[0]) {
      TrimStartSpec(s[1..]);
      var r := TrimStart(s);
      assert s[1..][..|s| - 1 - |r|] == s[1..|s| - |r|];
      assert s[..|s| - |r|] == [s[0]] + s[1..|s| - |r|];
    }
  }

  /** TrimEnd keeps a prefix, drops only whitespace, and stops at the last
      character that is not whitespace. */
  lemma {:induction false} TrimEndSpec(s: string)
    ensures var r := TrimEnd(s);
      && |r| <= |s| && r == s[..|r|]
      && AllWhitespace(s[|r|..])
      && (r == [] || !IsWhitespace(r[|r| - 1]))
    decreases |s|
  {
    if |s| > 0 && IsWhitespace(s[|s| - 1]) {
      var t := s[..|s| - 1];
      TrimEndSpec(t);
      var r := TrimEnd(s);
      assert t[|r|..] == s[|r|..|s| - 1];
      assert s[|r|..] == s[|r|..|s| - 1] + [s[|s| - 1]];
    }
  }

  /** Trim's result has no whitespace at either end and is surrounded in the
      input by whitespace only. */
  lemma {:induction false} TrimSpec(s: string)
    ensures Stripped(Trim(s))
    ensures PaddedAt(s, Trim(s), |s| - |TrimStart(s)|)
  {
    var t := TrimStart(s);
    var r := TrimEnd(t);
    TrimStartSpec(s);
    TrimEndSpec(t);
    assert s[|s| - |t|..][..|r|] == s[|s| - |t|..|s| - |t| + |r|];
    assert s[|s| - |t| + |r|..] == t[|r|..];
  }

  lemma NotAllWhitespace(s: string, k: int)
    requires 0 <= k < |s| && !IsWhitespace(s[k])
    ensures !AllWhitespace(s)
  {
  }

  lemma PrefixWhitespace(s: string, m: int, k: int)
    requires 0 <= k < m <= |s| && AllWhitespace(s[..m])
    ensures IsWhitespace(s[k])
  {
    assert s[..m][k] == s[k];
  }

  lemma SuffixWhitespace(s: string, m: int, k: int)
    requires 0 <= m <= k < |s| && AllWhitespace(s[m..])
    ensures IsWhitespace(s[k])
  {
    assert s[m..][k - m] == s[k];
  }

  /** Trim's result is the only whitespace-free core: any stripped `r` that
      sits inside `s` with only whitespace around it is `Trim(s)`. */
  lemma {:induction false} TrimUnique(s: string, r: string, i: int)
    requires Stripped(r) && PaddedAt(s, r, i)
    ensures r == Trim(s)
  {
    var t := Trim(s);
    var j := |s| - |TrimStart(s)|;
    TrimSpec(s);
    if r != [] && t != [] {
      // Both start at the first non-whitespace character of s ...
      if i < j { PrefixWhitespace(s, j, i); }
      if j < i { PrefixWhitespace(s, i, j); }
      // ... and both end at its last one.
      var e, f := i + |r|, j + |t|;
      if e < f { SuffixWhitespace(s, e, f - 1); }
      if f < e { SuffixWhitespace(s, f, e - 1); }
    } else if r != [] {
      // s is all whitespace, yet r's first character is not.
      if i < j { PrefixWhitespace(s, j, i); } else { SuffixWhitespace(s, j, i); }
    } else if t != [] {
      if j < i { PrefixWhitespace(s, i, j); } else { SuffixWhitespace(s, i, j); }
    }
  }

  /** Trimming twice is trimming once. */
  lemma {:induction false} TrimIdempotent(s: string)
    ensures Trim(Trim(s)) == Trim(s)
  {
    var r := Trim(s);
    TrimSpec(s);
    assert PaddedAt(r, r, 0);
    TrimUnique(r, r, 0);
  }

  /** A string trims to "" exactly when it is all whitespace. */
  lemma {:induction false} TrimEmptyIffAllWhitespace(s: string)
    ensures Trim(s) == [] <==> AllWhitespace(s)
  {
    if AllWhitespace(s) {
      assert PaddedAt(s, [], 0);
      TrimUnique(s, [], 0);
    }
    var t := Trim(s);
    TrimSpec(s);
    if t != [] {
      var j := |s| - |TrimStart(s)|;
      assert s[j] == t[0];
      NotAllWhitespace(s, j);
    }
  }

  /** `sub` occurs in `s` starting at index `i`. */
  ghost predicate OccursAt(s: string, sub: string, i: int) {
    0 <= i && i + |sub| <= |s| && s[i..i + |sub|] == sub
  }

  lemma OccursShift(s: string, sub: string)
    requires |s| > 0
    ensures forall i :: 0 <= i ==> (OccursAt(s[1..], sub, i) <==> OccursAt(s, sub, i + 1))
  {
    forall i | 0 <= i
      ensures OccursAt(s[1..], sub, i) <==> OccursAt(s, sub, i + 1)
    {
      if 0 <= i && i + |sub| <= |s| - 1 {
        assert s[1..][i..i + |sub|] == s[i + 1..i + 1 + |sub|];
      }
    }
  }

  /** `String.prototype.includes`: whether `sub` occurs anywhere in `s`. */
  function Contains(s: string, sub: string): bool
    decreases |s|
  {
    if |sub| > |s| then false
    else if s[..|sub|] == sub then true
    else Contains(s[1..], sub)
  }

  /** Contains finds an occurrence exactly when there is one. */
  lemma {:induction false} ContainsSpec(s: string, sub: string)
    ensures Contains(s, sub) <==> exists i :: OccursAt(s, sub, i)
    decreases |s|
  {
    if |sub| > |s| {
    } else if s[..|sub|] == sub {
      assert OccursAt(s, sub, 0);
    } else {
      ContainsSpec(s[1..], sub);
      OccursShift(s, sub);
      assert !OccursAt(s, sub, 0);
      assert forall i :: OccursAt(s, sub, i) ==> OccursAt(s[1..], sub, i - 1);
    }
  }

  /** `String.prototype.split` with a one-character separator: the maximal
      separator-free pieces, in order, including empty ones. */
  function Split(s: string, sep: char): (parts: seq<string>)
    ensures |parts| >= 1
    ensures forall k :: 0 <= k < |parts| ==> sep !in parts[k]
    decreases |s|
  {
    if |s| == 0 then [""]
    else
      var rest := Split(s[1..], sep);
      if s[0] == sep then [""] + rest
      else [[s[0]] + rest[0]] + rest[1..]
  }

  /** `Array.prototype.join` with a one-character separator; the inverse of `Split`. */
  function Join(parts: seq<string>, sep: char): string
    requires |parts| >= 1
    decreases |parts|
  {
    if |parts| == 1 then parts[0] else parts[0] + [sep] + Join(parts[1..], sep)
  }

  /** A leading separator splits off an empty first piece. */
  lemma SplitAfterSeparator(x: string, sep: char)
    ensures Split([sep] + x, sep) == [""] + Split(x, sep)
  {
    assert ([sep] + x)[1..] == x;
  }

  /** A separator-free prefix glues onto the first piece of what follows. */
  lemma {:induction false} SplitPrefix(a: string, c: string, sep: char)
    requires sep !in a
    ensures Split(a + c, sep) == [a + Split(c, sep)[0]] + Split(c, sep)[1..]
    decreases |a|
  {
    if a != [] {
      assert (a + c)[1..] == a[1..] + c;
      SplitPrefix(a[1..], c, sep);
      assert [a[0]] + (a[1..] + Split(c, sep)[0]) == a + Split(c, sep)[0];
    } else {
      var p := Split(c, sep);
      assert a + c == c && a + p[0] == p[0];
      assert [p[0]] + p[1..] == p;
    }
  }

  /** A separator-free piece followed by a separator splits off as the first piece. */
  lemma {:induction false} SplitFirstPiece(a: string, x: string, sep: char)
    requires sep !in a
    ensures Split(a + ([sep] + x), sep) == [a] + Split(x, sep)
  {
    SplitAfterSeparator(x, sep);
    SplitPrefix(a, [sep] + x, sep);
    assert a + "" == a;
  }

  /** Splitting then joining gives back the original string. */
  lemma {:induction false} JoinSplit(s: string, sep: char)
    ensures Join(Split(s, sep), sep) == s
    decreases |s|
  {
    if |s| > 0 {
      JoinSplit(s[1..], sep);
      var rest := Split(s[1..], sep);
      if s[0] != sep {
        if |rest| > 1 {
          assert ([[s[0]] + rest[0]] + rest[1..])[1..] == rest[1..];
        }
      } else {
        assert ([""] + rest)[1..] == rest;
      }
    }
  }

  /** Joining separator-free pieces then splitting gives back the pieces. */
  lemma {:induction false} SplitJoin(parts: seq<string>, sep: char)
    requires |parts| >= 1
    requires forall k :: 0 <= k < |parts| ==> sep !in parts[k]
    ensures Split(Join(parts, sep), sep) == parts
    decreases |parts|
  {
    if |parts| == 1 {
      SplitPrefix(parts[0], "", sep);
      assert parts[0] + "" == parts[0];
    } else {
      var tail := Join(parts[1..], sep);
      SplitJoin(parts[1..], sep);
      assert Split([sep] + tail, sep) == [""] + parts[1..];
      SplitPrefix(parts[0], [sep] + tail, sep);
      assert parts[0] + [sep] + tail == parts[0] + ([sep] + tail);
      assert parts[0] + "" == parts[0];
      assert [parts[0]] + parts[1..] == parts;
    }
  }
}
