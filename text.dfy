/**
 * String operations the service relies on, written out for `seq<char>`:
 * JavaScript's `trim`, `indexOf`, `split`, `join` and `startsWith`, the digit
 * filter `replace(/[^\d]/g, '')`, SQLite's ASCII-case-insensitive `LIKE '%q%'`
 * match, and the byte order SQLite uses to compare TEXT values.
 */
module Text {

  // ---------------------------------------------------------------------------
  // Whitespace and trim
  // ---------------------------------------------------------------------------

  /** The code points JavaScript's `String.prototype.trim` removes: the
      WhiteSpace and LineTerminator productions of ECMAScript. */
  predicate IsWhitespace(c: char) {
    || c == ' ' || c == '\t' || c == '\n' || c == '\r'
    || c == '\U{000B}' || c == '\U{000C}' || c == '\U{00A0}' || c == '\U{1680}'
    || ('\U{2000}' <= c <= '\U{200A}')
    || c == '\U{2028}' || c == '\U{2029}' || c == '\U{202F}' || c == '\U{205F}'
    || c == '\U{3000}' || c == '\U{FEFF}'
  }

  predicate AllWhitespace(s: string) {
    forall i | 0 <= i < |s| :: IsWhitespace(s[i])
  }

  /** Drops leading whitespace. */
  function TrimStart(s: string): string
  {
    if s != [] && IsWhitespace(s[0]) then TrimStart(s[1..]) else s
  }

  /** What `TrimStart` keeps is a suffix of `s`, what it drops is all
      whitespace, and what it keeps does not start with whitespace. */
  lemma {:induction false} TrimStartSpec(s: string)
    ensures var r := TrimStart(s);
            && |r| <= |s| && r == s[|s| - |r|..]
            && AllWhitespace(s[..|s| - |r|])
            && (r == [] || !IsWhitespace(r[0]))
  {
    if s != [] && IsWhitespace(s[0]) {
      TrimStartSpec(s[1..]);
      var r := TrimStart(s[1..]);
      assert s[..|s| - |r|] == [s[0]] + s[1..][..|s[1..]| - |r|];
    }
  }

  /** Drops trailing whitespace. */
  function TrimEnd(s: string): string
  {
    if s != [] && IsWhitespace(s[|s| - 1]) then TrimEnd(s[..|s| - 1]) else s
  }

  /** What `TrimEnd` keeps is a prefix of `s`, what it drops is all
      whitespace, and what it keeps does not end with whitespace. */
  lemma {:induction false} TrimEndSpec(s: string)
    ensures var r := TrimEnd(s);
            && |r| <= |s| && r == s[..|r|]
            && AllWhitespace(s[|r|..])
            && (r == [] || !IsWhitespace(r[|r| - 1]))
  {
    if s != [] && IsWhitespace(s[|s| - 1]) {
      var p := s[..|s| - 1];
      TrimEndSpec(p);
      var r := TrimEnd(p);
      assert s[|r|..] == p[|r|..] + [s[|s| - 1]];
      assert p[..|r|] == s[..|r|];
    }
  }

  /** JavaScript's `trim`. */
  function Trim(s: string): string
  {
    TrimEnd(TrimStart(s))
  }

  /** `Trim` keeps the longest infix of `s` that neither starts nor ends
      with whitespace, everything around it being whitespace. */
  lemma TrimSpec(s: string)
    ensures var r := Trim(s);
            && |r| <= |s|
            && (exists k :: 0 <= k <= |s| - |r| && r == s[k..k + |r|]
                            && AllWhitespace(s[..k]) && AllWhitespace(s[k + |r|..]))
            && (r == [] || (!IsWhitespace(r[0]) && !IsWhitespace(r[|r| - 1])))
  {
    var t := TrimStart(s);
    var r := TrimEnd(t);
    TrimStartSpec(s);
    TrimEndSpec(t);
    var k := |s| - |t|;
    assert t == s[k..];
    assert r == t[..|r|];
    assert r == s[k..k + |r|];
    assert s[k + |r|..] == t[|r|..];
    assert AllWhitespace(s[k + |r|..]);
    assert r != [] ==> r[0] == t[0];
  }

  /** Trimming twice is trimming once. */
  lemma TrimIdempotent(s: string)
    ensures Trim(Trim(s)) == Trim(s)
  {
    var r := Trim(s);
    TrimSpec(s);
    assert TrimStart(r) == r;
    assert TrimEnd(r) == r;
  }

  /** A string trims to the empty string exactly when it is all whitespace. */
  lemma {:induction false} TrimEmptyIffWhitespace(s: string)
    ensures Trim(s) == [] <==> AllWhitespace(s)
  {
    if AllWhitespace(s) {
      TrimStartWhitespace(s);
    } else {
      TrimSpec(s);
      if Trim(s) == [] {
        var k :| 0 <= k <= |s| && AllWhitespace(s[..k]) && AllWhitespace(s[k..]);
        forall i | 0 <= i < |s| ensures IsWhitespace(s[i]) {
          if i < k { assert s[i] == s[..k][i]; } else { assert s[i] == s[k..][i - k]; }
        }
      }
    }
  }

  lemma {:induction false} TrimStartWhitespace(s: string)
    requires AllWhitespace(s)
    ensures TrimStart(s) == []
  {
    if s != [] {
      TrimStartWhitespace(s[1..]);
    }
  }

  // ---------------------------------------------------------------------------
  // Searching, splitting and joining
  // ---------------------------------------------------------------------------

  /** `s.indexOf(c)`: the first position of `c` in `s`, or -1 when absent. */
  function IndexOf(s: string, c: char): (r: int)
    ensures -1 <= r < |s|
    ensures r == -1 <==> c !in s
    ensures r >= 0 ==> s[r] == c && c !in s[..r]
  {
    if s == [] then -1
    else if s[0] == c then 0
    else
      var i := IndexOf(s[1..], c);
      if i == -1 then -1
      else
        assert s[..i + 1] == [s[0]] + s[1..][..i];
        i + 1
  }

  /** The first position holding `c` is the index `indexOf` returns. */
  lemma IndexOfAt(s: string, c: char, k: int)
    requires 0 <= k < |s| && s[k] == c && c !in s[..k]
    ensures IndexOf(s, c) == k
  {
    var i := IndexOf(s, c);
    assert s[k] in s;
    assert forall j | 0 <= j < i :: s[j] != c by {
      forall j | 0 <= j < i ensures s[j] != c { assert s[..i][j] == s[j]; }
    }
    assert forall j | 0 <= j < k :: s[j] != c by {
      forall j | 0 <= j < k ensures s[j] != c { assert s[..k][j] == s[j]; }
    }
  }

  /** `s.split(sep)` for a one-character separator: the pieces between
      separators, in order, never fewer than one. */
  function Split(s: string, sep: char): (parts: seq<string>)
    ensures |parts| >= 1
    ensures forall p | p in parts :: sep !in p
    decreases |s|
  {
    var i := IndexOf(s, sep);
    if i < 0 then [s] else [s[..i]] + Split(s[i + 1..], sep)
  }

  /** `parts.join(sep)` for a one-character separator. */
  function Join(parts: seq<string>, sep: char): string
  {
    if |parts| == 0 then ""
    else if |parts| == 1 then parts[0]
    else parts[0] + [sep] + Join(parts[1..], sep)
  }

  /** Joining the pieces of a split gives back the original string. */
  lemma {:induction false} JoinSplit(s: string, sep: char)
    ensures Join(Split(s, sep), sep) == s
    decreases |s|
  {
    var i := IndexOf(s, sep);
    if i >= 0 {
      SplitAtFirst(s, sep);
      JoinSplit(s[i + 1..], sep);
      JoinCons(s[..i], Split(s[i + 1..], sep), sep);
    }
  }

  /** A string holding the separator splits into the piece before its
      first occurrence and the split of the rest. */
  lemma SplitAtFirst(s: string, sep: char)
    requires IndexOf(s, sep) >= 0
    ensures var i := IndexOf(s, sep);
            && Split(s, sep) == [s[..i]] + Split(s[i + 1..], sep)
            && s == s[..i] + [sep] + s[i + 1..]
  {
  }

  /** Joining one more piece in front adds it and a separator. */
  lemma JoinCons(head: string, tail: seq<string>, sep: char)
    requires |tail| >= 1
    ensures Join([head] + tail, sep) == head + [sep] + Join(tail, sep)
  {
    assert ([head] + tail)[1..] == tail;
  }

  /** A join of three or more pieces starts with the first two, each
      followed by the separator. */
  lemma JoinStartsWithFirstTwo(parts: seq<string>, sep: char)
    requires |parts| >= 3
    ensures parts[0] + [sep] + parts[1] + [sep] <= Join(parts, sep)
  {
    var rest := parts[1..];
    assert rest[1..] == parts[2..];
    assert Join(rest, sep) == parts[1] + [sep] + Join(parts[2..], sep);
    assert Join(parts, sep) == parts[0] + [sep] + (parts[1] + [sep] + Join(parts[2..], sep));
  }

  /** A separator-free piece followed by the separator splits off as the
      first piece. */
  lemma SplitCons(head: string, rest: string, sep: char)
    requires sep !in head
    ensures Split(head + [sep] + rest, sep) == [head] + Split(rest, sep)
  {
    var s := head + [sep] + rest;
    assert s[..|head|] == head;
    IndexOfAt(s, sep, |head|);
    assert s[|head| + 1..] == rest;
  }

  /** Splitting a join of separator-free pieces gives back the pieces. */
  lemma {:induction false} SplitJoin(parts: seq<string>, sep: char)
    requires |parts| >= 1
    requires forall p | p in parts :: sep !in p
    ensures Split(Join(parts, sep), sep) == parts
  {
    if |parts| > 1 {
      assert parts[0] in parts;
      SplitCons(parts[0], Join(parts[1..], sep), sep);
      SplitJoin(parts[1..], sep);
      assert parts == [parts[0]] + parts[1..];
    } else {
      assert sep !in parts[0];
    }
  }

  // ---------------------------------------------------------------------------
  // Substring match with ASCII case folding (SQLite LIKE '%q%')
  // ---------------------------------------------------------------------------

  /** `needle` occurs in `hay` as a contiguous block. */
  predicate Contains(hay: string, needle: string) {
    exists i | 0 <= i <= |hay| - |needle| :: OccursAt(hay, needle, i)
  }

  predicate OccursAt(hay: string, needle: string, i: int)
    requires 0 <= i <= |hay| - |needle|
  {
    hay[i..i + |needle|] == needle
  }

  /** SQLite's default LIKE folds only the 26 ASCII letters. */
  function LowerAscii(c: char): char {
    if 'A' <= c <= 'Z' then (c as int + 32) as char else c
  }

  function FoldAscii(s: string): (r: string)
    ensures |r| == |s|
  {
    seq(|s|, i requires 0 <= i < |s| => LowerAscii(s[i]))
  }

  /** `hay LIKE '%' || q || '%'` for a pattern `q` without wildcards. */
  predicate LikeContains(hay: string, q: string) {
    Contains(FoldAscii(hay), FoldAscii(q))
  }

  /** The match ignores the case of ASCII letters in the pattern. */
  lemma LikeIgnoresPatternCase(hay: string, q: string)
    ensures LikeContains(hay, q) <==> LikeContains(hay, FoldAscii(q))
  {
    assert FoldAscii(FoldAscii(q)) == FoldAscii(q);
  }

  /** The match ignores the case of ASCII letters in the text. */
  lemma LikeIgnoresAsciiCase(hay: string, q: string)
    ensures LikeContains(hay, q) <==> LikeContains(FoldAscii(hay), q)
  {
    assert FoldAscii(FoldAscii(hay)) == FoldAscii(hay);
  }

  // ---------------------------------------------------------------------------
  // Digits
  // ---------------------------------------------------------------------------

  /** JavaScript's `\d`: the ASCII digits only. */
  predicate IsDigit(c: char) {
    '0' <= c <= '9'
  }

  /** `s.replace(/[^\d]/g, '')`: the digits of `s`, in order. */
  function Digits(s: string): (r: string)
    ensures |r| <= |s|
    ensures forall i | 0 <= i < |r| :: IsDigit(r[i])
    ensures r == [] <==> forall i | 0 <= i < |s| :: !IsDigit(s[i])
    ensures (forall i | 0 <= i < |s| :: IsDigit(s[i])) ==> r == s
  {
    if s == [] then []
    else
      var rest := Digits(s[1..]);
      assert forall i | 1 <= i < |s| :: s[i] == s[1..][i - 1];
      (if IsDigit(s[0]) then [s[0]] else []) + rest
  }

  /** Removing the non-digits distributes over concatenation. */
  lemma {:induction false} DigitsAppend(a: string, b: string)
    ensures Digits(a + b) == Digits(a) + Digits(b)
  {
    if a != [] {
      assert (a + b)[1..] == a[1..] + b;
      DigitsAppend(a[1..], b);
    } else {
      assert a + b == b;
    }
  }

  // ---------------------------------------------------------------------------
  // Text order
  // ---------------------------------------------------------------------------

  /** SQLite's BINARY collation compares the UTF-8 bytes of two TEXT values,
      which orders them as their sequences of code points. */
  predicate TextLe(a: string, b: string) {
    if a == [] then true
    else if b == [] then false
    else if a[0] != b[0] then a[0] < b[0]
    else TextLe(a[1..], b[1..])
  }

  lemma {:induction false} TextLeReflexive(a: string)
    ensures TextLe(a, a)
  {
    if a != [] {
      TextLeReflexive(a[1..]);
    }
  }

  lemma {:induction false} TextLeTotal(a: string, b: string)
    ensures TextLe(a, b) || TextLe(b, a)
  {
    if a != [] && b != [] && a[0] == b[0] {
      TextLeTotal(a[1..], b[1..]);
    }
  }

  lemma {:induction false} TextLeTransitive(a: string, b: string, c: string)
    requires TextLe(a, b) && TextLe(b, c)
    ensures TextLe(a, c)
  {
    if a != [] && b != [] && c != [] && a[0] == b[0] && b[0] == c[0] {
      TextLeTransitive(a[1..], b[1..], c[1..]);
    }
  }

  lemma {:induction false} TextLeAntisymmetric(a: string, b: string)
    requires TextLe(a, b) && TextLe(b, a)
    ensures a == b
  {
    if a != [] && b != [] {
      TextLeAntisymmetric(a[1..], b[1..]);
      assert a == [a[0]] + a[1..] && b == [b[0]] + b[1..];
    }
  }
}
