/** The string helpers the lexer relies on: `Strutil::fall_within` and
    `Strutil::empty_line` of strutil.rs, and the parts of Rust's string
    library the lexer and the driver call (`find`, `split`,
    `split_whitespace`, `trim`). Strings are sequences of characters. */
module StrUtil {
  import opened Errors

  /** Rust's `char::is_whitespace`: the Unicode White_Space property. */
  predicate IsWhitespace(c: char) {
    || ('\t' <= c <= '\r')
    || c == ' '
    || c == '\U{85}'
    || c == '\U{A0}'
    || c == '\U{1680}'
    || ('\U{2000}' <= c <= '\U{200A}')
    || c == '\U{2028}'
    || c == '\U{2029}'
    || c == '\U{202F}'
    || c == '\U{205F}'
    || c == '\U{3000}'
  }

  predicate AllWhitespace(s: string) {
    forall i :: 0 <= i < |s| ==> IsWhitespace(s[i])
  }

  predicate NoWhitespace(s: string) {
    forall i :: 0 <= i < |s| ==> !IsWhitespace(s[i])
  }

  /** The characters of `s` that are not whitespace, in order. */
  function Visible(s: string): (r: string)
    ensures NoWhitespace(r)
  {
    if s == [] then []
    else if IsWhitespace(s[0]) then Visible(s[1..])
    else [s[0]] + Visible(s[1..])
  }

  lemma {:induction false} VisibleAppend(a: string, b: string)
    ensures Visible(a + b) == Visible(a) + Visible(b)
  {
    if a != [] {
      assert (a + b)[0] == a[0];
      assert (a + b)[1..] == a[1..] + b;
      VisibleAppend(a[1..], b);
      if !IsWhitespace(a[0]) {
        assert [a[0]] + (Visible(a[1..]) + Visible(b)) == ([a[0]] + Visible(a[1..])) + Visible(b);
      }
    } else {
      assert a + b == b;
    }
  }

  lemma {:induction false} VisibleOfWord(w: string)
    requires NoWhitespace(w)
    ensures Visible(w) == w
  {
    if w != [] {
      VisibleOfWord(w[1..]);
    }
  }

  lemma {:induction false} VisibleEmpty(s: string)
    ensures Visible(s) == [] <==> AllWhitespace(s)
  {
    if s != [] {
      VisibleEmpty(s[1..]);
      assert AllWhitespace(s) <==> IsWhitespace(s[0]) && AllWhitespace(s[1..]);
    }
  }

  /** `str::find` with a one-character pattern: the first index of `c`. */
  function FindFirst(s: string, c: char): (r: Option<nat>)
    ensures r.None? <==> c !in s
    ensures r.Some? ==> r.value < |s| && s[r.value] == c && c !in s[..r.value]
  {
    if s == [] then None
    else if s[0] == c then Some(0)
    else
      match FindFirst(s[1..], c)
      case None => None
      case Some(i) =>
        assert s[..i + 1] == [s[0]] + s[1..][..i];
        Some(i + 1)
  }

  lemma FirstOccurrenceInside(ms: string, c: char, i: nat)
    requires i < |ms| && ms[i] == c && c !in ms[..i]
    ensures (i != 0 && i != |ms| - 1) <==> (|ms| >= 2 && ms[0] != c && c in ms[1..|ms| - 1])
  {
    if i != 0 && i != |ms| - 1 {
      assert ms[0] == ms[..i][0];
      assert ms[1..|ms| - 1][i - 1] == c;
    }
  }

  /** `Strutil::fall_within`: the first `c` of `ms` is neither its first
      nor its last character. The lexer calls it with `"="` and `";"`. */
  function FallWithin(ms: string, c: char): bool {
    match FindFirst(ms, c)
    case None => false
    case Some(i) => !(i == 0 || i == |ms| - 1)
  }

  /** `fall_within` holds exactly when `ms` does not start with `c` and
      `c` occurs strictly inside it; so a leading `c` makes it false
      whatever follows, and so does a `c` that occurs only at the end. */
  lemma FallWithinMeaning(ms: string, c: char)
    ensures FallWithin(ms, c) <==> |ms| >= 2 && ms[0] != c && c in ms[1..|ms| - 1]
  {
    match FindFirst(ms, c)
    case None =>
    case Some(i) => FirstOccurrenceInside(ms, c, i);
  }

  /** `find` answers the first index holding `c`. */
  lemma FindFirstAt(s: string, c: char, i: nat)
    requires i < |s| && s[i] == c && forall j :: 0 <= j < i ==> s[j] != c
    ensures FindFirst(s, c) == Some(i)
  {
  }

  /** The unit test of strutil.rs. */
  lemma FallWithinExamples()
    ensures FallWithin("MD=A-1;JMP", '=') && FallWithin("MD=A-1;JMP", ';')
    ensures !FallWithin("=A-1JMP;", '=') && !FallWithin("=A-1JMP;", ';')
  {
    InteriorSeparators();
    EdgeSeparators();
  }

  lemma InteriorSeparators()
    ensures FallWithin("MD=A-1;JMP", '=') && FallWithin("MD=A-1;JMP", ';')
  {
    InteriorEqual();
    InteriorSemicolon();
  }

  lemma InteriorEqual()
    ensures FallWithin("MD=A-1;JMP", '=')
  {
    FindFirstAt("MD=A-1;JMP", '=', 2);
  }

  lemma InteriorSemicolon()
    ensures FallWithin("MD=A-1;JMP", ';')
  {
    FindFirstAt("MD=A-1;JMP", ';', 6);
  }

  lemma EdgeSeparators()
    ensures !FallWithin("=A-1JMP;", '=') && !FallWithin("=A-1JMP;", ';')
  {
    FindFirstAt("=A-1JMP;", '=', 0);
    FindFirstAt("=A-1JMP;", ';', 7);
  }

  /** The longest prefix of `s` that holds no whitespace. */
  function Word(s: string): (r: string)
    ensures |r| <= |s| && r == s[..|r|] && NoWhitespace(r)
    ensures |r| < |s| ==> IsWhitespace(s[|r|])
  {
    if s == [] || IsWhitespace(s[0]) then [] else [s[0]] + Word(s[1..])
  }

  function Concat(parts: seq<string>): string {
    if parts == [] then [] else parts[0] + Concat(parts[1..])
  }

  /** `str::split_whitespace`: the maximal runs of non-whitespace
      characters of `s`, in order. */
  function SplitWhitespace(s: string): seq<string>
    decreases |s|
  {
    if s == [] then []
    else if IsWhitespace(s[0]) then SplitWhitespace(s[1..])
    else
      var w := Word(s);
      [w] + SplitWhitespace(s[|w|..])
  }

  /** Each piece is non-empty and free of whitespace, and together the
      pieces hold exactly the visible characters of `s`, in order. */
  lemma {:induction false} SplitWhitespacePieces(s: string)
    ensures forall i :: 0 <= i < |SplitWhitespace(s)| ==>
      SplitWhitespace(s)[i] != [] && NoWhitespace(SplitWhitespace(s)[i])
    ensures Concat(SplitWhitespace(s)) == Visible(s)
    decreases |s|
  {
    if s == [] {
    } else if IsWhitespace(s[0]) {
      SplitWhitespacePieces(s[1..]);
    } else {
      var w := Word(s);
      var rest := SplitWhitespace(s[|w|..]);
      SplitWhitespacePieces(s[|w|..]);
      assert SplitWhitespace(s) == [w] + rest;
      assert ([w] + rest)[1..] == rest;
      assert s == w + s[|w|..];
      VisibleAppend(w, s[|w|..]);
      VisibleOfWord(w);
    }
  }

  /** Whitespace at `c` splits there: no piece runs across a
      whitespace character, so every piece is a maximal run. */
  lemma {:induction false} SplitWhitespaceAt(x: string, c: char, y: string)
    requires IsWhitespace(c)
    ensures SplitWhitespace(x + [c] + y) == SplitWhitespace(x) + SplitWhitespace(y)
    decreases |x|
  {
    var s := x + [c] + y;
    if x == [] {
      assert s[1..] == y;
    } else if IsWhitespace(x[0]) {
      assert s[1..] == x[1..] + [c] + y;
      SplitWhitespaceAt(x[1..], c, y);
    } else {
      var w := Word(x);
      WordThrough(x, [c] + y);
      assert s == x + ([c] + y);
      assert s[|w|..] == x[|w|..] + [c] + y;
      SplitWhitespaceAt(x[|w|..], c, y);
    }
  }

  /** The leading word stops at the first whitespace character. */
  lemma {:induction false} WordThrough(x: string, z: string)
    requires z != [] && IsWhitespace(z[0])
    ensures Word(x + z) == Word(x)
    decreases |x|
  {
    if x == [] {
      assert x + z == z;
    } else {
      assert (x + z)[1..] == x[1..] + z;
      WordThrough(x[1..], z);
    }
  }

  /** Whitespace around a single word splits away. */
  lemma {:induction false} SplitWhitespacePadded(a: string, w: string, b: string)
    requires AllWhitespace(a) && AllWhitespace(b) && w != [] && NoWhitespace(w)
    ensures SplitWhitespace(a + w + b) == [w]
    decreases |a|
  {
    if a == [] {
      assert a + w + b == w + b;
      WordBefore(w, b);
      assert (w + b)[|w|..] == b;
      SplitWhitespaceBlank(b);
    } else {
      assert (a + w + b)[1..] == a[1..] + w + b;
      SplitWhitespacePadded(a[1..], w, b);
    }
  }

  lemma {:induction false} WordBefore(w: string, b: string)
    requires NoWhitespace(w) && (b == [] || IsWhitespace(b[0]))
    ensures Word(w + b) == w
    decreases |w|
  {
    if w == [] {
      assert w + b == b;
    } else {
      assert (w + b)[1..] == w[1..] + b;
      WordBefore(w[1..], b);
    }
  }

  lemma {:induction false} SplitWhitespaceBlank(b: string)
    requires AllWhitespace(b)
    ensures SplitWhitespace(b) == []
    decreases |b|
  {
    if b != [] {
      SplitWhitespaceBlank(b[1..]);
    }
  }

  /** `Strutil::empty_line`: splitting on whitespace yields nothing. */
  function EmptyLine(s: string): (r: bool)
    ensures r <==> AllWhitespace(s)
  {
    var pieces := SplitWhitespace(s);
    SplitWhitespacePieces(s);
    VisibleEmpty(s);
    assert pieces != [] ==> Concat(pieces) != [] by {
      if pieces != [] {
        assert |Concat(pieces)| >= |pieces[0]|;
      }
    }
    |pieces| == 0
  }

  /** The number of whitespace characters `s` starts with. */
  function LeadingWhitespace(s: string): (n: nat)
    ensures n <= |s| && AllWhitespace(s[..n]) && (n < |s| ==> !IsWhitespace(s[n]))
  {
    if s != [] && IsWhitespace(s[0]) then
      var n := 1 + LeadingWhitespace(s[1..]);
      assert s[..n] == [s[0]] + s[1..][..n - 1];
      n
    else 0
  }

  /** The length of `s` without the whitespace it ends with. */
  function VisibleEnd(s: string): (e: nat)
    ensures e <= |s| && AllWhitespace(s[e..]) && (e > 0 ==> !IsWhitespace(s[e - 1]))
  {
    if s != [] && IsWhitespace(s[|s| - 1]) then
      var e := VisibleEnd(s[..|s| - 1]);
      assert s[e..] == s[..|s| - 1][e..] + [s[|s| - 1]];
      e
    else |s|
  }

  /** `str::trim_start`. */
  function TrimStart(s: string): string {
    s[LeadingWhitespace(s)..]
  }

  /** `str::trim_end`. */
  function TrimEnd(s: string): string {
    s[..VisibleEnd(s)]
  }

  /** `str::trim`: `s` without its leading and trailing whitespace. */
  function Trim(s: string): (r: string)
    ensures r == [] || (!IsWhitespace(r[0]) && !IsWhitespace(r[|r| - 1]))
  {
    var t := TrimStart(s);
    var r := TrimEnd(t);
    assert r != [] ==> r[0] == t[0];
    r
  }

  /** Trimming removes only whitespace: `s` is the trimmed form with
      whitespace on either side. */
  lemma TrimSplit(s: string) returns (a: string, b: string)
    ensures s == a + Trim(s) + b && AllWhitespace(a) && AllWhitespace(b)
  {
    var n := LeadingWhitespace(s);
    var t := TrimStart(s);
    var e := VisibleEnd(t);
    assert Trim(s) == t[..e] == s[n..n + e];
    a, b := s[..n], t[e..];
    assert b == s[n + e..];
    SliceJoin(s, n, n + e);
  }

  lemma SliceJoin(s: string, i: nat, j: nat)
    requires i <= j <= |s|
    ensures s == s[..i] + s[i..j] + s[j..]
  {
  }

  /** Trimming keeps every visible character. */
  lemma TrimVisible(s: string)
    ensures Visible(Trim(s)) == Visible(s)
  {
    var a, b := TrimSplit(s);
    var r := Trim(s);
    VisibleAppend(a + r, b);
    VisibleAppend(a, r);
    VisibleEmpty(a);
    VisibleEmpty(b);
  }

  /** A string that neither starts nor ends with whitespace is its own
      trimmed form. */
  lemma TrimKeeps(s: string)
    requires s == [] || (!IsWhitespace(s[0]) && !IsWhitespace(s[|s| - 1]))
    ensures Trim(s) == s
  {
    assert LeadingWhitespace(s) == 0;
    assert VisibleEnd(s) == |s|;
  }

  /** Trimming twice is trimming once. */
  lemma TrimIdempotent(s: string)
    ensures Trim(Trim(s)) == Trim(s)
  {
    TrimKeeps(Trim(s));
  }

  /** A non-empty run of visible characters is a single piece. */
  lemma SplitWhitespaceWord(w: string)
    requires w != [] && NoWhitespace(w)
    ensures SplitWhitespace(w) == [w]
  {
    var r := Word(w);
    assert |r| == |w|;
    assert r == w;
    assert w[|w|..] == [];
  }

  /** Splitting on whitespace ignores surrounding whitespace: an input is
      empty exactly when its trimmed form is. */
  lemma EmptyLineTrim(s: string)
    ensures EmptyLine(Trim(s)) <==> EmptyLine(s)
    ensures EmptyLine(s) <==> Trim(s) == []
  {
    var r := Trim(s);
    TrimVisible(s);
    VisibleEmpty(s);
    VisibleEmpty(r);
    if r != [] {
      assert !AllWhitespace(r) by {
        assert !IsWhitespace(r[0]);
      }
    }
  }

  /** `str::split` with a one-character separator: the pieces between the
      occurrences of `c`; there is always one more piece than there are
      separators, and joining them back with `c` gives `s`. */
  function Split(s: string, c: char): seq<string>
    decreases |s|
  {
    match FindFirst(s, c)
    case None => [s]
    case Some(i) => [s[..i]] + Split(s[i + 1..], c)
  }

  lemma {:induction false} SplitRoundTrip(s: string, c: char)
    ensures |Split(s, c)| >= 1 && forall i :: 0 <= i < |Split(s, c)| ==> c !in Split(s, c)[i]
    ensures Join(Split(s, c), c) == s
    decreases |s|
  {
    match FindFirst(s, c)
    case None =>
    case Some(i) =>
      var rest := Split(s[i + 1..], c);
      SplitRoundTrip(s[i + 1..], c);
      assert Split(s, c) == [s[..i]] + rest;
      assert ([s[..i]] + rest)[1..] == rest;
      assert s == s[..i] + [c] + s[i + 1..];
  }

  function Join(parts: seq<string>, c: char): string {
    if parts == [] then []
    else if |parts| == 1 then parts[0]
    else parts[0] + [c] + Join(parts[1..], c)
  }

  /** Splitting a joined sequence of separator-free pieces gives the
      pieces back. */
  lemma {:induction false} SplitJoin(parts: seq<string>, c: char)
    requires |parts| >= 1 && forall i :: 0 <= i < |parts| ==> c !in parts[i]
    ensures Split(Join(parts, c), c) == parts
  {
    if |parts| > 1 {
      SplitAfter(parts[0], c, Join(parts[1..], c));
      SplitJoin(parts[1..], c);
      assert parts == [parts[0]] + parts[1..];
    } else {
      assert FindFirst(parts[0], c) == None;
    }
  }

  /** A separator-free piece followed by the separator splits off
      first. */
  lemma SplitAfter(d: string, c: char, rest: string)
    requires c !in d
    ensures Split(d + [c] + rest, c) == [d] + Split(rest, c)
  {
    var s := d + [c] + rest;
    assert FindFirst(s, c) == Some(|d|) by {
      assert s[|d|] == c;
      assert s[..|d|] == d;
    }
    assert s[..|d|] == d;
    assert s[|d| + 1..] == rest;
  }

  /** When `c` occurs, the first piece is everything before its first
      occurrence. */
  lemma SplitFirst(s: string, c: char)
    requires c in s
    ensures |Split(s, c)| >= 2 && Split(s, c)[0] == s[..FindFirst(s, c).value]
  {
    var i := FindFirst(s, c).value;
    assert Split(s, c) == [s[..i]] + Split(s[i + 1..], c);
  }
}
