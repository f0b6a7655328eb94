/**
  The Python `str` operations the scripts rely on, written out over `seq<char>`:
  `strip`, `strip(chars)`, `startswith`, `endswith`, `in`, `split(sep)`, `join`,
  `replace`, `splitlines`, `lower` (ASCII letters), `str(n)` and `int(digits)`.
 */
module Strings {
  import opened Wrappers

  /** The characters for which Python's `str.isspace()` holds; `str.strip()` removes them. */
  predicate IsSpace(c: char) {
    c == ' ' || ('\t' <= c <= '\r') || ('\U{1C}' <= c <= '\U{1F}') || c == '\U{85}'
    || c == '\U{A0}' || c == '\U{1680}' || ('\U{2000}' <= c <= '\U{200A}')
    || c == '\U{2028}' || c == '\U{2029}' || c == '\U{202F}' || c == '\U{205F}' || c == '\U{3000}'
  }

  /** The line boundaries of Python's `str.splitlines()` ("\r\n" counts as one). */
  predicate IsLineBreak(c: char) {
    ('\n' <= c <= '\r') || ('\U{1C}' <= c <= '\U{1E}') || c == '\U{85}' || c == '\U{2028}' || c == '\U{2029}'
  }

  predicate NoLineBreak(s: string) {
    forall k :: 0 <= k < |s| ==> !IsLineBreak(s[k])
  }

  predicate IsDigit(c: char) {
    '0' <= c <= '9'
  }

  predicate AllDigits(s: string) {
    forall k :: 0 <= k < |s| ==> IsDigit(s[k])
  }

  // ---------------------------------------------------------------------------
  // strip

  /** Drops the longest prefix of characters satisfying `drop`. */
  function TrimLeft(s: string, drop: char -> bool): string
    decreases |s|
  {
    if |s| > 0 && drop(s[0]) then TrimLeft(s[1..], drop) else s
  }

  /** What `TrimLeft` keeps is a suffix that does not start with a dropped character, and all it removed was dropped. */
  lemma {:induction false} TrimLeftSpec(s: string, drop: char -> bool)
    ensures |TrimLeft(s, drop)| <= |s| && TrimLeft(s, drop) == s[|s| - |TrimLeft(s, drop)|..]
    ensures TrimLeft(s, drop) == [] || !drop(TrimLeft(s, drop)[0])
    ensures forall k :: 0 <= k < |s| - |TrimLeft(s, drop)| ==> drop(s[k])
    decreases |s|
  {
    if |s| > 0 && drop(s[0]) {
      TrimLeftSpec(s[1..], drop);
      var r := TrimLeft(s[1..], drop);
      assert s[1..][|s| - 1 - |r|..] == s[|s| - |r|..];
      forall k | 0 <= k < |s| - |r| ensures drop(s[k]) {
        if k > 0 {
          assert s[k] == s[1..][k - 1];
        }
      }
    }
  }

  /** Drops the longest suffix of characters satisfying `drop`. */
  function TrimRight(s: string, drop: char -> bool): string
    decreases |s|
  {
    if |s| > 0 && drop(s[|s| - 1]) then TrimRight(s[..|s| - 1], drop) else s
  }

  /** What `TrimRight` keeps is a prefix that does not end with a dropped character, and all it removed was dropped. */
  lemma {:induction false} TrimRightSpec(s: string, drop: char -> bool)
    ensures |TrimRight(s, drop)| <= |s| && TrimRight(s, drop) == s[..|TrimRight(s, drop)|]
    ensures TrimRight(s, drop) == [] || !drop(TrimRight(s, drop)[|TrimRight(s, drop)| - 1])
    ensures forall k :: |TrimRight(s, drop)| <= k < |s| ==> drop(s[k])
    decreases |s|
  {
    if |s| > 0 && drop(s[|s| - 1]) {
      TrimRightSpec(s[..|s| - 1], drop);
      var r := TrimRight(s[..|s| - 1], drop);
      assert s[..|s| - 1][..|r|] == s[..|r|];
      forall k | |r| <= k < |s| ensures drop(s[k]) {
        if k < |s| - 1 {
          assert s[k] == s[..|s| - 1][k];
        }
      }
    }
  }

  function Trim(s: string, drop: char -> bool): string {
    TrimRight(TrimLeft(s, drop), drop)
  }

  /** Python's `s.strip()`. */
  function Strip(s: string): string {
    Trim(s, IsSpace)
  }

  /** Python's `s.strip(c)` for a one-character argument. */
  function StripChar(s: string, c: char): string {
    Trim(s, SameChar(c))
  }

  /** The test `x == c`, as one function value per character. */
  function SameChar(c: char): char -> bool {
    x => x == c
  }

  /** A string that `Trim` leaves unchanged: it neither starts nor ends with a dropped character. */
  predicate Bare(s: string, drop: char -> bool) {
    s == [] || (!drop(s[0]) && !drop(s[|s| - 1]))
  }

  predicate AllDropped(s: string, drop: char -> bool) {
    forall k :: 0 <= k < |s| ==> drop(s[k])
  }

  lemma {:induction false} TrimLeftOf(pre: string, rest: string, drop: char -> bool)
    requires AllDropped(pre, drop)
    requires rest == [] || !drop(rest[0])
    ensures TrimLeft(pre + rest, drop) == rest
    decreases |pre|
  {
    if pre == [] {
      assert pre + rest == rest;
    } else {
      assert (pre + rest)[1..] == pre[1..] + rest;
      TrimLeftOf(pre[1..], rest, drop);
    }
  }

  lemma {:induction false} TrimRightOf(rest: string, post: string, drop: char -> bool)
    requires AllDropped(post, drop)
    requires rest == [] || !drop(rest[|rest| - 1])
    ensures TrimRight(rest + post, drop) == rest
    decreases |post|
  {
    if post == [] {
      assert rest + post == rest;
    } else {
      var n := |rest + post|;
      assert (rest + post)[..n - 1] == rest + post[..|post| - 1];
      TrimRightOf(rest, post[..|post| - 1], drop);
    }
  }

  /** Trimming removes exactly padding made of dropped characters around a bare string. */
  lemma TrimOf(pre: string, mid: string, post: string, drop: char -> bool)
    requires AllDropped(pre, drop) && AllDropped(post, drop)
    requires Bare(mid, drop)
    ensures Trim(pre + mid + post, drop) == mid
  {
    if mid == [] {
      assert pre + mid + post == pre + post;
      assert AllDropped(pre + post, drop);
      TrimLeftOf(pre + post, [], drop);
      assert pre + post + [] == pre + post;
    } else {
      assert pre + mid + post == pre + (mid + post);
      TrimLeftOf(pre, mid + post, drop);
      TrimRightOf(mid, post, drop);
    }
  }

  lemma TrimBare(s: string, drop: char -> bool)
    requires Bare(s, drop)
    ensures Trim(s, drop) == s
  {
    TrimOf([], s, [], drop);
    assert [] + s + [] == s;
  }

  /** Whatever `Trim` returns neither starts nor ends with a dropped character. */
  lemma TrimIsBare(s: string, drop: char -> bool)
    ensures Bare(Trim(s, drop), drop)
  {
    var l := TrimLeft(s, drop);
    var r := TrimRight(l, drop);
    TrimLeftSpec(s, drop);
    TrimRightSpec(l, drop);
    if r != [] {
      assert r[0] == l[0];
    }
  }

  /** Whatever `Trim` returns is bare, so trimming twice changes nothing. */
  lemma TrimIdempotent(s: string, drop: char -> bool)
    ensures Bare(Trim(s, drop), drop)
    ensures Trim(Trim(s, drop), drop) == Trim(s, drop)
  {
    TrimIsBare(s, drop);
    TrimBare(Trim(s, drop), drop);
  }

  /** `s` is what `TrimLeft` keeps behind a run of dropped characters. */
  lemma TrimLeftParts(s: string, drop: char -> bool) returns (pre: string)
    ensures s == pre + TrimLeft(s, drop) && AllDropped(pre, drop)
  {
    TrimLeftSpec(s, drop);
    var i := |s| - |TrimLeft(s, drop)|;
    pre := s[..i];
    assert s == s[..i] + s[i..];
    assert forall k :: 0 <= k < |pre| ==> pre[k] == s[k];
  }

  /** `s` is what `TrimRight` keeps before a run of dropped characters. */
  lemma TrimRightParts(s: string, drop: char -> bool) returns (post: string)
    ensures s == TrimRight(s, drop) + post && AllDropped(post, drop)
  {
    TrimRightSpec(s, drop);
    var i := |TrimRight(s, drop)|;
    post := s[i..];
    assert s == s[..i] + s[i..];
    assert forall k :: 0 <= k < |post| ==> post[k] == s[i + k];
  }

  /** `s` is its trimmed core with only dropped characters around it. */
  lemma TrimParts(s: string, drop: char -> bool) returns (pre: string, post: string)
    ensures s == pre + Trim(s, drop) + post
    ensures AllDropped(pre, drop) && AllDropped(post, drop) && Bare(Trim(s, drop), drop)
  {
    var l := TrimLeft(s, drop);
    pre := TrimLeftParts(s, drop);
    post := TrimRightParts(l, drop);
    TrimIsBare(s, drop);
  }

  /** Trimming a piece of a string that still holds the whole trimmed core gives that core. */
  lemma TrimAround(pre: string, mid: string, post: string, drop: char -> bool)
    requires AllDropped(pre, drop) && AllDropped(post, drop) && Bare(mid, drop)
    ensures Trim(mid + post, drop) == mid && Trim(pre + mid, drop) == mid
  {
    TrimOf([], mid, post, drop);
    assert [] + mid + post == mid + post;
    TrimOf(pre, mid, [], drop);
    assert pre + mid + [] == pre + mid;
  }

  /** Stripping only removes characters. */
  lemma StripKeeps(s: string, c: char)
    requires c in Strip(s)
    ensures c in s
  {
    var pre, post := TrimParts(s, IsSpace);
    var m := Strip(s);
    var k :| 0 <= k < |m| && m[k] == c;
    assert s[|pre| + k] == c;
  }

  // ---------------------------------------------------------------------------
  // startswith, endswith, in

  predicate StartsWith(s: string, p: string) {
    |p| <= |s| && s[..|p|] == p
  }

  predicate EndsWith(s: string, p: string) {
    |p| <= |s| && s[|s| - |p|..] == p
  }

  predicate OccursAt(s: string, p: string, i: nat) {
    i + |p| <= |s| && s[i..i + |p|] == p
  }

  lemma OccursShift(s: string, p: string, j: nat)
    requires |s| > 0
    ensures OccursAt(s, p, j + 1) <==> OccursAt(s[1..], p, j)
  {
    if j + 1 + |p| <= |s| {
      assert s[1..][j..j + |p|] == s[j + 1..j + 1 + |p|];
    }
  }

  /** The first position at which `p` occurs in `s` (Python's `s.find(p)`, with None for -1). */
  function IndexOf(s: string, p: string): (r: Option<nat>)
    ensures r.Some? ==> OccursAt(s, p, r.value)
    ensures r.Some? ==> forall j: nat :: j < r.value ==> !OccursAt(s, p, j)
    ensures r.None? ==> forall j: nat :: !OccursAt(s, p, j)
    decreases |s|
  {
    if |s| < |p| then None
    else if s[..|p|] == p then
      assert s[0..0 + |p|] == s[..|p|];
      Some(0)
    else
      var rest := IndexOf(s[1..], p);
      assert forall j: nat :: OccursAt(s, p, j + 1) <==> OccursAt(s[1..], p, j) by {
        forall j: nat ensures OccursAt(s, p, j + 1) <==> OccursAt(s[1..], p, j) {
          OccursShift(s, p, j);
        }
      }
      assert !OccursAt(s, p, 0) by {
        assert s[0..0 + |p|] == s[..|p|];
      }
      match rest
      case None =>
        assert forall j: nat :: !OccursAt(s, p, j) by {
          forall j: nat ensures !OccursAt(s, p, j) {
            if j > 0 {
              assert !OccursAt(s[1..], p, j - 1);
            }
          }
        }
        None
      case Some(i) =>
        assert forall j: nat :: j < i + 1 ==> !OccursAt(s, p, j) by {
          forall j: nat | j < i + 1 ensures !OccursAt(s, p, j) {
            if j > 0 {
              assert !OccursAt(s[1..], p, j - 1);
            }
          }
        }
        Some(i + 1)
  }

  /** Python's `p in s` for strings. */
  predicate Contains(s: string, p: string) {
    IndexOf(s, p).Some?
  }

  lemma OccursInPrefix(s: string, p: string, m: nat, j: nat)
    requires m <= |s|
    requires OccursAt(s[..m], p, j)
    ensures OccursAt(s, p, j)
  {
    assert s[..m][j..j + |p|] == s[j..j + |p|];
  }

  lemma OccursInExtension(x: string, y: string, p: string, j: nat)
    requires OccursAt(x, p, j)
    ensures OccursAt(x + y, p, j)
  {
    assert (x + y)[j..j + |p|] == x[j..j + |p|];
  }

  /** Appending text after the first occurrence of `p` does not move that occurrence. */
  lemma IndexOfExtend(x: string, y: string, p: string)
    requires IndexOf(x, p).Some?
    ensures IndexOf(x + y, p) == IndexOf(x, p)
  {
    var i := IndexOf(x, p).value;
    OccursInExtension(x, y, p, i);
    forall j: nat | j < i ensures !OccursAt(x + y, p, j) {
      assert !OccursAt(x, p, j);
      assert (x + y)[j..j + |p|] == x[j..j + |p|];
    }
    IndexOfIs(x + y, p, i);
  }

  /** The first occurrence is at `i` when `p` occurs at `i` and nowhere before. */
  lemma IndexOfIs(s: string, p: string, i: nat)
    requires OccursAt(s, p, i)
    requires forall j: nat :: j < i ==> !OccursAt(s, p, j)
    ensures IndexOf(s, p) == Some(i)
  {
  }

  lemma ContainsSelf(s: string)
    ensures Contains(s, s)
  {
    assert OccursAt(s, s, 0) by {
      assert s[0..0 + |s|] == s;
    }
  }

  /** A one-character string occurs in `s` exactly when that character does. */
  lemma ContainsChar(s: string, c: char)
    ensures Contains(s, [c]) <==> c in s
  {
    if c in s {
      var k :| 0 <= k < |s| && s[k] == c;
      assert s[k..k + 1] == [c];
      assert OccursAt(s, [c], k);
    }
    if Contains(s, [c]) {
      var i := IndexOf(s, [c]).value;
      assert s[i..i + 1] == [c];
      assert s[i] == c;
    }
  }

  /** A string contains whatever occurs in one of its pieces. */
  lemma ContainsInMiddle(a: string, p: string, b: string)
    ensures Contains(a + p + b, p)
  {
    var s := a + p + b;
    assert s[|a|..|a| + |p|] == p;
    assert OccursAt(s, p, |a|);
  }

  // ---------------------------------------------------------------------------
  // split, join, replace

  /** Python's `s.split(sep)` for a non-empty separator. */
  function Split(s: string, sep: string): (parts: seq<string>)
    requires |sep| > 0
    ensures |parts| >= 1
    ensures forall i :: 0 <= i < |parts| ==> !Contains(parts[i], sep)
    decreases |s|
  {
    match IndexOf(s, sep)
    case None => [s]
    case Some(i) =>
      var head := s[..i];
      assert !Contains(head, sep) by {
        if IndexOf(head, sep).Some? {
          OccursInPrefix(s, sep, i, IndexOf(head, sep).value);
          assert false;
        }
      }
      [head] + Split(s[i + |sep|..], sep)
  }

  /** Python's `sep.join(parts)`. */
  function Join(sep: string, parts: seq<string>): string
  {
    if |parts| == 0 then ""
    else if |parts| == 1 then parts[0]
    else parts[0] + sep + Join(sep, parts[1..])
  }

  lemma JoinCons(sep: string, a: string, rest: seq<string>)
    requires |rest| > 0
    ensures Join(sep, [a] + rest) == a + sep + Join(sep, rest)
  {
    assert ([a] + rest)[1..] == rest;
  }

  lemma {:induction false} JoinSnoc(sep: string, xs: seq<string>, b: string)
    requires |xs| > 0
    ensures Join(sep, xs + [b]) == Join(sep, xs) + sep + b
    decreases |xs|
  {
    if |xs| == 1 {
      assert xs + [b] == [xs[0]] + [b];
      JoinCons(sep, xs[0], [b]);
    } else {
      assert xs + [b] == [xs[0]] + (xs[1..] + [b]);
      JoinCons(sep, xs[0], xs[1..] + [b]);
      JoinSnoc(sep, xs[1..], b);
    }
  }

  /** Joining a first piece, some middle pieces and a last piece. */
  lemma JoinEnds(sep: string, x: string, mid: seq<string>, y: string)
    ensures Join(sep, [x] + mid + [y]) == x + (if |mid| == 0 then sep else sep + Join(sep, mid) + sep) + y
  {
    assert [x] + mid + [y] == [x] + (mid + [y]);
    JoinCons(sep, x, mid + [y]);
    if |mid| == 0 {
      assert mid + [y] == [y];
    } else {
      JoinSnoc(sep, mid, y);
    }
  }

  /** The first character of a join is that of the first piece, the last that of the last piece. */
  lemma JoinEndChars(sep: string, parts: seq<string>)
    requires |parts| >= 1 && parts[0] != "" && parts[|parts| - 1] != ""
    ensures |Join(sep, parts)| > 0
    ensures Join(sep, parts)[0] == parts[0][0]
    ensures Join(sep, parts)[|Join(sep, parts)| - 1] == parts[|parts| - 1][|parts[|parts| - 1]| - 1]
  {
    var n := |parts|;
    if n >= 2 {
      var init := parts[..n - 1];
      assert parts == init + [parts[n - 1]];
      JoinSnoc(sep, init, parts[n - 1]);
      assert Join(sep, parts) == parts[0] + sep + Join(sep, parts[1..]);
    }
  }

  /** Pieces and a separator without line breaks join into a single line. */
  lemma {:induction false} JoinNoLineBreak(sep: string, parts: seq<string>)
    requires NoLineBreak(sep)
    requires forall i :: 0 <= i < |parts| ==> NoLineBreak(parts[i])
    ensures NoLineBreak(Join(sep, parts))
    decreases |parts|
  {
    if |parts| >= 2 {
      JoinNoLineBreak(sep, parts[1..]);
      NoLineBreakAppend(parts[0], sep);
      NoLineBreakAppend(parts[0] + sep, Join(sep, parts[1..]));
    }
  }

  lemma NoLineBreakAppend(a: string, b: string)
    requires NoLineBreak(a) && NoLineBreak(b)
    ensures NoLineBreak(a + b)
  {
    assert forall k :: |a| <= k < |a + b| ==> (a + b)[k] == b[k - |a|];
  }

  /** Python's `"".join(parts)`. */
  function Concat(parts: seq<string>): string {
    Join("", parts)
  }

  /** Python's `s.replace(old, new)`: every non-overlapping occurrence, left to right. */
  function Replace(s: string, target: string, replacement: string): string
    requires |target| > 0
  {
    Join(replacement, Split(s, target))
  }

  /** Joining the pieces of a split gives back the original text. */
  lemma {:induction false} SplitJoin(s: string, sep: string)
    requires |sep| > 0
    ensures Join(sep, Split(s, sep)) == s
    decreases |s|
  {
    var r := IndexOf(s, sep);
    if r.Some? {
      var i := r.value;
      var head, rest := s[..i], s[i + |sep|..];
      var parts := Split(rest, sep);
      SplitJoin(rest, sep);
      assert Split(s, sep) == [head] + parts;
      assert ([head] + parts)[1..] == parts;
      assert Join(sep, [head] + parts) == head + sep + Join(sep, parts);
      assert s[i..i + |sep|] == sep;
      assert s == head + sep + rest;
    }
  }

  /** `p` is a clean piece for separator `sep`: in `p + sep` the first occurrence of `sep` is the appended one. */
  predicate Delimits(p: string, sep: string) {
    IndexOf(p + sep, sep) == Some(|p|)
  }

  lemma DelimitsNoContains(p: string, sep: string)
    requires |sep| > 0 && Delimits(p, sep)
    ensures !Contains(p, sep)
  {
    if Contains(p, sep) {
      IndexOfExtend(p, sep, sep);
      assert false;
    }
  }

  /** With a one-character separator, every piece that does not contain it is clean. */
  lemma DelimitsChar(p: string, c: char)
    requires !Contains(p, [c])
    ensures Delimits(p, [c])
  {
    var s := p + [c];
    assert OccursAt(s, [c], |p|) by {
      assert s[|p|..|p| + 1] == [c];
    }
    forall j: nat | j < |p| ensures !OccursAt(s, [c], j) {
      assert !OccursAt(p, [c], j);
      assert s[j..j + 1] == p[j..j + 1];
    }
  }

  /** Splitting a join of clean pieces gives back the pieces. */
  lemma {:induction false} JoinSplit(sep: string, parts: seq<string>)
    requires |sep| > 0 && |parts| >= 1
    requires forall i :: 0 <= i < |parts| ==> Delimits(parts[i], sep)
    ensures Split(Join(sep, parts), sep) == parts
    decreases |parts|
  {
    if |parts| == 1 {
      DelimitsNoContains(parts[0], sep);
    } else {
      JoinHead(sep, parts, "");
      assert Join(sep, parts) + "" == Join(sep, parts);
      SplitCons(parts[0], sep, Join(sep, parts[1..]));
      JoinSplit(sep, parts[1..]);
      assert [parts[0]] + parts[1..] == parts;
    }
  }

  /** A clean piece followed by the separator splits off as the first part. */
  lemma SplitCons(p: string, sep: string, rest: string)
    requires |sep| > 0 && Delimits(p, sep)
    ensures Split(p + sep + rest, sep) == [p] + Split(rest, sep)
  {
    IndexOfExtend(p + sep, rest, sep);
    var s := p + sep + rest;
    assert s[..|p|] == p;
    assert s[|p| + |sep|..] == rest;
  }

  /** A join of two or more pieces is the first piece, the separator, and the join of the rest. */
  lemma JoinHead(sep: string, parts: seq<string>, tail: string)
    requires |parts| >= 2
    ensures Join(sep, parts) + tail == parts[0] + sep + (Join(sep, parts[1..]) + tail)
  {
    assert Join(sep, parts) == parts[0] + sep + Join(sep, parts[1..]);
  }

  /** Pieces free of a one-character separator split back out of their join. */
  lemma JoinSplitChar(c: char, parts: seq<string>)
    requires |parts| >= 1
    requires forall i :: 0 <= i < |parts| ==> c !in parts[i]
    ensures Split(Join([c], parts), [c]) == parts
  {
    forall i | 0 <= i < |parts| ensures Delimits(parts[i], [c]) {
      ContainsChar(parts[i], c);
      DelimitsChar(parts[i], c);
    }
    JoinSplit([c], parts);
  }

  /** Removing a leading tag that does not occur again leaves the rest. */
  lemma ReplaceTag(tag: string, rest: string)
    requires |tag| > 0 && !Contains(rest, tag)
    ensures Replace(tag + rest, tag, "") == rest
  {
    var s := tag + rest;
    assert s[0..|tag|] == tag;
    IndexOfIs(s, tag, 0);
    assert s[..0] == "" && s[|tag|..] == rest;
    assert Split(s, tag) == [""] + Split(rest, tag);
    assert Split(rest, tag) == [rest];
    assert Join("", ["", rest]) == "" + "" + Join("", [rest]);
  }

  /** A split whose first piece is empty splits text that is empty or starts with the separator. */
  lemma SplitFirstEmpty(s: string, sep: string)
    requires |sep| > 0 && Split(s, sep)[0] == ""
    ensures s == "" || StartsWith(s, sep)
  {
    match IndexOf(s, sep)
    case None =>
    case Some(i) =>
      assert s[..i] == "";
      assert OccursAt(s, sep, 0);
      assert s[0..|sep|] == s[..|sep|];
  }

  // ---------------------------------------------------------------------------
  // splitlines

  /** The index of the first line break in `s`, or `|s|` when there is none. */
  function LineEnd(s: string): (i: nat)
    ensures i <= |s|
    ensures i < |s| ==> IsLineBreak(s[i])
    ensures forall k :: 0 <= k < i ==> !IsLineBreak(s[k])
    decreases |s|
  {
    if |s| == 0 || IsLineBreak(s[0]) then 0 else 1 + LineEnd(s[1..])
  }

  /** The length of the line break at `i`: two for "\r\n", one for any other. */
  function BreakWidth(s: string, i: nat): (w: nat)
    requires i < |s|
    ensures 1 <= w <= 2 && i + w <= |s|
  {
    if s[i] == '\r' && i + 1 < |s| && s[i + 1] == '\n' then 2 else 1
  }

  /** Python's `s.splitlines()`: no trailing empty line, "\r\n" is one boundary. */
  function SplitLines(s: string): (lines: seq<string>)
    ensures s != [] <==> |lines| > 0
    decreases |s|
  {
    if s == [] then []
    else
      var i := LineEnd(s);
      if i == |s| then [s]
      else
        [s[..i]] + SplitLines(s[i + BreakWidth(s, i)..])
  }

  /** The first line of a text with a line break, and where the rest of the text starts. */
  lemma SplitLinesHead(s: string) returns (i: nat, next: nat)
    requires s != [] && LineEnd(s) < |s|
    ensures i == LineEnd(s) && i < next <= |s|
    ensures SplitLines(s) == [s[..i]] + SplitLines(s[next..])
  {
    i := LineEnd(s);
    next := i + BreakWidth(s, i);
  }

  /** No line holds a line break. */
  lemma {:induction false} SplitLinesNoBreak(s: string)
    ensures forall i :: 0 <= i < |SplitLines(s)| ==> NoLineBreak(SplitLines(s)[i])
    decreases |s|
  {
    if s != [] && LineEnd(s) < |s| {
      var i, next := SplitLinesHead(s);
      SplitLinesNoBreak(s[next..]);
      forall j | 0 <= j < |SplitLines(s)| ensures NoLineBreak(SplitLines(s)[j]) {
        if j > 0 {
          ConsAt(s[..i], SplitLines(s[next..]), j);
        }
      }
    }
  }

  /** Every character of every line comes from the text. */
  lemma {:induction false} SplitLinesChars(s: string)
    ensures forall i, c :: 0 <= i < |SplitLines(s)| && c in SplitLines(s)[i] ==> c in s
    decreases |s|
  {
    var ls := SplitLines(s);
    if s != [] {
      if LineEnd(s) == |s| {
        assert ls == [s];
      } else {
        var i, next := SplitLinesHead(s);
        var rest := s[next..];
        SplitLinesChars(rest);
        forall j, c | 0 <= j < |ls| && c in ls[j] ensures c in s {
          if j == 0 {
            InPrefix(s, i, c);
          } else {
            ConsAt(s[..i], SplitLines(rest), j);
            InSuffix(s, next, c);
          }
        }
      }
    }
  }

  /** A non-empty sequence is its head followed by its tail. */
  lemma HeadTail<T>(xs: seq<T>)
    requires |xs| > 0
    ensures [xs[0]] + xs[1..] == xs
  {
  }

  /** Element `j > 0` of `[x] + xs` is element `j - 1` of `xs`. */
  lemma ConsAt<T>(x: T, xs: seq<T>, j: nat)
    requires 0 < j <= |xs|
    ensures ([x] + xs)[j] == xs[j - 1]
  {
  }

  lemma InPrefix(s: string, i: nat, c: char)
    requires i <= |s| && c in s[..i]
    ensures c in s
  {
    var k :| 0 <= k < i && s[..i][k] == c;
    assert s[k] == c;
  }

  lemma InSuffix(s: string, i: nat, c: char)
    requires i <= |s| && c in s[i..]
    ensures c in s
  {
    var k :| 0 <= k < |s| - i && s[i..][k] == c;
    assert s[i + k] == c;
  }

  lemma LineEndAt(a: string, b: string)
    requires NoLineBreak(a)
    requires |b| > 0 && IsLineBreak(b[0])
    ensures LineEnd(a + b) == |a|
  {
    assert forall k :: 0 <= k < |a| ==> (a + b)[k] == a[k];
    assert (a + b)[|a|] == b[0];
  }

  lemma LineEndNone(a: string)
    requires NoLineBreak(a)
    ensures LineEnd(a) == |a|
  {
  }

  /** A single line, optionally ended by "\n", splits into itself. */
  lemma SplitLinesOne(line: string, ended: bool)
    requires line != "" && NoLineBreak(line)
    ensures SplitLines(line + (if ended then "\n" else "")) == [line]
  {
    var s := line + (if ended then "\n" else "");
    if ended {
      LineEndAt(line, "\n");
      assert s[..|line|] == line;
      assert s[|line| + 1..] == "";
      assert SplitLines(s) == [line] + SplitLines("");
    } else {
      assert s == line;
      LineEndNone(line);
    }
  }

  /** A line followed by "\n" and more text splits into that line and the lines of the rest. */
  lemma SplitLinesCons(first: string, rest: string)
    requires NoLineBreak(first)
    ensures SplitLines(first + "\n" + rest) == [first] + SplitLines(rest)
  {
    var s := first + "\n" + rest;
    assert s == first + ("\n" + rest);
    LineEndAt(first, "\n" + rest);
    assert s[|first|] == '\n';
    assert s[..|first|] == first;
    assert s[|first| + 1..] == rest;
  }

  /**
    Lines without line breaks, joined with "\n" (and optionally ended by one more "\n"),
    split back into the same lines when the last one is not empty.
   */
  lemma {:induction false} SplitLinesJoin(lines: seq<string>, ended: bool)
    requires |lines| >= 1 && lines[|lines| - 1] != ""
    requires forall i :: 0 <= i < |lines| ==> NoLineBreak(lines[i])
    ensures SplitLines(Join("\n", lines) + (if ended then "\n" else "")) == lines
    decreases |lines|
  {
    var tail := if ended then "\n" else "";
    if |lines| == 1 {
      SplitLinesOne(lines[0], ended);
    } else {
      var rest := Join("\n", lines[1..]) + tail;
      JoinHead("\n", lines, tail);
      LinesTail(lines);
      SplitLinesJoin(lines[1..], ended);
      SplitLinesCons(lines[0], rest);
      HeadTail(lines);
    }
  }

  /** The lines after the first are still lines. */
  lemma LinesTail(lines: seq<string>)
    requires |lines| >= 1
    requires forall i :: 0 <= i < |lines| ==> NoLineBreak(lines[i])
    ensures forall i :: 0 <= i < |lines[1..]| ==> NoLineBreak(lines[1..][i])
  {
    forall i | 0 <= i < |lines[1..]| ensures NoLineBreak(lines[1..][i]) {
      assert lines[1..][i] == lines[i + 1];
    }
  }

  /**
    Trimming several lines joined by "\n" only trims the front of the first line and the
    back of the last one, when neither of those trims to nothing.
   */
  lemma TrimJoin(lines: seq<string>, drop: char -> bool) returns (trimmed: seq<string>)
    requires |lines| >= 2
    requires Trim(lines[0], drop) != "" && Trim(lines[|lines| - 1], drop) != ""
    ensures Trim(Join("\n", lines), drop) == Join("\n", trimmed)
    ensures |trimmed| == |lines|
    ensures |trimmed[0]| <= |lines[0]| && trimmed[0] == lines[0][|lines[0]| - |trimmed[0]|..]
    ensures |trimmed[|lines| - 1]| <= |lines[|lines| - 1]|
    ensures trimmed[|lines| - 1] == lines[|lines| - 1][..|trimmed[|lines| - 1]|]
    ensures forall i :: 0 < i < |lines| - 1 ==> trimmed[i] == lines[i]
    ensures forall i :: 0 <= i < |lines| ==> Trim(trimmed[i], drop) == Trim(lines[i], drop)
    ensures trimmed[|lines| - 1] != ""
  {
    var n := |lines|;
    var x, y := lines[0], lines[n - 1];
    var mid := lines[1..n - 1];
    var x', y' := TrimLeft(x, drop), TrimRight(y, drop);
    TrimLeftSpec(x, drop);
    TrimRightSpec(y, drop);
    TrimLeftKeeps(x, drop);
    TrimRightKeeps(y, drop);
    trimmed := [x'] + mid + [y'];
    assert lines == [x] + mid + [y];
    JoinEnds("\n", x, mid, y);
    JoinEnds("\n", x', mid, y');
    var sepd := if |mid| == 0 then "\n" else "\n" + Join("\n", mid) + "\n";
    TrimConcat(x, sepd, y, drop);
  }

  /** Trimming only the front of a string that does not trim to nothing leaves its core alone. */
  lemma TrimLeftKeeps(x: string, drop: char -> bool)
    requires Trim(x, drop) != ""
    ensures TrimLeft(x, drop) != [] && !drop(TrimLeft(x, drop)[0])
    ensures Trim(TrimLeft(x, drop), drop) == Trim(x, drop)
  {
    TrimLeftSpec(x, drop);
    TrimRightSpec(TrimLeft(x, drop), drop);
  }

  /** Trimming only the back of a string that does not trim to nothing leaves its core alone. */
  lemma TrimRightKeeps(y: string, drop: char -> bool)
    requires Trim(y, drop) != ""
    ensures TrimRight(y, drop) != [] && !drop(TrimRight(y, drop)[|TrimRight(y, drop)| - 1])
    ensures Trim(TrimRight(y, drop), drop) == Trim(y, drop)
  {
    var py, qy := TrimParts(y, drop);
    var my := Trim(y, drop);
    assert (py + my)[|py + my| - 1] == my[|my| - 1];
    TrimRightOf(py + my, qy, drop);
    TrimAround(py, my, qy, drop);
  }

  lemma Regroup(a: string, b: string, c: string, d: string, e: string)
    ensures (a + b) + c + (d + e) == a + (b + c + d) + e
  {
  }

  /**
    Trimming `x + sep + y` trims only the front of `x` and the back of `y`, when neither
    trims to nothing.
   */
  lemma TrimConcat(x: string, sep: string, y: string, drop: char -> bool)
    requires Trim(x, drop) != "" && Trim(y, drop) != ""
    ensures Trim(x + sep + y, drop) == TrimLeft(x, drop) + sep + TrimRight(y, drop)
  {
    TrimLeftKeeps(x, drop);
    TrimRightKeeps(y, drop);
    var pre := TrimLeftParts(x, drop);
    var post := TrimRightParts(y, drop);
    var x', y' := TrimLeft(x, drop), TrimRight(y, drop);
    var core := x' + sep + y';
    Regroup(pre, x', sep, y', post);
    assert core[0] == x'[0];
    assert core[|core| - 1] == y'[|y'| - 1];
    TrimOf(pre, core, post, drop);
  }

  /** A piece of a line is a line. */
  lemma NoLineBreakSlice(s: string, i: nat, j: nat)
    requires NoLineBreak(s) && i <= j <= |s|
    ensures NoLineBreak(s[i..j])
  {
    assert forall k :: 0 <= k < j - i ==> s[i..j][k] == s[i + k];
  }

  /** Lines whose first is cut at the front and whose last is cut at the back are still lines. */
  lemma NoLineBreakEnds(lines: seq<string>, cut: seq<string>)
    requires |lines| >= 2 && |cut| == |lines|
    requires forall i :: 0 <= i < |lines| ==> NoLineBreak(lines[i])
    requires |cut[0]| <= |lines[0]| && cut[0] == lines[0][|lines[0]| - |cut[0]|..]
    requires |cut[|lines| - 1]| <= |lines[|lines| - 1]|
    requires cut[|lines| - 1] == lines[|lines| - 1][..|cut[|lines| - 1]|]
    requires forall i :: 0 < i < |lines| - 1 ==> cut[i] == lines[i]
    ensures forall i :: 0 <= i < |cut| ==> NoLineBreak(cut[i])
  {
    var n := |lines|;
    NoLineBreakSlice(lines[0], |lines[0]| - |cut[0]|, |lines[0]|);
    NoLineBreakSlice(lines[n - 1], 0, |cut[n - 1]|);
  }

  /**
    Stripping lines joined by "\n" gives text that splits into as many lines, each
    stripping to what the original line strips to, when no line is blank.
   */
  lemma StripJoinLines(lines: seq<string>) returns (trimmed: seq<string>)
    requires |lines| >= 1
    requires forall i :: 0 <= i < |lines| ==> NoLineBreak(lines[i]) && Strip(lines[i]) != ""
    ensures SplitLines(Strip(Join("\n", lines))) == trimmed
    ensures |trimmed| == |lines|
    ensures forall i :: 0 <= i < |lines| ==> Strip(trimmed[i]) == Strip(lines[i])
  {
    var n := |lines|;
    if n == 1 {
      var x := lines[0];
      var px, qx := TrimParts(x, IsSpace);
      trimmed := [Strip(x)];
      assert Join("\n", lines) == x;
      TrimIdempotent(x, IsSpace);
      NoLineBreakSlice(x, |px|, |px| + |Strip(x)|);
      assert x[|px|..|px| + |Strip(x)|] == Strip(x);
      SplitLinesOne(Strip(x), false);
      assert Strip(x) + "" == Strip(x);
    } else {
      trimmed := TrimJoin(lines, IsSpace);
      NoLineBreakEnds(lines, trimmed);
      SplitLinesJoin(trimmed, false);
      assert Join("\n", trimmed) + "" == Join("\n", trimmed);
    }
  }

  // ---------------------------------------------------------------------------
  // lower, str(n), int(digits)

  /** `s.lower()` restricted to ASCII letters. */
  function LowerAscii(s: string): (r: string)
    ensures |r| == |s|
  {
    seq(|s|, k requires 0 <= k < |s| => if 'A' <= s[k] <= 'Z' then (s[k] as int + 32) as char else s[k])
  }

  predicate NoUpperAscii(s: string) {
    forall k :: 0 <= k < |s| ==> !('A' <= s[k] <= 'Z')
  }

  /**
    No upper-case ASCII letter is left after lowering, lowering again changes nothing,
    and a string without upper-case ASCII letters is returned as it is.
   */
  lemma LowerAsciiIdempotent(s: string)
    ensures NoUpperAscii(LowerAscii(s))
    ensures LowerAscii(LowerAscii(s)) == LowerAscii(s)
    ensures NoUpperAscii(s) ==> LowerAscii(s) == s
  {
    var r := LowerAscii(s);
    forall k | 0 <= k < |r| ensures !('A' <= r[k] <= 'Z') {
      if 'A' <= s[k] <= 'Z' {
        assert r[k] == (s[k] as int + 32) as char;
      }
    }
  }

  function DigitChar(d: nat): char
    requires d < 10
  {
    ('0' as int + d) as char
  }

  /** The value of a run of decimal digits: Python's `int(s)`. */
  function DigitsValue(s: string): nat
    requires AllDigits(s)
  {
    if s == [] then 0 else DigitsValue(s[..|s| - 1]) * 10 + (s[|s| - 1] as int - '0' as int)
  }

  /** Python's `str(n)` for a natural number; reading the digits back gives `n`. */
  function DecimalString(n: nat): (s: string)
    ensures |s| >= 1 && AllDigits(s)
    ensures DigitsValue(s) == n
  {
    if n < 10 then [DigitChar(n)]
    else
      var h := DecimalString(n / 10);
      var s := h + [DigitChar(n % 10)];
      assert s[..|s| - 1] == h;
      s
  }
}
