/**
 * The Python `str` operations the backend relies on, with Python's semantics:
 * `strip`, `lstrip(chars)`, `split(sep)`, `sep.join`, `find`, `rfind`,
 * slicing with negative and out-of-range bounds, `replace(pat, "")`,
 * `in`, and ASCII `lower`/`upper`.
 */
module PyText {

  /** The characters for which Python's `str.isspace()` holds; `str.strip()` removes these. */
  predicate IsSpace(c: char) {
    || c == ' ' || c == '\t' || c == '\n' || c == '\r' || c == '\U{B}' || c == '\U{C}'
    || ('\U{1C}' <= c <= '\U{1F}') || c == '\U{85}' || c == '\U{A0}' || c == '\U{1680}'
    || ('\U{2000}' <= c <= '\U{200A}') || c == '\U{2028}' || c == '\U{2029}'
    || c == '\U{202F}' || c == '\U{205F}' || c == '\U{3000}'
  }

  /** `s.lstrip(chars)`, with the character set given as a predicate. */
  function TrimLeft(s: string, drop: char -> bool): (r: string)
    ensures |r| <= |s| && r == s[|s| - |r|..]
    ensures forall i :: 0 <= i < |s| - |r| ==> drop(s[i])
    ensures r == [] || !drop(r[0])
    decreases |s|
  {
    if s != [] && drop(s[0]) then TrimLeft(s[1..], drop) else s
  }

  /** `s.rstrip(chars)`, with the character set given as a predicate. */
  function TrimRight(s: string, drop: char -> bool): (r: string)
    ensures |r| <= |s| && r == s[..|r|]
    ensures forall i :: |r| <= i < |s| ==> drop(s[i])
    ensures r == [] || !drop(r[|r| - 1])
    decreases |s|
  {
    if s != [] && drop(s[|s| - 1]) then TrimRight(s[..|s| - 1], drop) else s
  }

  predicate NoEdgeSpace(s: string) {
    s == [] || (!IsSpace(s[0]) && !IsSpace(s[|s| - 1]))
  }

  /**
   * `s.strip()`: the piece of `s` left after dropping whitespace at its two ends
   * only. The result starts where the leading whitespace ends, everything cut
   * off on either side is whitespace, and neither end of the result is; a
   * string is left alone exactly when it has no whitespace at its ends.
   */
  function Strip(s: string): (r: string)
    ensures NoEdgeSpace(r)
    ensures r == s <==> NoEdgeSpace(s)
    ensures |r| <= |s|
    ensures CutsOnly(s, r, IsSpace)
  {
    TrimBothEdges(s);
    TrimCuts(s, IsSpace);
    TrimRight(TrimLeft(s, IsSpace), IsSpace)
  }

  /** Trimming whitespace on the left and then on the right leaves neither end a space. */
  lemma TrimBothEdges(s: string)
    ensures var r := TrimRight(TrimLeft(s, IsSpace), IsSpace);
      NoEdgeSpace(r) && (r == s <==> NoEdgeSpace(s)) && |r| <= |s|
  {
    var l := TrimLeft(s, IsSpace);
    var r := TrimRight(l, IsSpace);
    if r != [] {
      assert r[0] == l[0];
    }
    if r == s {
      assert |l| == |s|;
      assert l == s;
    }
  }

  /**
   * `r` is the piece of `s` that starts at `l`, and everything of `s` on either
   * side of it is a character `drop` holds for.
   */
  predicate CutsAt(s: string, l: int, r: string, drop: char -> bool) {
    && 0 <= l && l + |r| <= |s| && r == s[l..l + |r|]
    && (forall i :: 0 <= i < l ==> drop(s[i]))
    && (forall i :: l + |r| <= i < |s| ==> drop(s[i]))
  }

  /** `r` is what is left of `s` once characters `drop` holds for are cut from its front and its back. */
  predicate CutsOnly(s: string, r: string, drop: char -> bool) {
    CutsAt(s, |s| - |TrimLeft(s, drop)|, r, drop)
  }

  /** Trimming on both sides keeps one piece of the text and cuts only dropped characters around it. */
  lemma TrimCuts(s: string, drop: char -> bool)
    ensures CutsOnly(s, TrimRight(TrimLeft(s, drop), drop), drop)
  {
    var left := TrimLeft(s, drop);
    var r := TrimRight(left, drop);
    SuffixCuts(s, left, drop);
    RightCuts(left, drop);
    CutsCompose(s, |s| - |left|, left, r, drop);
  }

  /** A suffix of `s` preceded only by dropped characters is a piece cut from the front. */
  lemma SuffixCuts(s: string, t: string, drop: char -> bool)
    requires |t| <= |s| && t == s[|s| - |t|..]
    requires forall i :: 0 <= i < |s| - |t| ==> drop(s[i])
    ensures CutsAt(s, |s| - |t|, t, drop)
  {
    assert s[|s| - |t|..|s|] == s[|s| - |t|..];
  }

  /** `rstrip` cuts only dropped characters from the back. */
  lemma RightCuts(s: string, drop: char -> bool)
    ensures CutsAt(s, 0, TrimRight(s, drop), drop)
  {
  }

  /** Cutting a piece out of a piece is cutting a piece out of the whole. */
  lemma CutsCompose(s: string, l: int, mid: string, r: string, drop: char -> bool)
    requires CutsAt(s, l, mid, drop) && CutsAt(mid, 0, r, drop)
    ensures CutsAt(s, l, r, drop)
  {
    forall i | l + |r| <= i < |s|
      ensures drop(s[i])
    {
      if i < l + |mid| {
        assert s[i] == mid[i - l];
      }
    }
  }

  /** `s.find(c)` for a one-character needle: the first index of `c`, or -1. */
  function Find(s: string, c: char): (r: int)
    ensures -1 <= r < |s|
    ensures r == -1 <==> c !in s
    ensures r >= 0 ==> s[r] == c && forall j :: 0 <= j < r ==> s[j] != c
  {
    if s == [] then -1
    else if s[0] == c then 0
    else
      var k := Find(s[1..], c);
      if k < 0 then -1 else k + 1
  }

  /** `s.rfind(c)` for a one-character needle: the last index of `c`, or -1. */
  function RFind(s: string, c: char): (r: int)
    ensures -1 <= r < |s|
    ensures r == -1 <==> c !in s
    ensures r >= 0 ==> s[r] == c && forall j :: r < j < |s| ==> s[j] != c
    decreases |s|
  {
    if s == [] then -1
    else if s[|s| - 1] == c then |s| - 1
    else
      var k := RFind(s[..|s| - 1], c);
      assert c in s ==> c in s[..|s| - 1] by {
        assert s == s[..|s| - 1] + [s[|s| - 1]];
      }
      k
  }

  /** How Python normalises one slice bound against a length `n`. */
  function SliceBound(i: int, n: nat): (k: nat)
    ensures k <= n
    ensures 0 <= i <= n ==> k == i
    ensures i < 0 && 0 <= i + n ==> k == i + n
    ensures i > n ==> k == n
    ensures i + n < 0 ==> k == 0
  {
    var j := if i < 0 then i + n else i;
    if j < 0 then 0 else if j > n then n else j
  }

  /**
   * `s[start:stop]` with Python's treatment of negative and out-of-range bounds:
   * the piece between the two normalised bounds, empty when they cross.
   */
  function Slice(s: string, start: int, stop: int): (r: string)
    ensures |r| <= |s|
    ensures 0 <= start <= stop <= |s| ==> r == s[start..stop]
    ensures SliceBound(stop, |s|) <= SliceBound(start, |s|) ==> r == []
    ensures SliceBound(start, |s|) < SliceBound(stop, |s|) ==> r == s[SliceBound(start, |s|)..SliceBound(stop, |s|)]
  {
    var a := SliceBound(start, |s|);
    var b := SliceBound(stop, |s|);
    if a < b then s[a..b] else []
  }

  /** `s[:n]` for `n >= 0`, on a string or on a list. */
  function Prefix<T>(s: seq<T>, n: nat): (r: seq<T>)
    ensures |r| <= n && r <= s
    ensures |s| <= n ==> r == s
    ensures |s| > n ==> |r| == n
  {
    if |s| <= n then s else s[..n]
  }

  /** `sep.join(parts)`: empty for no pieces, a single piece unchanged, and otherwise a text that starts with the first piece. */
  function Join(sep: string, parts: seq<string>): (r: string)
    ensures parts == [] ==> r == []
    ensures |parts| == 1 ==> r == parts[0]
    ensures |parts| >= 1 ==> parts[0] <= r
    decreases |parts|
  {
    if |parts| == 0 then ""
    else if |parts| == 1 then parts[0]
    else parts[0] + sep + Join(sep, parts[1..])
  }

  function TotalLength(parts: seq<string>): nat
    decreases |parts|
  {
    if parts == [] then 0 else |parts[0]| + TotalLength(parts[1..])
  }

  /** `s.split(sep)` for a one-character separator: never empty, and no piece holds `sep`. */
  function Split(s: string, sep: char): (r: seq<string>)
    ensures |r| >= 1
    ensures forall i :: 0 <= i < |r| ==> sep !in r[i]
    decreases |s|
  {
    var i := Find(s, sep);
    if i < 0 then [s] else [s[..i]] + Split(s[i + 1..], sep)
  }

  /** `sub` occurs in `s` starting at index `i`. */
  predicate OccursAt(s: string, sub: string, i: int) {
    0 <= i && i + |sub| <= |s| && s[i..i + |sub|] == sub
  }

  /** `sub in s`: true exactly when `sub` occurs at some index of `s`. */
  predicate Contains(s: string, sub: string)
    ensures Contains(s, sub) <==> exists i :: OccursAt(s, sub, i)
    decreases |s|
  {
    OccursStep(s, sub);
    sub <= s || (s != [] && Contains(s[1..], sub))
  }

  /** An occurrence is either at the front or in the rest. */
  lemma OccursStep(s: string, sub: string)
    ensures (exists i :: OccursAt(s, sub, i)) <==> sub <= s || (s != [] && exists i :: OccursAt(s[1..], sub, i))
  {
    if sub <= s {
      assert OccursAt(s, sub, 0);
    }
    if s != [] {
      forall i | OccursAt(s[1..], sub, i)
        ensures OccursAt(s, sub, i + 1)
      {
        assert s[1..][i..i + |sub|] == s[i + 1..i + 1 + |sub|];
      }
      forall i | OccursAt(s, sub, i) && i > 0
        ensures OccursAt(s[1..], sub, i - 1)
      {
        assert s[1..][i - 1..i - 1 + |sub|] == s[i..i + |sub|];
      }
    }
  }

  /**
   * `s.replace(pat, "")`: every leftmost, non-overlapping occurrence of `pat`
   * removed. Nothing grows, and an empty pattern changes nothing.
   */
  function RemoveAll(s: string, pat: string): (r: string)
    ensures |r| <= |s|
    ensures pat == [] ==> r == s
    decreases |s|
  {
    if s == [] || pat == [] then s
    else if pat <= s then RemoveAll(s[|pat|..], pat)
    else [s[0]] + RemoveAll(s[1..], pat)
  }

  /** A text in which the pattern does not occur comes out of `replace(pat, "")` unchanged. */
  lemma {:induction false} RemoveAllAbsent(s: string, pat: string)
    requires !Contains(s, pat)
    ensures RemoveAll(s, pat) == s
    decreases |s|
  {
    if s != [] && pat != [] {
      RemoveAllAbsent(s[1..], pat);
      HeadSplits(s);
    }
  }

  function LowerChar(c: char): char {
    if 'A' <= c <= 'Z' then (c as int + 32) as char else c
  }

  function UpperChar(c: char): char {
    if 'a' <= c <= 'z' then (c as int - 32) as char else c
  }

  /** `s.lower()` on the ASCII letters. */
  function Lower(s: string): (r: string)
    ensures |r| == |s| && forall i :: 0 <= i < |s| ==> r[i] == LowerChar(s[i])
  {
    seq(|s|, i requires 0 <= i < |s| => LowerChar(s[i]))
  }

  /** `s.upper()` on the ASCII letters. */
  function Upper(s: string): (r: string)
    ensures |r| == |s| && forall i :: 0 <= i < |s| ==> r[i] == UpperChar(s[i])
  {
    seq(|s|, i requires 0 <= i < |s| => UpperChar(s[i]))
  }

  // ---------------------------------------------------------------------
  // sequences
  // ---------------------------------------------------------------------

  /** A non-empty sequence is its front followed by its last element. */
  lemma LastSplits<T>(xs: seq<T>)
    requires xs != []
    ensures xs == xs[..|xs| - 1] + [xs[|xs| - 1]]
  {
  }

  /** A non-empty sequence is its first element followed by the rest. */
  lemma HeadSplits<T>(xs: seq<T>)
    requires xs != []
    ensures xs == [xs[0]] + xs[1..]
  {
  }

  /** The prefix of length `i + 1` is the prefix of length `i` and the element at `i`. */
  lemma PrefixGrows<T>(xs: seq<T>, i: nat)
    requires i < |xs|
    ensures xs[..i + 1] == xs[..i] + [xs[i]]
  {
  }

  lemma AppendEmpty<T>(xs: seq<T>)
    ensures xs + [] == xs
  {
  }

  /** Concatenation is associative. */
  lemma AppendAssociates<T>(x: seq<T>, y: seq<T>, z: seq<T>)
    ensures x + (y + z) == (x + y) + z
  {
  }

  // ---------------------------------------------------------------------
  // join and split
  // ---------------------------------------------------------------------

  /** Joining `n >= 1` pieces adds exactly `n - 1` separators to their total length. */
  lemma {:induction false} JoinLength(sep: string, parts: seq<string>)
    ensures |parts| >= 1 ==> |Join(sep, parts)| == TotalLength(parts) + (|parts| - 1) * |sep|
    decreases |parts|
  {
    if |parts| > 1 {
      JoinLength(sep, parts[1..]);
    }
  }

  /** One step of `Join` on a list of at least two pieces. */
  lemma JoinCons(sep: string, head: string, rest: seq<string>)
    requires rest != []
    ensures Join(sep, [head] + rest) == head + sep + Join(sep, rest)
  {
    assert ([head] + rest)[1..] == rest;
  }

  /** One step of `Split`: the piece before the first separator, then the split of the rest. */
  lemma SplitStep(s: string, sep: char)
    requires sep in s
    ensures Split(s, sep) == [s[..Find(s, sep)]] + Split(s[Find(s, sep) + 1..], sep)
    ensures s == s[..Find(s, sep)] + [sep] + s[Find(s, sep) + 1..]
  {
    var i := Find(s, sep);
    assert 0 <= i < |s| && s[i] == sep;
    assert s == s[..i] + [s[i]] + s[i + 1..];
  }

  /** Splitting on a character and joining back with it gives the text back. */
  lemma {:induction false} JoinSplit(s: string, sep: char)
    ensures Join([sep], Split(s, sep)) == s
    decreases |s|
  {
    if sep in s {
      var i := Find(s, sep);
      var head, tail := s[..i], s[i + 1..];
      SplitStep(s, sep);
      JoinSplit(tail, sep);
      JoinCons([sep], head, Split(tail, sep));
    } else {
      assert Split(s, sep) == [s];
    }
  }

  lemma FindAfterPiece(a: string, sep: char, b: string)
    requires sep !in a
    ensures Find(a + [sep] + b, sep) == |a|
  {
    var s := a + [sep] + b;
    var k := Find(s, sep);
    assert s[|a|] == sep;
    assert forall j :: 0 <= j < |a| ==> s[j] == a[j];
  }

  /** Joining pieces that do not contain the separator and splitting again gives the pieces back. */
  lemma {:induction false} SplitJoin(parts: seq<string>, sep: char)
    requires |parts| >= 1
    requires forall i :: 0 <= i < |parts| ==> sep !in parts[i]
    ensures Split(Join([sep], parts), sep) == parts
    decreases |parts|
  {
    if |parts| == 1 {
      assert Find(parts[0], sep) == -1;
    } else {
      var head, tail := parts[0], parts[1..];
      var rest := Join([sep], tail);
      assert parts == [head] + tail;
      JoinCons([sep], head, tail);
      var s := head + [sep] + rest;
      FindAfterPiece(head, sep, rest);
      assert s[..|head|] == head;
      assert s[|head| + 1..] == rest;
      SplitJoin(tail, sep);
    }
  }

  // ---------------------------------------------------------------------
  // removing code fences
  // ---------------------------------------------------------------------

  const Fence := "```"

  function LeadingTicks(s: string): nat
    decreases |s|
  {
    if s != [] && s[0] == '`' then 1 + LeadingTicks(s[1..]) else 0
  }

  /** A text that does not open with a fence opens with at most two backticks. */
  lemma ShortTickRun(s: string)
    requires s != [] && s[0] == '`' && !(Fence <= s)
    ensures LeadingTicks(s[1..]) <= 1
  {
    var t := s[1..];
    if t != [] && t[0] == '`' {
      if |s| >= 3 {
        assert s[..3] == [s[0], s[1], s[2]];
      }
      assert LeadingTicks(t[1..]) == 0;
    }
  }

  /** A text with at most one leading backtick cannot open with two. */
  lemma AtMostOneTick(t: string)
    requires LeadingTicks(t) <= 1
    ensures |t| < 2 || t[0] != '`' || t[1] != '`'
  {
    if |t| >= 2 && t[0] == '`' {
      assert t[1..][0] == t[1];
    }
  }

  /** Removing every fence leaves a run of leading backticks shortened to its length modulo 3. */
  lemma {:induction false} RemoveFenceLeadingTicks(s: string)
    ensures LeadingTicks(RemoveAll(s, Fence)) == LeadingTicks(s) % 3
    decreases |s|
  {
    if s == [] {
    } else if Fence <= s {
      RemoveFenceLeadingTicks(s[3..]);
      FenceTicks(s);
    } else {
      if s[0] == '`' {
        RemoveFenceLeadingTicks(s[1..]);
      }
      KeptCharTicks(s);
    }
  }

  /** The step of `RemoveFenceLeadingTicks` where the first character is kept. */
  lemma KeptCharTicks(s: string)
    requires s != [] && !(Fence <= s)
    requires s[0] == '`' ==> LeadingTicks(RemoveAll(s[1..], Fence)) == LeadingTicks(s[1..]) % 3
    ensures LeadingTicks(RemoveAll(s, Fence)) == LeadingTicks(s) % 3
  {
    var tail := RemoveAll(s[1..], Fence);
    RemoveAllStep(s, Fence);
    LeadingTicksCons(s[0], tail);
    if s[0] == '`' {
      ShortTickRun(s);
    }
  }

  /** Where the pattern does not start, the first character is kept. */
  lemma RemoveAllStep(s: string, pat: string)
    requires s != [] && pat != [] && !(pat <= s)
    ensures RemoveAll(s, pat) == [s[0]] + RemoveAll(s[1..], pat)
  {
  }

  /** A text that opens with a fence has three more leading backticks than its rest. */
  lemma FenceTicks(s: string)
    requires Fence <= s
    ensures LeadingTicks(s) == 3 + LeadingTicks(s[3..])
  {
    assert s[1..][1..][1..] == s[3..];
    assert LeadingTicks(s) == 1 + LeadingTicks(s[1..]);
    assert LeadingTicks(s[1..]) == 1 + LeadingTicks(s[1..][1..]);
  }

  /** The leading backticks of a text with one character put in front. */
  lemma LeadingTicksCons(c: char, t: string)
    ensures LeadingTicks([c] + t) == if c == '`' then 1 + LeadingTicks(t) else 0
  {
    assert ([c] + t)[1..] == t;
  }

  /** After `replace("```", "")` no triple backtick is left in the text. */
  lemma {:induction false} RemoveFenceComplete(s: string)
    ensures !Contains(RemoveAll(s, Fence), Fence)
    decreases |s|
  {
    var r := RemoveAll(s, Fence);
    if s == [] {
    } else if Fence <= s {
      RemoveFenceComplete(s[3..]);
    } else {
      RemoveFenceComplete(s[1..]);
      var tail := RemoveAll(s[1..], Fence);
      assert r == [s[0]] + tail;
      assert r[1..] == tail;
      if s[0] == '`' {
        RemoveFenceLeadingTicks(s[1..]);
        ShortTickRun(s);
        AtMostOneTick(tail);
      }
      assert !(Fence <= r);
    }
  }

  // ---------------------------------------------------------------------
  // substrings
  // ---------------------------------------------------------------------

  lemma {:induction false} ContainsInSuffix(s: string, k: nat, sub: string)
    requires k <= |s| && Contains(s[k..], sub)
    ensures Contains(s, sub)
    decreases k
  {
    if k > 0 {
      assert s[1..][k - 1..] == s[k..];
      ContainsInSuffix(s[1..], k - 1, sub);
    }
  }

  lemma {:induction false} ContainsInPrefix(s: string, k: nat, sub: string)
    requires k <= |s| && Contains(s[..k], sub)
    ensures Contains(s, sub)
    decreases k
  {
    if !(sub <= s[..k]) {
      assert s[..k][1..] == s[1..][..k - 1];
      ContainsInPrefix(s[1..], k - 1, sub);
    }
  }

  /** `strip()` cannot create an occurrence that the text did not have. */
  lemma StripKeepsOut(s: string, sub: string)
    requires !Contains(s, sub)
    ensures !Contains(Strip(s), sub)
  {
    var l := TrimLeft(s, IsSpace);
    var r := TrimRight(l, IsSpace);
    assert Strip(s) == r;
    if Contains(r, sub) {
      ContainsInPrefix(l, |r|, sub);
      ContainsInSuffix(s, |s| - |l|, sub);
    }
  }

  /** Removing a pattern that opens with a backtick passes backtick-free text through untouched. */
  lemma {:induction false} RemoveAllPassesPlainText(t: string, u: string, pat: string)
    requires pat != [] && pat[0] == '`' && '`' !in t
    ensures RemoveAll(t + u, pat) == t + RemoveAll(u, pat)
    decreases |t|
  {
    if t == [] {
      assert t + u == u;
    } else {
      var c, rest := t[0], t[1..];
      HeadSplits(t);
      assert '`' !in rest;
      RemoveAllPassesPlainText(rest, u, pat);
      ConsAppend(c, rest, u);
      assert !(pat <= [c] + (rest + u));
      RemoveAllStep([c] + (rest + u), pat);
      ConsAppend(c, rest, RemoveAll(u, pat));
    }
  }

  /** The head of a concatenation whose first part is non-empty. */
  lemma ConsAppend<T>(c: T, rest: seq<T>, u: seq<T>)
    ensures ([c] + rest) + u == [c] + (rest + u)
    ensures ([c] + (rest + u))[0] == c && ([c] + (rest + u))[1..] == rest + u
  {
  }
}
