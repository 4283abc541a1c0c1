/**
  The JavaScript string operations the storefront relies on: `indexOf`/`includes`,
  `split` on a non-empty separator (and the `join` that undoes it), ASCII
  `toLowerCase`, and the decimal text of a status code in a template literal.
 */
module Text {
  import opened Values

  /** `pat` occurs in `s` starting at index `i`. */
  predicate OccursAt(s: string, pat: string, i: int) {
    0 <= i && i + |pat| <= |s| && s[i..i + |pat|] == pat
  }

  /** `s.includes(pat)`. */
  predicate Contains(s: string, pat: string) {
    exists i :: 0 <= i <= |s| && OccursAt(s, pat, i)
  }

  /** `s.indexOf(pat)`, with -1 as `None`: the first index where `pat` occurs. */
  function FirstIndex(s: string, pat: string): (r: Option<nat>)
    ensures r.Some? ==> OccursAt(s, pat, r.value)
    ensures r.Some? ==> forall j :: 0 <= j < r.value ==> !OccursAt(s, pat, j)
    ensures r.None? ==> forall j :: 0 <= j <= |s| ==> !OccursAt(s, pat, j)
    ensures r.Some? <==> Contains(s, pat)
    decreases |s|
  {
    if |s| < |pat| then
      None
    else if s[..|pat|] == pat then
      Some(0)
    else
      ShiftOccurrences(s, pat);
      match FirstIndex(s[1..], pat)
      case None => None
      case Some(i) => Some(i + 1)
  }

  /** Occurrences in `s` after its first character are the occurrences in `s[1..]`, shifted by one. */
  lemma ShiftOccurrences(s: string, pat: string)
    requires |s| > 0
    ensures forall j :: 1 <= j ==> (OccursAt(s, pat, j) <==> OccursAt(s[1..], pat, j - 1))
  {
    forall j | 1 <= j
      ensures OccursAt(s, pat, j) <==> OccursAt(s[1..], pat, j - 1)
    {
      if j + |pat| <= |s| {
        assert s[1..][j - 1..j - 1 + |pat|] == s[j..j + |pat|];
      }
    }
  }

  /** `parts.join(sep)`. */
  function Join(parts: seq<string>, sep: string): string {
    if parts == [] then ""
    else if |parts| == 1 then parts[0]
    else parts[0] + sep + Join(parts[1..], sep)
  }

  /**
    `s.split(sep)` for a non-empty separator: the pieces between successive
    non-overlapping occurrences of `sep`, scanning from the left.
   */
  function Split(s: string, sep: string): (parts: seq<string>)
    requires sep != ""
    ensures |parts| >= 1
    ensures |parts| == 1 <==> !Contains(s, sep)
    decreases |s|
  {
    match FirstIndex(s, sep)
    case None => [s]
    case Some(i) => [s[..i]] + Split(s[i + |sep|..], sep)
  }

  /** The first piece of a split runs up to the first separator, or is the whole text. */
  lemma SplitFirstPiece(s: string, sep: string)
    requires sep != ""
    ensures |Split(s, sep)[0]| <= |s| && s[..|Split(s, sep)[0]|] == Split(s, sep)[0]
    ensures |Split(s, sep)[0]| < |s| ==> OccursAt(s, sep, |Split(s, sep)[0]|)
    ensures !Contains(Split(s, sep)[0], sep)
  {
    match FirstIndex(s, sep)
    case None =>
    case Some(i) => NoOccurrenceInPrefix(s, sep, i);
  }

  /** Joining the pieces of a split with the same separator gives back the text. */
  lemma {:induction false} SplitJoin(s: string, sep: string)
    requires sep != ""
    ensures Join(Split(s, sep), sep) == s
    decreases |s|
  {
    match FirstIndex(s, sep)
    case None =>
    case Some(i) =>
      var rest := s[i + |sep|..];
      var tail := Split(rest, sep);
      calc {
        Join(Split(s, sep), sep);
        == { SplitAtFirstOccurrence(s, sep, i); }
        Join([s[..i]] + tail, sep);
        == { JoinCons(s[..i], tail, sep); }
        s[..i] + sep + Join(tail, sep);
        == { SplitJoin(rest, sep); }
        s[..i] + sep + rest;
        == { AroundOccurrence(s, sep, i); }
        s;
      }
  }

  /** Text is what comes before an occurrence, the occurrence, and what follows it. */
  lemma AroundOccurrence(s: string, pat: string, i: int)
    requires OccursAt(s, pat, i)
    ensures s == s[..i] + pat + s[i + |pat|..]
  {
    assert s == s[..i] + s[i..i + |pat|] + s[i + |pat|..];
  }

  /** An occurrence begins with the first character of the pattern. */
  lemma OccurrenceStart(s: string, pat: string, i: int)
    requires OccursAt(s, pat, i) && pat != ""
    ensures s[i] == pat[0]
  {
    OccurrenceChar(s, pat, i, 0);
  }

  /** Each character of an occurrence is the pattern's. */
  lemma OccurrenceChar(s: string, pat: string, i: int, k: nat)
    requires OccursAt(s, pat, i) && k < |pat|
    ensures s[i + k] == pat[k]
  {
    assert s[i..i + |pat|][k] == s[i + k];
  }

  /** Joining a piece in front of at least one other puts a separator between them. */
  lemma JoinCons(head: string, tail: seq<string>, sep: string)
    requires tail != []
    ensures Join([head] + tail, sep) == head + sep + Join(tail, sep)
  {
    assert ([head] + tail)[1..] == tail;
  }

  /** No piece of a split contains the separator. */
  lemma {:induction false} SplitPiecesClean(s: string, sep: string)
    requires sep != ""
    ensures forall k :: 0 <= k < |Split(s, sep)| ==> !Contains(Split(s, sep)[k], sep)
    decreases |s|
  {
    match FirstIndex(s, sep)
    case None =>
    case Some(i) =>
      var rest := s[i + |sep|..];
      var parts := Split(s, sep);
      var tail := Split(rest, sep);
      assert parts == [s[..i]] + tail;
      assert !Contains(parts[0], sep) by {
        NoOccurrenceInPrefix(s, sep, i);
      }
      SplitPiecesClean(rest, sep);
      forall k | 1 <= k < |parts|
        ensures !Contains(parts[k], sep)
      {
        assert parts[k] == tail[k - 1];
      }
  }

  /** A prefix that ends before the first occurrence of `pat` does not contain `pat`. */
  lemma NoOccurrenceInPrefix(s: string, pat: string, i: nat)
    requires pat != "" && i <= |s|
    requires forall j :: 0 <= j < i ==> !OccursAt(s, pat, j)
    ensures !Contains(s[..i], pat)
  {
    forall j | 0 <= j <= i
      ensures !OccursAt(s[..i], pat, j)
    {
      if j + |pat| <= i {
        assert !OccursAt(s, pat, j);
        assert s[..i][j..j + |pat|] == s[j..j + |pat|];
      }
    }
  }

  /** The text before the first `/`, or all of `s` when it has none. */
  function UpToSlash(s: string): (r: string)
    ensures |r| <= |s| && r == s[..|r|]
    ensures '/' !in r
    ensures |r| < |s| ==> s[|r|] == '/'
  {
    if s == [] || s[0] == '/' then [] else [s[0]] + UpToSlash(s[1..])
  }

  /** A slash-free prefix followed by a slash or by nothing is the text before the first slash. */
  lemma {:induction false} UpToSlashUnique(s: string, t: string)
    requires |t| <= |s| && t == s[..|t|] && '/' !in t
    requires |t| < |s| ==> s[|t|] == '/'
    ensures UpToSlash(s) == t
  {
    if s != [] && s[0] != '/' {
      UpToSlashUnique(s[1..], t[1..]);
    }
  }

  /** A slash at index `j` is an occurrence of `"/"` there. */
  lemma SlashOccurs(s: string, j: nat)
    requires j < |s| && s[j] == '/'
    ensures OccursAt(s, "/", j)
  {
    assert s[j..j + 1] == [s[j]];
  }

  /** `s.split("/")[0]` is the text before the first slash. */
  lemma FirstSlashPiece(s: string)
    ensures Split(s, "/")[0] == UpToSlash(s)
  {
    var p := Split(s, "/")[0];
    SplitFirstPiece(s, "/");
    forall j | 0 <= j < |p| && p[j] == '/'
      ensures false
    {
      SlashOccurs(p, j);
    }
    if |p| < |s| {
      assert s[|p|..|p| + 1] == "/";
    }
    UpToSlashUnique(s, p);
  }

  /** Text that continues with a slash, or not at all, cuts at the same place. */
  lemma UpToSlashOfExtension(p: string, q: string)
    requires q == [] || q[0] == '/'
    ensures UpToSlash(p + q) == UpToSlash(p)
  {
    var b := UpToSlash(p);
    assert (p + q)[..|b|] == p[..|b|];
    UpToSlashUnique(p + q, b);
  }

  /** With an occurrence at `i` first, the split is the text before it followed by the split of the rest. */
  lemma SplitAtFirstOccurrence(s: string, sep: string, i: nat)
    requires sep != "" && FirstIndex(s, sep) == Some(i)
    ensures Split(s, sep) == [s[..i]] + Split(s[i + |sep|..], sep)
  {
  }

  /**
    When the separator starts with `/`, the first `/`-segment of the first piece
    of a split is the first `/`-segment of the whole text.
   */
  lemma {:induction false} FirstPieceFirstSegment(s: string, sep: string)
    requires sep != "" && sep[0] == '/'
    ensures Split(Split(s, sep)[0], "/")[0] == UpToSlash(s)
  {
    var piece := Split(s, sep)[0];
    SplitFirstPiece(s, sep);
    var after := s[|piece|..];
    assert s == piece + after;
    if after != [] {
      OccurrenceStart(s, sep, |piece|);
    }
    UpToSlashOfExtension(piece, after);
    FirstSlashPiece(piece);
  }

  /** The text up to an occurrence, the occurrence and the next `/`-segment after it start the text. */
  lemma SegmentAfterOccurrenceIsPrefix(s: string, pat: string, i: int)
    requires OccursAt(s, pat, i)
    ensures s[..i] + pat + UpToSlash(s[i + |pat|..]) <= s
  {
    var rest := s[i + |pat|..];
    var id := UpToSlash(rest);
    var p := s[..i] + pat + id;
    forall k | 0 <= k < |p|
      ensures p[k] == s[k]
    {
      if k < i {
      } else if k < i + |pat| {
        OccurrenceChar(s, pat, i, k - i);
      } else {
        assert id[k - i - |pat|] == rest[k - i - |pat|];
      }
    }
    assert p == s[..|p|];
  }

  /** `c.toLowerCase()` for ASCII letters; every other character is kept. */
  function LowerChar(c: char): char {
    if 'A' <= c <= 'Z' then (c as int + 32) as char else c
  }

  /** `s.toLowerCase()`, character by character. */
  function Lower(s: string): (r: string)
    ensures |r| == |s|
    ensures forall i :: 0 <= i < |s| ==> r[i] == LowerChar(s[i])
  {
    if s == [] then [] else [LowerChar(s[0])] + Lower(s[1..])
  }

  /** Lower-casing twice is lower-casing once. */
  lemma LowerIdempotent(s: string)
    ensures Lower(Lower(s)) == Lower(s)
  {
    assert forall i :: 0 <= i < |s| ==> LowerChar(LowerChar(s[i])) == LowerChar(s[i]);
  }

  /** Text without capital letters is its own lower case. */
  lemma LowerOfLowerCase(s: string)
    requires forall i :: 0 <= i < |s| ==> !('A' <= s[i] <= 'Z')
    ensures Lower(s) == s
  {
    var r := Lower(s);
    assert forall i :: 0 <= i < |s| ==> r[i] == s[i];
  }

  /** A capital followed by no other capitals lower-cases to its small letter followed by the rest. */
  lemma LowerInitialCapital(word: string, lower: string)
    requires |word| == |lower| > 0 && 'A' <= word[0] <= 'Z' && lower[0] == (word[0] as int + 32) as char
    requires forall i :: 1 <= i < |word| ==> word[i] == lower[i] && !('A' <= word[i] <= 'Z')
    ensures Lower(word) == lower
  {
    var r := Lower(word);
    assert forall i :: 0 <= i < |word| ==> r[i] == lower[i];
  }

  /** The decimal digit for `d`. */
  function Digit(d: nat): char
    requires d < 10
  {
    "0123456789"[d]
  }

  /** The value of a decimal digit character. */
  function DigitValue(c: char): nat
  {
    if '0' <= c <= '9' then c as int - '0' as int else 0
  }

  /** `${n}` for a non-negative integer. */
  function NatToString(n: nat): (r: string)
    ensures r != []
    ensures forall i :: 0 <= i < |r| ==> '0' <= r[i] <= '9'
    decreases n
  {
    if n < 10 then [Digit(n)] else NatToString(n / 10) + [Digit(n % 10)]
  }

  /** Reads decimal digits back into a number. */
  function ParseDigits(s: string): nat
  {
    if s == [] then 0 else 10 * ParseDigits(s[..|s| - 1]) + DigitValue(s[|s| - 1])
  }

  /** The decimal text of a number reads back as that number. */
  lemma {:induction false} NatToStringRoundTrip(n: nat)
    ensures ParseDigits(NatToString(n)) == n
    decreases n
  {
    if n >= 10 {
      NatToStringRoundTrip(n / 10);
      var s := NatToString(n);
      assert s[..|s| - 1] == NatToString(n / 10);
    }
  }
}
