/** The JavaScript string built-ins the portfolio code relies on:
    `Array.prototype.join`, `String.prototype.split` on one character,
    and `String.prototype.trim`. */
module Text {

  /** `parts.join(sep)`: neighbouring parts separated by `sep`; no parts give "". */
  function Join(parts: seq<string>, sep: string): string
    decreases |parts|
  {
    if |parts| == 0 then ""
    else if |parts| == 1 then parts[0]
    else parts[0] + sep + Join(parts[1..], sep)
  }

  /** Position of the first `c` in `s`, or `|s|` when `s` has none. */
  function IndexOf(s: string, c: char): (i: nat)
    ensures i <= |s|
    ensures i < |s| ==> s[i] == c
    ensures forall k :: 0 <= k < i ==> s[k] != c
  {
    if |s| == 0 then 0
    else if s[0] == c then 0
    else 1 + IndexOf(s[1..], c)
  }

  /** `s.split(c)`: the `c`-free pieces between the separators, in order. */
  function Split(s: string, c: char): (r: seq<string>)
    ensures |r| >= 1
    ensures forall k :: 0 <= k < |r| ==> c !in r[k]
    decreases |s|
  {
    var i := IndexOf(s, c);
    if i == |s| then [s] else [s[..i]] + Split(s[i + 1..], c)
  }

  /** Joining two non-empty lists is joining their joins. */
  lemma {:induction false} JoinAppend(a: seq<string>, b: seq<string>, sep: string)
    requires |a| > 0 && |b| > 0
    ensures Join(a + b, sep) == Join(a, sep) + sep + Join(b, sep)
    decreases |a|
  {
    if |a| == 1 {
      assert (a + b)[1..] == b;
    } else {
      assert (a + b)[1..] == a[1..] + b;
      JoinAppend(a[1..], b, sep);
    }
  }

  /** Splitting a string that has its first separator right after `x` gives `x`, then the
      pieces of what follows that separator. */
  lemma SplitAtFirst(x: string, c: char, rest: string)
    requires c !in x
    ensures Split(x + [c] + rest, c) == [x] + Split(rest, c)
  {
    var s := x + [c] + rest;
    var n := |x|;
    assert forall k :: 0 <= k < n ==> s[k] == x[k];
    assert s[n] == c;
    assert IndexOf(s, c) == n;
    assert s[..n] == x;
    assert s[n + 1..] == rest;
  }

  /** Splitting undoes joining, provided no part contains the separator. */
  lemma {:induction false} SplitOfJoin(lines: seq<string>, c: char)
    requires |lines| > 0
    requires forall k :: 0 <= k < |lines| ==> c !in lines[k]
    ensures Split(Join(lines, [c]), c) == lines
    decreases |lines|
  {
    if |lines| > 1 {
      var rest := Join(lines[1..], [c]);
      assert Join(lines, [c]) == lines[0] + [c] + rest;
      SplitAtFirst(lines[0], c, rest);
      SplitOfJoin(lines[1..], c);
      assert lines == [lines[0]] + lines[1..];
    }
  }

  /** Joining undoes splitting: the pieces and separators make up the whole string. */
  lemma {:induction false} JoinOfSplit(s: string, c: char)
    ensures Join(Split(s, c), [c]) == s
    decreases |s|
  {
    var i := IndexOf(s, c);
    if i < |s| {
      var tail := Split(s[i + 1..], c);
      JoinOfSplit(s[i + 1..], c);
      var pieces := [s[..i]] + tail;
      assert Split(s, c) == pieces;
      assert pieces[1..] == tail;
      assert Join(pieces, [c]) == s[..i] + [c] + Join(tail, [c]);
      assert s == s[..i] + [c] + s[i + 1..];
    }
  }

  /** A join never introduces a character that neither the parts nor the separator hold. */
  lemma {:induction false} JoinAvoids(parts: seq<string>, sep: string, c: char)
    requires c !in sep
    requires forall k :: 0 <= k < |parts| ==> c !in parts[k]
    ensures c !in Join(parts, sep)
    decreases |parts|
  {
    if |parts| > 1 {
      JoinAvoids(parts[1..], sep, c);
    }
  }

  /** With a non-empty separator, a join is empty exactly for no parts or one empty part. */
  lemma JoinIsEmptyIff(parts: seq<string>, sep: string)
    requires sep != ""
    ensures Join(parts, sep) == "" <==> parts == [] || parts == [""]
  {
    if |parts| == 1 {
      assert parts == [parts[0]];
    } else if |parts| > 1 {
      assert |Join(parts, sep)| >= |sep|;
    }
  }

  /** The characters `trim` removes: ECMAScript white space and line terminators. */
  predicate IsJsWhitespace(ch: char)
  {
    || ch == '\t' || ch == '\n' || ch == '\U{000B}' || ch == '\U{000C}' || ch == '\r'
    || ch == ' ' || ch == '\U{00A0}' || ch == '\U{1680}'
    || ('\U{2000}' <= ch <= '\U{200A}')
    || ch == '\U{2028}' || ch == '\U{2029}' || ch == '\U{202F}' || ch == '\U{205F}'
    || ch == '\U{3000}' || ch == '\U{FEFF}'
  }

  /** Every character of `s` is white space (vacuously so for ""). */
  predicate IsBlank(s: string)
  {
    forall k :: 0 <= k < |s| ==> IsJsWhitespace(s[k])
  }

  /** How many white-space characters `s` starts with. */
  function LeadingBlanks(s: string): (n: nat)
    ensures n <= |s|
    ensures forall k :: 0 <= k < n ==> IsJsWhitespace(s[k])
    ensures n < |s| ==> !IsJsWhitespace(s[n])
    decreases |s|
  {
    if |s| == 0 || !IsJsWhitespace(s[0]) then 0 else 1 + LeadingBlanks(s[1..])
  }

  /** Where the trailing white space of `s` begins, not looking before index `lo`. */
  function TrailingBlanksFrom(s: string, lo: nat): (m: nat)
    requires lo <= |s|
    ensures lo <= m <= |s|
    ensures forall k :: m <= k < |s| ==> IsJsWhitespace(s[k])
    ensures m > lo ==> !IsJsWhitespace(s[m - 1])
    decreases |s| - lo
  {
    if |s| == lo || !IsJsWhitespace(s[|s| - 1]) then |s| else TrailingBlanksFrom(s[..|s| - 1], lo)
  }

  /** `s.trim()`: the part of `s` left between a blank prefix and a blank suffix; empty
      exactly when `s` is blank, and otherwise starting and ending with a non-white-space
      character. */
  function Trim(s: string): (r: string)
    ensures exists i {:trigger s[..i]} :: 0 <= i <= |s| - |r| && r == s[i..i + |r|]
                        && IsBlank(s[..i]) && IsBlank(s[i + |r|..])
    ensures r == "" <==> IsBlank(s)
    ensures |r| > 0 ==> !IsJsWhitespace(r[0]) && !IsJsWhitespace(r[|r| - 1])
  {
    var i := LeadingBlanks(s);
    var j := TrailingBlanksFrom(s, i);
    TrimBounds(s, i, j);
    s[i..j]
  }

  lemma TrimBounds(s: string, i: nat, j: nat)
    requires i <= j <= |s|
    requires forall k :: 0 <= k < i ==> IsJsWhitespace(s[k])
    requires i < |s| ==> !IsJsWhitespace(s[i])
    requires forall k :: j <= k < |s| ==> IsJsWhitespace(s[k])
    requires j > i ==> !IsJsWhitespace(s[j - 1])
    ensures IsBlank(s[..i]) && IsBlank(s[j..])
    ensures s[i..j] == "" <==> IsBlank(s)
    ensures j > i ==> !IsJsWhitespace(s[i..j][0]) && !IsJsWhitespace(s[i..j][j - i - 1])
  {
    var pre := s[..i];
    forall k | 0 <= k < |pre|
      ensures IsJsWhitespace(pre[k])
    {
      assert pre[k] == s[k];
    }
    var suf := s[j..];
    forall k | 0 <= k < |suf|
      ensures IsJsWhitespace(suf[k])
    {
      assert suf[k] == s[j + k];
    }
    if i < j {
      assert s[i..j][0] == s[i];
    }
  }

  /** `part` sits in `s` starting at index `i`. */
  predicate OccursAt(s: string, part: string, i: nat)
  {
    i + |part| <= |s| && s[i..i + |part|] == part
  }

  /** Where the `i`-th part starts in a join: the lengths of the parts before it, each
      followed by one separator. */
  function Offset(parts: seq<string>, sep: string, i: nat): nat
    requires i <= |parts|
    decreases i
  {
    if i == 0 then 0 else |parts[0]| + |sep| + Offset(parts[1..], sep, i - 1)
  }

  /** A part found in a string is found, shifted, once a prefix is put in front. */
  lemma OccursAfterPrefix(prefix: string, rest: string, part: string, k: nat)
    requires OccursAt(rest, part, k)
    ensures OccursAt(prefix + rest, part, |prefix| + k)
  {
    assert (prefix + rest)[|prefix| + k..|prefix| + k + |part|] == rest[k..k + |part|];
  }

  /** The layout of a join: the `i`-th part starts at its offset, a separator follows every
      part but the last, and the join ends right after the last part. */
  lemma {:induction false} JoinLayout(parts: seq<string>, sep: string, i: nat)
    requires i < |parts|
    ensures OccursAt(Join(parts, sep), parts[i], Offset(parts, sep, i))
    ensures i + 1 < |parts| ==> OccursAt(Join(parts, sep), sep, Offset(parts, sep, i) + |parts[i]|)
    ensures i + 1 == |parts| ==> |Join(parts, sep)| == Offset(parts, sep, i) + |parts[i]|
    decreases i
  {
    var s := Join(parts, sep);
    if |parts| == 1 {
      assert s == parts[0];
    } else {
      var rest := Join(parts[1..], sep);
      assert s == parts[0] + sep + rest;
      if i == 0 {
        assert s[..|parts[0]|] == parts[0];
        assert s[|parts[0]|..|parts[0]| + |sep|] == sep;
      } else {
        JoinLayout(parts[1..], sep, i - 1);
        assert parts[1..][i - 1] == parts[i];
        var k := Offset(parts[1..], sep, i - 1);
        OccursAfterPrefix(parts[0] + sep, rest, parts[i], k);
        if i + 1 < |parts| {
          OccursAfterPrefix(parts[0] + sep, rest, sep, k + |parts[i]|);
        }
      }
    }
  }
}
