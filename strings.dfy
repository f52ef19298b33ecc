/** The JavaScript string operations the extension relies on (`includes`,
    `startsWith`, `substring(0, n)`, `trim`, `split`, `join`,
    `replace(/\s+/g, " ")`), written out over `seq<char>`. */
module Strings {
  import opened Common

  /** The code points matched by `\s` in a JavaScript regular expression, which
      are also the ones `String.prototype.trim` removes (WhiteSpace and
      LineTerminator in ECMAScript). */
  predicate IsSpace(c: char) {
    var n := c as int;
    n == 0x09 || n == 0x0A || n == 0x0B || n == 0x0C || n == 0x0D || n == 0x20 ||
    n == 0xA0 || n == 0x1680 || (0x2000 <= n <= 0x200A) || n == 0x2028 || n == 0x2029 ||
    n == 0x202F || n == 0x205F || n == 0x3000 || n == 0xFEFF
  }

  predicate IsDigit(c: char) { '0' <= c <= '9' }

  /** `s.startsWith(p)` */
  predicate StartsWith(s: string, p: string) {
    |p| <= |s| && s[..|p|] == p
  }

  /** `sub` occurs in `s` starting at index `i`. */
  predicate OccursAt(s: string, sub: string, i: nat) {
    i + |sub| <= |s| && s[i..i + |sub|] == sub
  }

  /** `s.includes(sub)` */
  predicate Contains(s: string, sub: string) {
    exists i: nat | i <= |s| :: OccursAt(s, sub, i)
  }

  function IndexOfFrom(s: string, sub: string, i: nat): (r: Option<nat>)
    decreases |s| - i
    ensures r.Some? ==> i <= r.value && OccursAt(s, sub, r.value)
    ensures r.Some? ==> forall j: nat :: i <= j < r.value ==> !OccursAt(s, sub, j)
    ensures r.None? ==> forall j: nat :: i <= j ==> !OccursAt(s, sub, j)
  {
    if i + |sub| > |s| then None
    else if OccursAt(s, sub, i) then Some(i)
    else IndexOfFrom(s, sub, i + 1)
  }

  /** `s.indexOf(sub)`, with `None` for -1: the first position where `sub` occurs. */
  function IndexOf(s: string, sub: string): (r: Option<nat>)
    ensures r.Some? <==> Contains(s, sub)
    ensures r.Some? ==> OccursAt(s, sub, r.value) && forall j: nat :: j < r.value ==> !OccursAt(s, sub, j)
  {
    IndexOfFrom(s, sub, 0)
  }

  lemma ContainsAt(s: string, sub: string, i: nat)
    requires OccursAt(s, sub, i)
    ensures Contains(s, sub)
  {
  }

  /** `sub` cannot start at `i` when one of its characters differs from the text there. */
  lemma NotOccursAtWhenDiffers(s: string, sub: string, i: nat, j: nat)
    requires j < |sub| && (i + j < |s| ==> s[i + j] != sub[j])
    ensures !OccursAt(s, sub, i)
  {
    if i + |sub| <= |s| {
      assert s[i..i + |sub|][j] != sub[j];
    }
  }

  /** A text lacking one of the characters of `sub` does not contain `sub`. */
  lemma NotContainsWhenCharAbsent(s: string, sub: string, j: nat)
    requires j < |sub| && sub[j] !in s
    ensures !Contains(s, sub)
  {
    forall i: nat | i <= |s| ensures !OccursAt(s, sub, i) {
      if i + j < |s| {
        assert s[i + j] in s;
      }
      NotOccursAtWhenDiffers(s, sub, i, j);
    }
  }

  /** `s.substring(0, n)` for a non-negative `n`. */
  function Take(s: string, n: nat): (r: string)
    ensures |r| <= n && |r| <= |s|
    ensures |s| <= n ==> r == s
    ensures n <= |s| ==> |r| == n
  {
    if |s| <= n then s else s[..n]
  }

  lemma TakePrefix(s: string, n: nat)
    ensures StartsWith(s, Take(s, n))
  {
  }

  /** Drops the leading whitespace (`trimStart`). */
  function TrimStart(s: string): (r: string)
    ensures |r| <= |s|
    ensures forall j :: 0 <= j < |s| - |r| ==> IsSpace(s[j])
    ensures r == [] || !IsSpace(r[0])
    ensures s != [] && IsSpace(s[0]) ==> |r| < |s|
  {
    if s != [] && IsSpace(s[0]) then TrimStart(s[1..]) else s
  }

  /** Drops the trailing whitespace (`trimEnd`). */
  function TrimEnd(s: string): (r: string)
    ensures |r| <= |s|
    ensures forall j :: |r| <= j < |s| ==> IsSpace(s[j])
    ensures r == [] || !IsSpace(r[|r| - 1])
  {
    if s != [] && IsSpace(s[|s| - 1]) then TrimEnd(s[..|s| - 1]) else s
  }

  /** What `trimStart` keeps is a suffix of its input. */
  lemma {:induction false} TrimStartSuffix(s: string)
    decreases |s|
    ensures var r := TrimStart(s); r == s[|s| - |r|..]
  {
    if s != [] && IsSpace(s[0]) {
      TrimStartSuffix(s[1..]);
    }
  }

  /** What `trimEnd` keeps is a prefix of its input. */
  lemma {:induction false} TrimEndPrefix(s: string)
    decreases |s|
    ensures var r := TrimEnd(s); r == s[..|r|]
  {
    if s != [] && IsSpace(s[|s| - 1]) {
      TrimEndPrefix(s[..|s| - 1]);
    }
  }

  /** `s.trim()`: a contiguous piece of `s` with no whitespace at either end. */
  function Trim(s: string): (r: string)
    ensures |r| <= |s|
    ensures r == [] || (!IsSpace(r[0]) && !IsSpace(r[|r| - 1]))
    ensures (forall j :: 0 <= j < |s| ==> IsSpace(s[j])) <==> r == []
  {
    var t := TrimStart(s);
    var r := TrimEnd(t);
    TrimStartSuffix(s);
    TrimEndPrefix(t);
    assert r != [] ==> r[0] == t[0];
    assert r == [] ==> t == [];
    r
  }

  /** `s.replace(/\s+/g, " ")`: every maximal run of whitespace becomes one space. */
  function CollapseSpaces(s: string): (r: string)
    decreases |s|
    ensures |r| <= |s|
    ensures s == [] <==> r == []
  {
    if s == [] then []
    else if IsSpace(s[0]) then " " + CollapseSpaces(TrimStart(s))
    else [s[0]] + CollapseSpaces(s[1..])
  }

  /** `s.trim().replace(/\s+/g, " ")`, the normalisation applied to every DOM text. */
  function Squish(s: string): (r: string)
    ensures |r| <= |s|
    ensures r == [] <==> Trim(s) == []
  {
    CollapseSpaces(Trim(s))
  }

  /** `parts.join(sep)` */
  function Join(parts: seq<string>, sep: string): string {
    if |parts| == 0 then ""
    else if |parts| == 1 then parts[0]
    else parts[0] + sep + Join(parts[1..], sep)
  }

  /** `s.split(/\s+/)`: the pieces between whitespace runs. As in JavaScript, a
      leading or trailing run yields an empty first or last piece, and the empty
      string yields `[""]`. */
  function SplitSpaces(s: string): (r: seq<string>)
    decreases |s|
    ensures |r| >= 1
  {
    if s == [] then [""]
    else if IsSpace(s[0]) then [""] + SplitSpaces(TrimStart(s))
    else
      var rest := SplitSpaces(s[1..]);
      [[s[0]] + rest[0]] + rest[1..]
  }

  /** `s.split(sep)[0]` for a non-empty literal separator: the text before the
      first `sep`, or all of `s` when there is none. */
  function BeforeFirst(s: string, sep: string): (r: string)
    requires |sep| > 0
    ensures StartsWith(s, r)
    ensures !Contains(r, sep)
    ensures Contains(s, sep) ==> OccursAt(s, sep, |r|)
    ensures !Contains(s, sep) ==> r == s
  {
    match IndexOf(s, sep)
    case None => s
    case Some(i) =>
      assert forall j: nat :: OccursAt(s[..i], sep, j) ==> OccursAt(s, sep, j) by {
        forall j: nat | OccursAt(s[..i], sep, j) ensures OccursAt(s, sep, j) {
          assert s[..i][j..j + |sep|] == s[j..j + |sep|];
        }
      }
      s[..i]
  }

  /** The character right after the text before the first `sep` is the first
      character of `sep`, unless that text is all of `s`. */
  lemma BeforeFirstStop(s: string, sep: string)
    requires |sep| > 0
    ensures |BeforeFirst(s, sep)| < |s| ==> s[|BeforeFirst(s, sep)|] == sep[0]
  {
    var r := BeforeFirst(s, sep);
    if |r| < |s| {
      assert OccursAt(s, sep, |r|);
      assert s[|r|..|r| + |sep|][0] == s[|r|];
    }
  }

  /** The text before the first occurrence of a one-character separator holds
      no such character. */
  lemma BeforeFirstLacks(s: string, c: char)
    ensures forall k :: 0 <= k < |BeforeFirst(s, [c])| ==> BeforeFirst(s, [c])[k] != c
  {
    var r := BeforeFirst(s, [c]);
    forall k: nat | k < |r| ensures r[k] != c {
      assert r[k] == c ==> OccursAt(r, [c], k);
    }
  }

  /** The text after the first `sep` of `s`, or `""` when there is none. */
  function AfterFirst(s: string, sep: string): (r: string)
    ensures Contains(s, sep) ==> exists i: nat :: OccursAt(s, sep, i) && r == s[i + |sep|..]
  {
    match IndexOf(s, sep)
    case None => ""
    case Some(i) => s[i + |sep|..]
  }

  /** `s.replace(pat, rep)` for a string pattern: only the first occurrence is replaced. */
  function ReplaceFirst(s: string, pat: string, rep: string): (r: string)
    ensures !Contains(s, pat) ==> r == s
    ensures StartsWith(s, pat) ==> r == rep + s[|pat|..]
  {
    match IndexOf(s, pat)
    case None => s
    case Some(i) =>
      assert StartsWith(s, pat) ==> OccursAt(s, pat, 0);
      s[..i] + rep + s[i + |pat|..]
  }

  /** `s.toLowerCase()` restricted to ASCII: `A`-`Z` become `a`-`z`. */
  function ToLowerAscii(s: string): (r: string)
    ensures |r| == |s|
    ensures forall i :: 0 <= i < |s| ==> !('A' <= r[i] <= 'Z')
  {
    seq(|s|, i requires 0 <= i < |s| =>
      if 'A' <= s[i] <= 'Z' then (s[i] as int + 32) as char else s[i])
  }

  // ---------------------------------------------------------------------------
  // Properties

  lemma {:induction false} JoinAppend(parts: seq<string>, sep: string)
    requires |parts| > 1
    ensures Join(parts, sep) == parts[0] + sep + Join(parts[1..], sep)
  {
  }

  /** Splitting on whitespace runs and joining with one space gives back exactly
      the whitespace-collapsed text. */
  lemma {:induction false} JoinSplitSpaces(s: string)
    decreases |s|
    ensures Join(SplitSpaces(s), " ") == CollapseSpaces(s)
  {
    if s == [] {
    } else if IsSpace(s[0]) {
      var t := TrimStart(s);
      TrimStartSuffix(s);
      JoinSplitSpaces(t);
      var ps := SplitSpaces(t);
      assert SplitSpaces(s) == [""] + ps;
      assert ([""] + ps)[1..] == ps;
    } else {
      var rest := SplitSpaces(s[1..]);
      JoinSplitSpaces(s[1..]);
      var ps := [[s[0]] + rest[0]] + rest[1..];
      assert SplitSpaces(s) == ps;
      if |rest| == 1 {
      } else {
        assert ps[1..] == rest[1..];
        assert Join(rest, " ") == rest[0] + " " + Join(rest[1..], " ");
        assert Join(ps, " ") == ([s[0]] + rest[0]) + " " + Join(rest[1..], " ");
      }
    }
  }

  /** A text that starts with a non-space character has a non-empty first piece. */
  lemma SplitSpacesFirst(s: string)
    requires s != [] && !IsSpace(s[0])
    ensures SplitSpaces(s)[0] != [] && SplitSpaces(s)[0][0] == s[0]
  {
  }

  /** A text that ends with a non-space character has a non-empty last piece. */
  lemma {:induction false} SplitSpacesLast(s: string)
    decreases |s|
    requires s != [] && !IsSpace(s[|s| - 1])
    ensures var r := SplitSpaces(s); r[|r| - 1] != []
  {
    if IsSpace(s[0]) {
      var t := TrimStart(s);
      TrimStartSuffix(s);
      assert t != [] && t[|t| - 1] == s[|s| - 1];
      SplitSpacesLast(t);
      assert SplitSpaces(s) == [""] + SplitSpaces(t);
    } else if |s| > 1 {
      var rest := SplitSpaces(s[1..]);
      assert s[1..][|s[1..]| - 1] == s[|s| - 1];
      SplitSpacesLast(s[1..]);
      assert SplitSpaces(s) == [[s[0]] + rest[0]] + rest[1..];
    }
  }

  /** A join ends with its last part. */
  lemma {:induction false} JoinEndsWithLast(parts: seq<string>, sep: string)
    requires |parts| > 0
    ensures var j := Join(parts, sep); var l := parts[|parts| - 1];
      |l| <= |j| && j[|j| - |l|..] == l
  {
    if |parts| > 1 {
      JoinEndsWithLast(parts[1..], sep);
    }
  }

  /** No piece of a whitespace split holds whitespace. */
  lemma {:induction false} SplitSpacesPieces(s: string)
    decreases |s|
    ensures forall k, j :: 0 <= k < |SplitSpaces(s)| && 0 <= j < |SplitSpaces(s)[k]| ==> !IsSpace(SplitSpaces(s)[k][j])
  {
    if s == [] {
    } else if IsSpace(s[0]) {
      SplitSpacesPieces(TrimStart(s));
      var ps := SplitSpaces(TrimStart(s));
      assert forall k :: 1 <= k < |SplitSpaces(s)| ==> SplitSpaces(s)[k] == ps[k - 1];
    } else {
      SplitSpacesPieces(s[1..]);
      var rest := SplitSpaces(s[1..]);
      assert forall k :: 1 <= k < |SplitSpaces(s)| ==> SplitSpaces(s)[k] == rest[k];
      assert forall j :: 1 <= j < |SplitSpaces(s)[0]| ==> SplitSpaces(s)[0][j] == rest[0][j - 1];
    }
  }

  /** Containing a one-character text is containing that character. */
  lemma ContainsChar(s: string, c: char)
    ensures Contains(s, [c]) <==> c in s
  {
    forall k: nat | k < |s| ensures s[k] == c ==> OccursAt(s, [c], k) {
      assert s[k] == c ==> s[k..k + 1] == [c];
    }
    if Contains(s, [c]) {
      var i: nat :| i <= |s| && OccursAt(s, [c], i);
      assert s[i..i + 1][0] == s[i];
    }
  }
}
