/** The few JavaScript string operations the modelled code relies on,
    written as Dafny functions over `string` (a `seq<char>`).

    - `IsSpace` is the character class used by `String.prototype.trim`
      and by the regular-expression escape `\s`.
    - `Split` is `String.prototype.split` with a one-character separator,
      `Join` is `Array.prototype.join`.
    - `Includes`, `IndexOf`, `StartsWith` are the searching methods.
    - `ReplaceFirst` is `replace` with a string pattern (first occurrence),
      `RemoveAll` is `replace(/literal/g, '')`.
    - `ToLower` is `toLowerCase` restricted to ASCII letters. */
module JsString {

  /** White space and line terminators as ECMAScript defines them. */
  predicate IsSpace(c: char) {
    var n := c as int;
    n == 0x09 || n == 0x0A || n == 0x0B || n == 0x0C || n == 0x0D || n == 0x20 ||
    n == 0xA0 || n == 0x1680 || (0x2000 <= n <= 0x200A) || n == 0x2028 ||
    n == 0x2029 || n == 0x202F || n == 0x205F || n == 0x3000 || n == 0xFEFF
  }

  predicate AllSpace(s: string) {
    forall k :: 0 <= k < |s| ==> IsSpace(s[k])
  }

  /** `s.trimStart()`: the suffix of `s` left after its leading white space. */
  function TrimStart(s: string): (r: string)
    ensures |r| <= |s| && r == s[|s| - |r|..]
    ensures AllSpace(s[..|s| - |r|])
    ensures r == [] || !IsSpace(r[0])
  {
    if s == [] || !IsSpace(s[0]) then s else TrimStart(s[1..])
  }

  /** `s.trimEnd()`: the prefix of `s` left before its trailing white space. */
  function TrimEnd(s: string): (r: string)
    ensures |r| <= |s| && r == s[..|r|]
    ensures AllSpace(s[|r|..])
    ensures r == [] || !IsSpace(r[|r| - 1])
  {
    if s == [] || !IsSpace(s[|s| - 1]) then s else TrimEnd(s[..|s| - 1])
  }

  /** `s.trim()`. */
  function Trim(s: string): (r: string)
    ensures |r| <= |s|
    ensures r == [] || (!IsSpace(r[0]) && !IsSpace(r[|r| - 1]))
  {
    TrimEnd(TrimStart(s))
  }

  /** The trimmed string is a slice of the original with only white space
      cut from either end, and it is empty exactly when `s` is all space. */
  lemma TrimIsSlice(s: string)
    ensures exists i, j :: (0 <= i <= j <= |s| && Trim(s) == s[i..j]
      && AllSpace(s[..i]) && AllSpace(s[j..]))
    ensures Trim(s) == [] <==> AllSpace(s)
  {
    var i, j := TrimBounds(s);
    if Trim(s) == [] {
      assert TrimStart(s) == [] by {
        assert TrimStart(s)[|Trim(s)|..] == TrimStart(s);
      }
      assert s[..|s|] == s;
    }
  }

  /** Where the trimmed string starts and ends in the original. */
  lemma TrimBounds(s: string) returns (i: nat, j: nat)
    ensures i <= j <= |s| && Trim(s) == s[i..j] && AllSpace(s[..i]) && AllSpace(s[j..])
    ensures i == |s| - |TrimStart(s)|
  {
    var t := TrimStart(s);
    i := |s| - |t|;
    var r := TrimEnd(t);
    j := i + |r|;
    assert s[i..j] == r;
    assert s[j..] == t[|r|..];
  }

  /** The characters of a trimmed string come from the original. */
  lemma TrimChars(s: string)
    ensures forall c :: c in Trim(s) ==> c in s
  {
    var i, j := TrimBounds(s);
    SliceChars(s, i, j);
  }

  lemma SliceChars(s: string, i: nat, j: nat)
    requires i <= j <= |s|
    ensures forall c :: c in s[i..j] ==> c in s
  {
    forall c | c in s[i..j] ensures c in s {
      var k :| 0 <= k < j - i && s[i..j][k] == c;
      assert s[i + k] == c;
    }
  }

  /** `trim` leaves a string without surrounding white space unchanged. */
  lemma TrimIdempotent(s: string)
    ensures Trim(Trim(s)) == Trim(s)
  {
    var r := Trim(s);
    if r != [] {
      assert TrimStart(r) == r;
      assert TrimEnd(r) == r;
    }
  }

  predicate StartsWith(s: string, prefix: string) {
    |prefix| <= |s| && s[..|prefix|] == prefix
  }

  /** Starting with a one-character string is having that first character. */
  lemma StartsWithChar(s: string, c: char)
    ensures StartsWith(s, [c]) <==> s != [] && s[0] == c
  {
    if s != [] {
      assert s[..1] == [s[0]];
    }
  }

  lemma EmptyFrame(s: string)
    ensures [] + s + [] == s
  {
  }

  /** The first character of three strings appended. */
  lemma FirstOfThree(a: string, b: string, c: string)
    requires c != []
    ensures (a + b + c)[0] == if a != [] then a[0] else if b != [] then b[0] else c[0]
  {
  }

  lemma AppendStartsWith(a: string, b: string)
    ensures StartsWith(a + b, a)
  {
    assert (a + b)[..|a|] == a;
  }

  /** Taking every element of a sequence gives the sequence back. */
  lemma TakeAll<T>(xs: seq<T>)
    ensures xs[..|xs|] == xs
  {
  }

  /** Spelled out so that a long chain of appends need not be regrouped by
      the solver. */
  lemma AppendAssoc(a: string, b: string, c: string)
    ensures (a + b) + c == a + (b + c)
  {
  }

  lemma LinesAssoc(a: seq<string>, b: seq<string>, c: seq<string>)
    ensures (a + b) + c == a + (b + c)
  {
  }

  /** `pat` occurs in `s` at position `k`. */
  predicate OccursAt(s: string, pat: string, k: nat) {
    k + |pat| <= |s| && s[k..k + |pat|] == pat
  }

  /** `s.indexOf(pat, from)`: the first position at or after `from` where
      `pat` occurs, or -1. */
  function IndexOfFrom(s: string, pat: string, from: nat): (r: int)
    requires from <= |s|
    ensures r >= -1
    ensures r >= 0 ==> from <= r <= |s| - |pat| && OccursAt(s, pat, r)
    ensures forall k: nat :: from <= k && (r < 0 || k < r) ==> !OccursAt(s, pat, k)
    decreases |s| - from
  {
    if |s| - from < |pat| then -1
    else if s[from..from + |pat|] == pat then from
    else if from == |s| then -1
    else IndexOfFrom(s, pat, from + 1)
  }

  /** `s.indexOf(pat)`. */
  function IndexOf(s: string, pat: string): (r: int)
    ensures r >= -1
    ensures r >= 0 ==> r <= |s| - |pat| && OccursAt(s, pat, r)
    ensures forall k: nat :: r < 0 || k < r ==> !OccursAt(s, pat, k)
  {
    IndexOfFrom(s, pat, 0)
  }

  /** `s.includes(pat)`. */
  predicate Includes(s: string, pat: string) {
    IndexOf(s, pat) >= 0
  }

  /** `includes` holds exactly when the pattern occurs somewhere. */
  lemma IncludesIff(s: string, pat: string)
    ensures Includes(s, pat) <==> exists k: nat :: OccursAt(s, pat, k)
  {
  }

  /** For a one-character pattern `includes` is membership. */
  lemma IncludesChar(s: string, c: char)
    ensures Includes(s, [c]) <==> c in s
  {
    if c in s {
      var k :| 0 <= k < |s| && s[k] == c;
      assert OccursAt(s, [c], k);
    }
    if Includes(s, [c]) {
      var r := IndexOf(s, [c]);
      assert s[r..r + 1] == [c];
      assert s[r] == c;
    }
  }

  /** `s.indexOf(c)` for a single character, -1 when absent. */
  function IndexOfChar(s: string, c: char): (r: int)
    ensures -1 <= r < |s|
    ensures r >= 0 ==> s[r] == c
    ensures forall k :: 0 <= k < |s| && (r < 0 || k < r) ==> s[k] != c
  {
    if s == [] then -1
    else if s[0] == c then 0
    else var i := IndexOfChar(s[1..], c); if i < 0 then -1 else i + 1
  }

  /** `s.lastIndexOf(c)` for a single character, -1 when absent. */
  function LastIndexOfChar(s: string, c: char): (r: int)
    ensures -1 <= r < |s|
    ensures r >= 0 ==> s[r] == c
    ensures forall k :: 0 <= k < |s| && r < k ==> s[k] != c
  {
    if s == [] then -1
    else if s[|s| - 1] == c then |s| - 1
    else LastIndexOfChar(s[..|s| - 1], c)
  }

  /** `s.replace(pat, rep)` with a string pattern: only the first
      occurrence is replaced. */
  function ReplaceFirst(s: string, pat: string, rep: string): (r: string)
    ensures !Includes(s, pat) ==> r == s
    ensures Includes(s, pat) ==> |r| == |s| - |pat| + |rep|
  {
    var i := IndexOf(s, pat);
    if i < 0 then s else s[..i] + rep + s[i + |pat|..]
  }

  /** `s.replace(/pat/g, '')` for a literal, non-empty `pat`: occurrences are
      found left to right and do not overlap. */
  function RemoveAll(s: string, pat: string): (r: string)
    requires pat != []
    ensures |r| <= |s|
    decreases |s|
  {
    if |s| < |pat| then s
    else if s[..|pat|] == pat then RemoveAll(s[|pat|..], pat)
    else [s[0]] + RemoveAll(s[1..], pat)
  }

  /** Removing every occurrence of a single character leaves none of it. */
  lemma {:induction false} RemoveAllChar(s: string, c: char)
    ensures c !in RemoveAll(s, [c])
    ensures forall d :: d in RemoveAll(s, [c]) ==> d in s
    decreases |s|
  {
    if |s| >= 1 {
      if s[..1] == [c] {
        RemoveAllChar(s[1..], c);
      } else {
        RemoveAllChar(s[1..], c);
        assert s[0] != c;
      }
    }
  }

  /** Number of occurrences of `c` in `s`. */
  function CountChar(s: string, c: char): nat {
    if s == [] then 0 else (if s[0] == c then 1 else 0) + CountChar(s[1..], c)
  }

  /** `s.split(c)` with a one-character separator. */
  function Split(s: string, c: char): (r: seq<string>)
    ensures |r| >= 1
    ensures IndexOfChar(s, c) >= 0 ==> |r| >= 2
    decreases |s|
  {
    var i := IndexOfChar(s, c);
    if i < 0 then [s] else [s[..i]] + Split(s[i + 1..], c)
  }

  /** No piece of a split holds the separator. */
  lemma {:induction false} SplitPiecesFree(s: string, c: char)
    ensures forall k :: 0 <= k < |Split(s, c)| ==> c !in Split(s, c)[k]
    decreases |s|
  {
    var i := IndexOfChar(s, c);
    if i < 0 {
      NotInPrefix(s, c, |s|);
      assert s[..|s|] == s;
    } else {
      var rest := Split(s[i + 1..], c);
      SplitPiecesFree(s[i + 1..], c);
      NotInPrefix(s, c, i);
      var r := [s[..i]] + rest;
      assert Split(s, c) == r;
      assert forall k :: 0 < k < |r| ==> r[k] == rest[k - 1];
    }
  }


  /** A string holding the separator splits into at least two pieces. */
  lemma SplitAtSeparator(s: string, c: char)
    requires c in s
    ensures |Split(s, c)| >= 2
  {
    var k :| 0 <= k < |s| && s[k] == c;
    assert IndexOfChar(s, c) >= 0;
  }

  /** A character that none of the first `n` positions holds is not in
      that prefix. */
  lemma NotInPrefix(s: string, c: char, n: nat)
    requires n <= |s|
    requires forall k :: 0 <= k < n ==> s[k] != c
    ensures c !in s[..n]
  {
  }

  /** `parts.join(sep)`. */
  function Join(parts: seq<string>, sep: string): string {
    if parts == [] then []
    else if |parts| == 1 then parts[0]
    else parts[0] + sep + Join(parts[1..], sep)
  }

  /** Joining the pieces of a split with the separator restores the string. */
  lemma {:induction false} JoinSplit(s: string, c: char)
    ensures Join(Split(s, c), [c]) == s
    decreases |s|
  {
    var i := IndexOfChar(s, c);
    if i >= 0 {
      JoinSplit(s[i + 1..], c);
      assert s == s[..i] + [c] + s[i + 1..];
    }
  }

  /** Splitting a join of separator-free pieces gives the pieces back. */
  lemma {:induction false} SplitJoin(parts: seq<string>, c: char)
    requires parts != []
    requires forall k :: 0 <= k < |parts| ==> c !in parts[k]
    ensures Split(Join(parts, [c]), c) == parts
    decreases |parts|
  {
    if |parts| == 1 {
      assert IndexOfChar(parts[0], c) < 0;
    } else {
      var rest := Join(parts[1..], [c]);
      var s := parts[0] + [c] + rest;
      assert s[|parts[0]|] == c;
      assert IndexOfChar(s, c) == |parts[0]|;
      assert s[..|parts[0]|] == parts[0];
      assert s[|parts[0]| + 1..] == rest;
      SplitJoin(parts[1..], c);
      assert [parts[0]] + parts[1..] == parts;
    }
  }

  /** A split has one more piece than there are separators. */
  lemma {:induction false} SplitCount(s: string, c: char)
    ensures |Split(s, c)| == CountChar(s, c) + 1
    decreases |s|
  {
    var i := IndexOfChar(s, c);
    if i < 0 {
      NoCharCount(s, c);
    } else {
      SplitCount(s[i + 1..], c);
      assert s == s[..i] + ([c] + s[i + 1..]);
      CountCharAppend(s[..i], [c] + s[i + 1..], c);
      NoCharCount(s[..i], c);
      assert ([c] + s[i + 1..])[1..] == s[i + 1..];
    }
  }

  lemma {:induction false} NoCharCount(s: string, c: char)
    requires c !in s
    ensures CountChar(s, c) == 0
  {
    if s != [] {
      NoCharCount(s[1..], c);
    }
  }

  lemma {:induction false} CountCharAppend(a: string, b: string, c: char)
    ensures CountChar(a + b, c) == CountChar(a, c) + CountChar(b, c)
  {
    if a != [] {
      assert (a + b)[0] == a[0];
      assert (a + b)[1..] == a[1..] + b;
      CountCharAppend(a[1..], b, c);
    } else {
      assert a + b == b;
    }
  }

  /** `String.prototype.toLowerCase` on ASCII letters; other characters are
      left as they are. */
  function LowerChar(c: char): char {
    if 'A' <= c <= 'Z' then (c as int + 32) as char else c
  }

  function ToLower(s: string): (r: string)
    ensures |r| == |s|
    ensures forall k :: 0 <= k < |s| ==> r[k] == LowerChar(s[k])
  {
    seq(|s|, k requires 0 <= k < |s| => LowerChar(s[k]))
  }

  /** `'-'.repeat(n)` and the like. */
  function Repeat(c: char, n: nat): (r: string)
    ensures |r| == n && forall k :: 0 <= k < n ==> r[k] == c
  {
    seq(n, k => c)
  }

  /** Keeps the strings a predicate accepts, in order (`Array.prototype.filter`). */
  function Filter(xs: seq<string>, keep: string -> bool): (r: seq<string>)
    ensures |r| <= |xs|
    ensures forall k :: 0 <= k < |r| ==> keep(r[k]) && r[k] in xs
  {
    if xs == [] then []
    else (if keep(xs[0]) then [xs[0]] else []) + Filter(xs[1..], keep)
  }

  function NotBlank(line: string): bool {
    Trim(line) != []
  }

  /** Decimal digit, the class `\d`. */
  predicate IsDigit(c: char) {
    '0' as int <= c as int <= '9' as int
  }

  /** Word character, the class `\w`. */
  predicate IsWordChar(c: char) {
    'a' <= c <= 'z' || 'A' <= c <= 'Z' || IsDigit(c) || c == '_'
  }
  predicate EndsWith(s: string, suffix: string) {
    |suffix| <= |s| && s[|s| - |suffix|..] == suffix
  }

  lemma AppendEndsWith(a: string, b: string)
    ensures EndsWith(a + b, b)
  {
    assert (a + b)[|a|..] == b;
  }

  /** Where the `k`-th part starts in `Join(parts, sep)`. */
  function JoinOffset(parts: seq<string>, sep: string, k: nat): nat
    requires k <= |parts|
  {
    if k == 0 then 0 else |parts[0]| + |sep| + JoinOffset(parts[1..], sep, k - 1)
  }

  /** A slice of the right operand of a concatenation, seen from the whole. */
  lemma SliceOfRight(a: string, b: string, x: nat, y: nat)
    requires x <= y <= |b|
    ensures (a + b)[|a| + x..|a| + y] == b[x..y]
  {
    assert (a + b)[|a|..] == b;
    assert (a + b)[|a| + x..|a| + y] == (a + b)[|a|..][x..y];
  }

  /** Every part appears, in order, at its offset in the joined string. */
  lemma {:induction false} JoinSlice(parts: seq<string>, sep: string, k: nat)
    requires k < |parts|
    ensures JoinOffset(parts, sep, k) + |parts[k]| <= |Join(parts, sep)|
    ensures Join(parts, sep)[JoinOffset(parts, sep, k)..JoinOffset(parts, sep, k) + |parts[k]|] == parts[k]
    decreases |parts|
  {
    if |parts| > 1 {
      var head := parts[0] + sep;
      var rest := Join(parts[1..], sep);
      assert Join(parts, sep) == head + rest;
      if k == 0 {
        assert (head + rest)[..|parts[0]|] == parts[0];
      } else {
        JoinSlice(parts[1..], sep, k - 1);
        var o := JoinOffset(parts[1..], sep, k - 1);
        SliceOfRight(head, rest, o, o + |parts[k]|);
      }
    }
  }

  /** The separator follows every part but the last. */
  lemma {:induction false} JoinSeparatorSlice(parts: seq<string>, sep: string, k: nat)
    requires k + 1 < |parts|
    ensures JoinOffset(parts, sep, k) + |parts[k]| + |sep| <= |Join(parts, sep)|
    ensures Join(parts, sep)[JoinOffset(parts, sep, k) + |parts[k]|..JoinOffset(parts, sep, k) + |parts[k]| + |sep|] == sep
    decreases |parts|
  {
    var head := parts[0] + sep;
    var rest := Join(parts[1..], sep);
    assert Join(parts, sep) == head + rest;
    if k == 0 {
      assert (head + rest)[|parts[0]|..|parts[0]| + |sep|] == sep;
    } else {
      JoinSeparatorSlice(parts[1..], sep, k - 1);
      var o := JoinOffset(parts[1..], sep, k - 1) + |parts[k]|;
      SliceOfRight(head, rest, o, o + |sep|);
    }
  }

  /** `n.toString()` / `${n}` for a natural number. */
  function NatToString(n: nat): (r: string)
    ensures r != [] && forall k :: 0 <= k < |r| ==> IsDigit(r[k])
  {
    if n < 10 then [('0' as int + n) as char]
    else NatToString(n / 10) + [('0' as int + n % 10) as char]
  }

  /** The number a string of decimal digits denotes. */
  function DigitsValue(s: string): nat
    requires forall k :: 0 <= k < |s| ==> IsDigit(s[k])
  {
    if s == [] then 0
    else
      assert IsDigit(s[|s| - 1]);
      DigitsValue(s[..|s| - 1]) * 10 + (s[|s| - 1] as int - '0' as int)
  }

  /** The decimal rendering denotes the number it renders. */
  lemma {:induction false} NatToStringValue(n: nat)
    ensures DigitsValue(NatToString(n)) == n
  {
    var r := NatToString(n);
    if n >= 10 {
      NatToStringValue(n / 10);
      assert r[..|r| - 1] == NatToString(n / 10);
    } else {
      assert r[..0] == [];
    }
  }

  /** The characters of `s` that are not white space, in order. */
  function NonSpace(s: string): string {
    if s == [] then [] else (if IsSpace(s[0]) then [] else [s[0]]) + NonSpace(s[1..])
  }

  predicate NoDoubleSpace(s: string) {
    forall k :: 0 <= k < |s| - 1 ==> !(IsSpace(s[k]) && IsSpace(s[k + 1]))
  }

  /** `/\s+/g` replaced by a single space. */
  function CollapseSpace(s: string): (r: string)
    ensures |r| <= |s|
    ensures forall k :: 0 <= k < |r| ==> r[k] == ' ' || (!IsSpace(r[k]) && r[k] in s)
    ensures NoDoubleSpace(r)
    ensures r != [] && IsSpace(r[0]) ==> IsSpace(s[0])
    decreases |s|
  {
    if s == [] then []
    else if IsSpace(s[0]) then
      var t := TrimStart(s[1..]);
      var rest := CollapseSpace(t);
      SuffixChars(s, t);
      ConsCollapsed(' ', rest, t, s);
      [' '] + rest
    else
      var rest := CollapseSpace(s[1..]);
      SuffixChars(s, s[1..]);
      ConsCollapsed(s[0], rest, s[1..], s);
      [s[0]] + rest
  }

  /** A suffix of what follows the first character has only characters of
      the whole. */
  lemma SuffixChars(s: string, t: string)
    requires s != [] && |t| <= |s| - 1 && t == s[|s| - |t|..]
    ensures forall x :: x in t ==> x in s
  {
    forall x | x in t ensures x in s {
      var k :| 0 <= k < |t| && t[k] == x;
      assert s[|s| - |t| + k] == x;
    }
  }

  /** One more leading character keeps a collapsed text collapsed. */
  lemma ConsCollapsed(c: char, rest: string, t: string, s: string)
    requires c == ' ' || (!IsSpace(c) && c in s)
    requires forall k :: 0 <= k < |rest| ==> rest[k] == ' ' || (!IsSpace(rest[k]) && rest[k] in t)
    requires forall x :: x in t ==> x in s
    requires NoDoubleSpace(rest)
    requires rest == [] || !(IsSpace(c) && IsSpace(rest[0]))
    ensures var r := [c] + rest;
      (forall k :: 0 <= k < |r| ==> r[k] == ' ' || (!IsSpace(r[k]) && r[k] in s)) && NoDoubleSpace(r)
  {
    var r := [c] + rest;
    forall k | 0 < k < |r| ensures r[k] == rest[k - 1] {
    }
  }

  lemma {:induction false} NonSpaceAllSpace(s: string)
    requires AllSpace(s)
    ensures NonSpace(s) == []
  {
    if s != [] {
      NonSpaceAllSpace(s[1..]);
    }
  }

  lemma {:induction false} NonSpaceAppend(a: string, b: string)
    ensures NonSpace(a + b) == NonSpace(a) + NonSpace(b)
  {
    if a == [] {
      assert a + b == b;
    } else {
      assert (a + b)[1..] == a[1..] + b;
      NonSpaceAppend(a[1..], b);
    }
  }

  /** Collapsing runs of white space loses no other character and adds none. */
  lemma {:induction false} CollapseKeepsContent(s: string)
    ensures NonSpace(CollapseSpace(s)) == NonSpace(s)
    decreases |s|
  {
    if s != [] {
      var r := CollapseSpace(s);
      if IsSpace(s[0]) {
        var t := TrimStart(s[1..]);
        CollapseKeepsContent(t);
        assert r[1..] == CollapseSpace(t);
        var cut := s[1..][..|s[1..]| - |t|];
        assert s[1..] == cut + t;
        NonSpaceAllSpace(cut);
        NonSpaceAppend(cut, t);
      } else {
        CollapseKeepsContent(s[1..]);
        assert r[1..] == CollapseSpace(s[1..]);
      }
    }
  }
}
