/**
 * The java.lang.String, Integer, Long and commons-lang3 BooleanUtils operations the core
 * relies on, with Java's own edge cases: `split` drops trailing empty pieces, `trim` strips
 * every character up to U+0020, `indexOf` with a negative start searches from 0.
 * Case folding covers ASCII letters only.
 */
module JavaString {
  import opened Wrappers

  // ---------------------------------------------------------------- searching

  predicate StartsWith(s: string, prefix: string) {
    |prefix| <= |s| && s[..|prefix|] == prefix
  }

  predicate EndsWith(s: string, suffix: string) {
    |suffix| <= |s| && s[|s| - |suffix|..] == suffix
  }

  /** `t` occurs in `s` starting at index `i`. */
  predicate OccursAt(s: string, t: string, i: int) {
    0 <= i && i + |t| <= |s| && s[i..i + |t|] == t
  }

  /** `s.contains(t)` */
  predicate Contains(s: string, t: string) {
    exists i :: 0 <= i <= |s| && OccursAt(s, t, i)
  }

  function Max0(n: int): nat { if n < 0 then 0 else n }

  /** `s.indexOf(t, from)` for a non-empty `t`: the first occurrence at or after `from`, or -1. */
  function IndexOf(s: string, t: string, from: int): (r: int)
    requires |t| > 0
    ensures r == -1 || (Max0(from) <= r && OccursAt(s, t, r))
    ensures forall i :: Max0(from) <= i && (r == -1 || i < r) ==> !OccursAt(s, t, i)
    decreases |s| - Max0(from)
  {
    var k := Max0(from);
    if k + |t| > |s| then -1
    else if s[k..k + |t|] == t then k
    else IndexOf(s, t, k + 1)
  }

  /** `s.lastIndexOf(c)` */
  function LastIndexOf(s: string, c: char): (r: int)
    ensures -1 <= r < |s|
    ensures r >= 0 ==> s[r] == c
    ensures forall i :: r < i < |s| ==> s[i] != c
  {
    if |s| == 0 then -1
    else if s[|s| - 1] == c then |s| - 1
    else LastIndexOf(s[..|s| - 1], c)
  }

  lemma OccursAtChar(s: string, c: char, i: int)
    ensures OccursAt(s, [c], i) <==> 0 <= i < |s| && s[i] == c
  {
    if 0 <= i < |s| {
      assert s[i..i + 1] == [s[i]];
    }
  }

  /** Searching for a one-character string finds the first index of that character. */
  lemma {:induction false} IndexOfCharIsFirst(a: string, c: char, b: string)
    requires c !in a
    ensures IndexOf(a + [c] + b, [c], 0) == |a|
  {
    var s := a + [c] + b;
    var r := IndexOf(s, [c], 0);
    assert forall i :: 0 <= i < |a| ==> s[i] == a[i];
    OccursAtChar(s, c, |a|);
    OccursAtChar(s, c, r);
  }

  lemma {:induction false} IndexOfCharAbsent(s: string, c: char)
    requires c !in s
    ensures IndexOf(s, [c], 0) == -1
  {
    var r := IndexOf(s, [c], 0);
    if r != -1 {
      OccursAtChar(s, c, r);
    }
  }

  /** Searching from the end of `p` finds the first `c` of what follows. */
  lemma IndexOfCharAfter(p: string, a: string, c: char, b: string)
    requires c !in a
    ensures IndexOf(p + a + [c] + b, [c], |p|) == |p| + |a|
  {
    var s := p + a + [c] + b;
    OccursAtChar(s, c, |p| + |a|);
    forall i | |p| <= i < |p| + |a| ensures !OccursAt(s, [c], i) {
      OccursAtChar(s, c, i);
      assert s[i] == a[i - |p|];
    }
  }

  /** Searching from the end of `p` finds nothing when what follows has no `c`. */
  lemma IndexOfCharAbsentAfter(p: string, a: string, c: char)
    requires c !in a
    ensures IndexOf(p + a, [c], |p|) == -1
  {
    var s := p + a;
    forall i | |p| <= i < |s| ensures !OccursAt(s, [c], i) {
      OccursAtChar(s, c, i);
      assert s[i] == a[i - |p|];
    }
  }

  /** An occurrence stays where it is when text is appended. */
  lemma OccursAtAppend(a: string, t: string, k: int, b: string)
    requires OccursAt(a, t, k)
    ensures OccursAt(a + b, t, k)
  {
    assert (a + b)[k..k + |t|] == a[k..k + |t|];
  }

  /** The second part of a concatenation occurs right after the first. */
  lemma OccursAtEnd(a: string, b: string)
    ensures OccursAt(a + b, b, |a|)
  {
    assert (a + b)[|a|..|a| + |b|] == b;
  }

  /** An occurrence with none before it, from `from` on, is what `indexOf` finds. */
  lemma IndexOfAt(s: string, t: string, from: int, k: int)
    requires |t| > 0 && Max0(from) <= k && OccursAt(s, t, k)
    requires forall i :: Max0(from) <= i < k ==> !OccursAt(s, t, i)
    ensures IndexOf(s, t, from) == k
  {
  }

  /** Text that contains `t` still does with anything added on either side. */
  lemma ContainsAppend(a: string, b: string, t: string)
    requires Contains(a, t) || Contains(b, t)
    ensures Contains(a + b, t)
  {
    if Contains(a, t) {
      var i :| 0 <= i <= |a| && OccursAt(a, t, i);
      OccursAtAppend(a, t, i, b);
    } else {
      var i :| 0 <= i <= |b| && OccursAt(b, t, i);
      assert (a + b)[|a| + i..|a| + i + |t|] == b[i..i + |t|];
      assert OccursAt(a + b, t, |a| + i);
    }
  }

  lemma ContainsItself(t: string)
    ensures Contains(t, t)
  {
    assert OccursAt(t, t, 0);
  }

  /** `Contains` is transitive. */
  lemma ContainsTransitive(s: string, u: string, t: string)
    requires Contains(s, u) && Contains(u, t)
    ensures Contains(s, t)
  {
    var i :| 0 <= i <= |s| && OccursAt(s, u, i);
    var j :| 0 <= j <= |u| && OccursAt(u, t, j);
    assert u == s[i..i + |u|];
    forall k | 0 <= k < |t|
      ensures s[i + j + k] == t[k]
    {
      assert s[i + j + k] == u[j + k];
      assert u[j..j + |t|][k] == t[k];
    }
    assert s[i + j..i + j + |t|] == t;
    assert OccursAt(s, t, i + j);
  }

  /** The text of several pieces written one after another. */
  function Concat(xs: seq<string>): string {
    if |xs| == 0 then "" else Concat(xs[..|xs| - 1]) + xs[|xs| - 1]
  }

  /** The pieces before `k` make up a prefix of the whole text. */
  lemma {:induction false} ConcatPrefix(xs: seq<string>, k: nat)
    requires k <= |xs|
    ensures Concat(xs[..k]) <= Concat(xs)
  {
    if k == |xs| {
      assert xs[..k] == xs;
    } else {
      var n := |xs| - 1;
      assert xs[..n][..k] == xs[..k];
      ConcatPrefix(xs[..n], k);
    }
  }

  /** Piece `k` occurs right after the pieces before it. */
  lemma OccursAtPiece(xs: seq<string>, k: nat)
    requires k < |xs|
    ensures OccursAt(Concat(xs), xs[k], |Concat(xs[..k])|)
  {
    var a := Concat(xs[..k]);
    assert xs[..k + 1][..k] == xs[..k];
    assert Concat(xs[..k + 1]) == a + xs[k];
    OccursAtEnd(a, xs[k]);
    ConcatPrefix(xs, k + 1);
    var s := Concat(xs);
    assert s[|a|..|a| + |xs[k]|] == (a + xs[k])[|a|..|a| + |xs[k]|];
  }

  lemma ContainsPiece(xs: seq<string>, k: nat)
    requires k < |xs|
    ensures Contains(Concat(xs), xs[k])
  {
    OccursAtPiece(xs, k);
  }

  /** A character in none of the pieces is not in their text. */
  lemma {:induction false} CharNotInConcat(xs: seq<string>, c: char)
    requires forall i :: 0 <= i < |xs| ==> c !in xs[i]
    ensures c !in Concat(xs)
  {
    if |xs| > 0 {
      CharNotInConcat(xs[..|xs| - 1], c);
    }
  }

  // ---------------------------------------------------------------- file paths

  /** What the file system holds at a path. */
  datatype PathKind = Missing | Directory | OtherFile

  /**
   * `new File(dir, name).getPath()` on a Unix file system: the directory without its trailing
   * '/', then '/', then the name. Doubled '/' inside the directory are kept as given.
   */
  function Child(dir: string, name: string): string {
    (if |dir| > 0 && dir[|dir| - 1] == '/' then dir[..|dir| - 1] else dir) + "/" + name
  }

  // ---------------------------------------------------------------- rewriting

  /** `s.replace(from, to)` for two characters. */
  function ReplaceChar(s: string, from: char, to: char): (r: string)
    ensures |r| == |s|
  {
    seq(|s|, i requires 0 <= i < |s| => if s[i] == from then to else s[i])
  }

  /** `s.replace(target, replacement)` for a one-character target. */
  function ReplaceCharWith(s: string, target: char, replacement: string): string
  {
    if |s| == 0 then ""
    else (if s[0] == target then replacement else [s[0]]) + ReplaceCharWith(s[1..], target, replacement)
  }

  /** After the replacement no `target` is left, as long as the replacement holds none. */
  lemma {:induction false} ReplaceCharWithRemoves(s: string, target: char, replacement: string)
    requires target !in replacement
    ensures target !in ReplaceCharWith(s, target, replacement)
  {
    if |s| > 0 {
      ReplaceCharWithRemoves(s[1..], target, replacement);
    }
  }

  /** Text without the target is left as it is. */
  lemma {:induction false} ReplaceCharWithAbsent(s: string, target: char, replacement: string)
    requires target !in s
    ensures ReplaceCharWith(s, target, replacement) == s
  {
    if |s| > 0 {
      assert target !in s[1..];
      ReplaceCharWithAbsent(s[1..], target, replacement);
      assert [s[0]] + s[1..] == s;
    }
  }

  /** The replacement works character by character, so it distributes over concatenation. */
  lemma {:induction false} ReplaceCharWithAppend(a: string, b: string, target: char, replacement: string)
    ensures ReplaceCharWith(a + b, target, replacement)
         == ReplaceCharWith(a, target, replacement) + ReplaceCharWith(b, target, replacement)
    decreases |a|
  {
    if |a| > 0 {
      assert (a + b)[1..] == a[1..] + b;
      ReplaceCharWithAppend(a[1..], b, target, replacement);
    } else {
      assert a + b == b;
    }
  }

  /**
   * Replacing every `target` is cutting the text at each `target` and joining the pieces
   * with the replacement in between.
   */
  lemma {:induction false} ReplaceCharWithIsSplitJoin(s: string, target: char, replacement: string)
    ensures ReplaceCharWith(s, target, replacement) == Join(Pieces(s, [target]), replacement)
    decreases |s|
  {
    if target !in s {
      IndexOfCharAbsent(s, target);
      ReplaceCharWithAbsent(s, target, replacement);
    } else {
      var a, b := SplitAtFirst(s, target);
      PiecesAtFirst(a, target, b);
      ReplaceAtFirst(a, target, b, replacement);
      ReplaceCharWithIsSplitJoin(b, target, replacement);
      var rest := Pieces(b, [target]);
      assert ([a] + rest)[1..] == rest;
    }
  }

  /** Replacing in a text whose first `target` follows `a`. */
  lemma ReplaceAtFirst(a: string, target: char, b: string, replacement: string)
    requires target !in a
    ensures ReplaceCharWith(a + [target] + b, target, replacement)
         == a + replacement + ReplaceCharWith(b, target, replacement)
  {
    ReplaceCharWithAbsent(a, target, replacement);
    assert ReplaceCharWith([target] + b, target, replacement) == replacement + ReplaceCharWith(b, target, replacement) by {
      assert ([target] + b)[1..] == b;
    }
    assert a + [target] + b == a + ([target] + b);
    ReplaceCharWithAppend(a, [target] + b, target, replacement);
  }

  /** A text holding `c` is the text before its first `c`, that `c`, and the rest. */
  lemma {:induction false} SplitAtFirst(s: string, c: char) returns (a: string, b: string)
    requires c in s
    ensures s == a + [c] + b && c !in a
    decreases |s|
  {
    if s[0] == c {
      a, b := "", s[1..];
    } else {
      var a', b' := SplitAtFirst(s[1..], c);
      a, b := [s[0]] + a', b';
    }
  }

  /** Cutting at a one-character separator: the text before its first occurrence is the first piece. */
  lemma PiecesAtFirst(a: string, c: char, b: string)
    requires c !in a
    ensures Pieces(a + [c] + b, [c]) == [a] + Pieces(b, [c])
  {
    var s := a + [c] + b;
    IndexOfCharIsFirst(a, c, b);
    assert s[..|a|] == a;
    assert s[|a| + 1..] == b;
  }

  predicate IsWhitespace(c: char) { c <= ' ' }

  function TrimLeading(s: string): (r: string)
    ensures |r| <= |s| && r == s[|s| - |r|..]
    ensures forall i :: 0 <= i < |s| - |r| ==> IsWhitespace(s[i])
    ensures |r| == 0 || !IsWhitespace(r[0])
  {
    if |s| > 0 && IsWhitespace(s[0]) then TrimLeading(s[1..]) else s
  }

  function TrimTrailing(s: string): (r: string)
    ensures |r| <= |s| && r == s[..|r|]
    ensures forall i :: |r| <= i < |s| ==> IsWhitespace(s[i])
    ensures |r| == 0 || !IsWhitespace(r[|r| - 1])
  {
    if |s| > 0 && IsWhitespace(s[|s| - 1]) then TrimTrailing(s[..|s| - 1]) else s
  }

  /** `s.trim()`: strips every character up to U+0020 from both ends. */
  function Trim(s: string): string {
    TrimTrailing(TrimLeading(s))
  }

  lemma {:induction false} TrimLeadingAllWhitespace(s: string)
    requires forall i :: 0 <= i < |s| ==> IsWhitespace(s[i])
    ensures TrimLeading(s) == ""
  {
    if |s| > 0 {
      TrimLeadingAllWhitespace(s[1..]);
    }
  }

  /** `s.trim().isEmpty()` holds exactly when every character of `s` is trimmed away. */
  lemma TrimEmpty(s: string)
    ensures Trim(s) == "" <==> forall i :: 0 <= i < |s| ==> IsWhitespace(s[i])
  {
    var l := TrimLeading(s);
    if forall i :: 0 <= i < |s| ==> IsWhitespace(s[i]) {
      TrimLeadingAllWhitespace(s);
    }
  }

  lemma TrimLeadingKeeps(t: string)
    requires |t| == 0 || !IsWhitespace(t[0])
    ensures TrimLeading(t) == t
  {
  }

  lemma TrimTrailingKeeps(t: string)
    requires |t| == 0 || !IsWhitespace(t[|t| - 1])
    ensures TrimTrailing(t) == t
  {
  }

  /** A trimmed string starts and ends with a character that is not trimmed. */
  lemma TrimEnds(s: string)
    ensures |Trim(s)| == 0 || (!IsWhitespace(Trim(s)[0]) && !IsWhitespace(Trim(s)[|Trim(s)| - 1]))
  {
    var l := TrimLeading(s);
    var t := TrimTrailing(l);
    if |t| > 0 {
      assert t[0] == l[0];
    }
  }

  /** Trimming a trimmed string changes nothing. */
  lemma TrimIdempotent(s: string)
    ensures Trim(Trim(s)) == Trim(s)
  {
    var t := Trim(s);
    TrimEnds(s);
    TrimLeadingKeeps(t);
    TrimTrailingKeeps(t);
  }

  function LowerChar(c: char): char {
    if 'A' <= c <= 'Z' then (c as int + 32) as char else c
  }

  /** `s.toLowerCase()` on ASCII letters. */
  function ToLower(s: string): (r: string)
    ensures |r| == |s|
  {
    seq(|s|, i requires 0 <= i < |s| => LowerChar(s[i]))
  }

  /** `a.equalsIgnoreCase(b)` on ASCII letters. */
  predicate EqualsIgnoreCase(a: string, b: string) {
    ToLower(a) == ToLower(b)
  }

  // ---------------------------------------------------------------- split and join

  /** Every piece between occurrences of `sep`, scanning left to right, trailing empties kept. */
  function Pieces(s: string, sep: string): (r: seq<string>)
    requires |sep| > 0
    ensures |r| >= 1
    decreases |s|
  {
    var i := IndexOf(s, sep, 0);
    if i < 0 then [s] else [s[..i]] + Pieces(s[i + |sep|..], sep)
  }

  function DropTrailingEmpty(xs: seq<string>): (r: seq<string>)
    ensures |r| <= |xs| && r == xs[..|r|]
    ensures |r| == 0 || r[|r| - 1] != ""
    ensures forall i :: |r| <= i < |xs| ==> xs[i] == ""
  {
    if |xs| > 0 && xs[|xs| - 1] == "" then DropTrailingEmpty(xs[..|xs| - 1]) else xs
  }

  /**
   * `s.split(sep)` for a separator without regular-expression metacharacters: the string
   * itself when `sep` does not occur, otherwise the pieces with trailing empty ones removed.
   */
  function Split(s: string, sep: string): seq<string>
    requires |sep| > 0
  {
    if IndexOf(s, sep, 0) < 0 then [s] else DropTrailingEmpty(Pieces(s, sep))
  }

  /** The pieces joined with `sep` between them. */
  function Join(xs: seq<string>, sep: string): string {
    if |xs| == 0 then ""
    else if |xs| == 1 then xs[0]
    else xs[0] + sep + Join(xs[1..], sep)
  }

  /** Splitting a join on a one-character separator absent from every piece gives the pieces back. */
  lemma {:induction false} PiecesOfJoin(xs: seq<string>, c: char)
    requires |xs| >= 1
    requires forall i :: 0 <= i < |xs| ==> c !in xs[i]
    ensures Pieces(Join(xs, [c]), [c]) == xs
  {
    if |xs| == 1 {
      IndexOfCharAbsent(xs[0], c);
    } else {
      var rest := Join(xs[1..], [c]);
      assert Join(xs, [c]) == xs[0] + [c] + rest;
      IndexOfCharIsFirst(xs[0], c, rest);
      assert (xs[0] + [c] + rest)[..|xs[0]|] == xs[0];
      assert (xs[0] + [c] + rest)[|xs[0]| + 1..] == rest;
      PiecesOfJoin(xs[1..], c);
    }
  }

  /** A character in no piece and not in the separator is not in the joined text. */
  lemma {:induction false} JoinExcludes(xs: seq<string>, sep: string, c: char)
    requires c !in sep
    requires forall i :: 0 <= i < |xs| ==> c !in xs[i]
    ensures c !in Join(xs, sep)
  {
    if |xs| > 1 {
      JoinExcludes(xs[1..], sep, c);
    }
  }

  /**
   * Splitting a join of several pieces on a one-character separator that no piece holds gives
   * the pieces back, provided the last one is not empty (split drops trailing empty pieces).
   */
  lemma SplitOfJoin(xs: seq<string>, c: char)
    requires |xs| >= 2 && xs[|xs| - 1] != ""
    requires forall i :: 0 <= i < |xs| ==> c !in xs[i]
    ensures Split(Join(xs, [c]), [c]) == xs
  {
    IndexOfCharIsFirst(xs[0], c, Join(xs[1..], [c]));
    PiecesOfJoin(xs, c);
  }

  // ---------------------------------------------------------------- numbers

  const INT_MIN: int := -0x8000_0000
  const INT_MAX: int := 0x7fff_ffff
  const LONG_MIN: int := -0x8000_0000_0000_0000
  const LONG_MAX: int := 0x7fff_ffff_ffff_ffff

  predicate IsDigit(c: char) { '0' <= c <= '9' }

  predicate AllDigits(s: string) { forall i :: 0 <= i < |s| ==> IsDigit(s[i]) }

  function DigitChar(d: nat): char
    requires d < 10
  {
    (('0' as int) + d) as char
  }

  function DigitsValue(s: string): nat
    requires AllDigits(s)
  {
    if |s| == 0 then 0 else DigitsValue(s[..|s| - 1]) * 10 + (s[|s| - 1] as int - '0' as int)
  }

  /** Decimal text of a natural number, without leading zeros. */
  function NatToString(n: nat): (r: string)
    ensures |r| >= 1 && AllDigits(r)
  {
    if n < 10 then [DigitChar(n)] else NatToString(n / 10) + [DigitChar(n % 10)]
  }

  /** `String.valueOf(n)` / `"" + n` for an int or a long. */
  function IntToString(n: int): string {
    if n < 0 then "-" + NatToString(-n) else NatToString(n)
  }

  /**
   * `Integer.parseInt` (range INT_MIN..INT_MAX) and `Long.parseLong` (LONG_MIN..LONG_MAX)
   * on ASCII text: an optional sign, at least one digit, and a value within the range.
   */
  function ParseInteger(s: string, lo: int, hi: int): Option<int> {
    if |s| == 0 then None
    else
      var digits := if s[0] == '-' || s[0] == '+' then s[1..] else s;
      if |digits| == 0 || !AllDigits(digits) then None
      else
        var v: int := if s[0] == '-' then -(DigitsValue(digits) as int) else DigitsValue(digits);
        if lo <= v <= hi then Some(v) else None
  }

  function ParseInt(s: string): Option<int> { ParseInteger(s, INT_MIN, INT_MAX) }

  function ParseLong(s: string): Option<int> { ParseInteger(s, LONG_MIN, LONG_MAX) }

  lemma {:induction false} DigitsValueOfNatToString(n: nat)
    ensures DigitsValue(NatToString(n)) == n
  {
    if n >= 10 {
      var p := NatToString(n / 10);
      var s := p + [DigitChar(n % 10)];
      assert s[..|s| - 1] == p;
      DigitsValueOfNatToString(n / 10);
    }
  }

  /** Parsing the decimal text of an in-range number gives the number back. */
  lemma ParseIntegerOfIntToString(n: int, lo: int, hi: int)
    requires lo <= n <= hi
    ensures ParseInteger(IntToString(n), lo, hi) == Some(n)
  {
    if n < 0 {
      var s := "-" + NatToString(-n);
      assert s[1..] == NatToString(-n);
      DigitsValueOfNatToString(-n);
    } else {
      var s := NatToString(n);
      assert IsDigit(s[0]);
      DigitsValueOfNatToString(n);
    }
  }

  /** `"" + n` never contains a character other than a digit or a leading '-'. */
  lemma IntToStringChars(n: int, c: char)
    requires c in IntToString(n)
    ensures IsDigit(c) || c == '-'
  {
    var s := IntToString(n);
    var i :| 0 <= i < |s| && s[i] == c;
    if n < 0 && i > 0 {
      assert s[i] == NatToString(-n)[i - 1];
    }
  }

  /** In particular the decimal text of a number never holds a newline. */
  lemma NoNewlineInIntToString(n: int)
    ensures '\n' !in IntToString(n)
  {
    var s := IntToString(n);
    forall i | 0 <= i < |s| ensures s[i] != '\n' {
      IntToStringChars(n, s[i]);
    }
  }

  // ---------------------------------------------------------------- booleans

  /**
   * commons-lang3 `BooleanUtils.toBooleanObject(String)`: "true", "on", "yes", "y", "t" give true,
   * "false", "off", "no", "n", "f" give false, ignoring case; anything else, and null, gives null.
   */
  function ToBooleanObject(s: Option<string>): Option<bool> {
    match s
    case None => None
    case Some(t) =>
      var l := ToLower(t);
      if l == "true" || l == "on" || l == "yes" || l == "y" || l == "t" then Some(true)
      else if l == "false" || l == "off" || l == "no" || l == "n" || l == "f" then Some(false)
      else None
  }

  // ---------------------------------------------------------------- sets of strings

  predicate NoDuplicates<T(==)>(s: seq<T>) {
    forall i, j :: 0 <= i < j < |s| ==> s[i] != s[j]
  }

  /**
   * A java.util.Set<String>, as the sequence of its elements in iteration order. Java leaves
   * HashSet order unspecified; the model keeps the order of first insertion.
   */
  type StringSet = s: seq<string> | NoDuplicates(s) witness []

  /** `set.add(x)` */
  function Add(s: StringSet, x: string): (r: StringSet)
    ensures forall y :: y in r <==> y in s || y == x
  {
    if x in s then s else s + [x]
  }

  /** `new HashSet<>(Arrays.asList(xs))` */
  function ToSet(xs: seq<string>): (r: StringSet)
    ensures forall y :: y in r <==> y in xs
  {
    if |xs| == 0 then [] else Add(ToSet(xs[..|xs| - 1]), xs[|xs| - 1])
  }
}
