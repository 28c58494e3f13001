/** String operations of the JavaScript runtime that the application relies on:
    `trim`, `startsWith`, `endsWith`, `includes`, `indexOf`, `join` and number
    formatting. Strings are sequences of characters. */
module Strings {

  /** The characters `String.prototype.trim` removes: the ECMAScript WhiteSpace
      and LineTerminator code points. */
  predicate IsSpace(c: char) {
    c == ' ' || c == '\t' || c == '\n' || c == '\r' || c == '\U{B}' || c == '\U{C}'
    || c == '\U{A0}' || c == '\U{FEFF}' || c == '\U{1680}' || ('\U{2000}' <= c <= '\U{200A}')
    || c == '\U{2028}' || c == '\U{2029}' || c == '\U{202F}' || c == '\U{205F}' || c == '\U{3000}'
  }

  function TrimStart(s: string): string
    decreases |s|
  {
    if |s| > 0 && IsSpace(s[0]) then TrimStart(s[1..]) else s
  }

  function TrimEnd(s: string): string
    decreases |s|
  {
    if |s| > 0 && IsSpace(s[|s| - 1]) then TrimEnd(s[..|s| - 1]) else s
  }

  /** `s.trim()` */
  function Trim(s: string): string {
    TrimEnd(TrimStart(s))
  }

  /** True when `s.trim()` is the empty string, i.e. `s` is falsy once trimmed. */
  predicate IsBlank(s: string) {
    Trim(s) == ""
  }

  predicate StartsWith(s: string, prefix: string) {
    |prefix| <= |s| && s[..|prefix|] == prefix
  }

  predicate EndsWith(s: string, suffix: string) {
    |suffix| <= |s| && s[|s| - |suffix|..] == suffix
  }

  /** `s.includes(sub)` */
  predicate Contains(s: string, sub: string)
    decreases |s|
  {
    StartsWith(s, sub) || (|s| > 0 && Contains(s[1..], sub))
  }

  /** `s.indexOf(c)`: the first position of `c`, or -1. */
  function IndexOf(s: string, c: char): (i: int)
    ensures -1 <= i < |s|
    ensures i == -1 <==> c !in s
    ensures 0 <= i ==> s[i] == c && c !in s[..i]
    decreases |s|
  {
    if |s| == 0 then -1
    else if s[0] == c then 0
    else
      var j := IndexOf(s[1..], c);
      assert s[1..][..if j < 0 then 0 else j] == s[1..1 + (if j < 0 then 0 else j)];
      if j < 0 then -1 else 1 + j
  }

  /** `xs.join(sep)` */
  function Join(xs: seq<string>, sep: string): string
    decreases |xs|
  {
    if |xs| == 0 then ""
    else if |xs| == 1 then xs[0]
    else xs[0] + sep + Join(xs[1..], sep)
  }

  function DigitChar(d: nat): char
    requires d < 10
  {
    "0123456789"[d]
  }

  function NatToString(n: nat): string
    decreases n
  {
    if n < 10 then [DigitChar(n)] else NatToString(n / 10) + [DigitChar(n % 10)]
  }

  /** The decimal text of an integer, as a template literal renders a number. */
  function IntToString(n: int): string {
    if n < 0 then "-" + NatToString(-n) else NatToString(n)
  }

  predicate IsDigits(s: string) {
    forall i :: 0 <= i < |s| ==> '0' <= s[i] <= '9'
  }

  /** The number a string of decimal digits denotes, most significant first. */
  function DecimalValue(s: string): nat
    requires IsDigits(s)
    decreases |s|
  {
    if s == [] then 0
    else 10 * DecimalValue(s[..|s| - 1]) + (s[|s| - 1] as int - '0' as int)
  }

  /** `d` is the canonical digit string of `m`: digits without a leading
      zero (unless `m` is zero) whose value is `m`. */
  predicate CanonicalDigits(d: string, m: nat) {
    |d| > 0 && IsDigits(d) && DecimalValue(d) == m && (d[0] == '0' ==> |d| == 1)
  }

  /** `s` is the decimal text of `n`: a minus sign for a negative number, then
      the canonical digits of its magnitude. */
  predicate Denotes(s: string, n: int) {
    if n < 0 then |s| > 1 && s[0] == '-' && CanonicalDigits(s[1..], -n)
    else CanonicalDigits(s, n)
  }

  /** The digits of a natural number read back as that number. */
  lemma {:induction false} NatToStringReadsBack(n: nat)
    ensures CanonicalDigits(NatToString(n), n)
    decreases n
  {
    if n >= 10 {
      NatToStringReadsBack(n / 10);
      var s := NatToString(n);
      assert s[..|s| - 1] == NatToString(n / 10);
      assert s[0] == NatToString(n / 10)[0];
    }
  }

  /** A rendered integer is the canonical decimal text of that integer. */
  lemma IntToStringDenotes(n: int)
    ensures Denotes(IntToString(n), n)
  {
    if n < 0 {
      NatToStringReadsBack(-n);
      assert IntToString(n)[1..] == NatToString(-n);
    } else {
      NatToStringReadsBack(n);
    }
  }

  /** `s.slice(0, n)`, on a string or an array. */
  function Take<T>(s: seq<T>, n: nat): (r: seq<T>)
    ensures |r| == if |s| < n then |s| else n
    ensures r == s[..|r|]
  {
    if |s| <= n then s else s[..n]
  }

  lemma AppendAssoc<T>(a: seq<T>, b: seq<T>, c: seq<T>)
    ensures a + b + c == a + (b + c)
  {
  }

  /** The concatenation of a sequence of strings, as a template literal
      renders its parts one after another. */
  function Concat(parts: seq<string>): string
    decreases |parts|
  {
    if parts == [] then "" else parts[0] + Concat(parts[1..])
  }

  lemma {:induction false} ConcatAppend(parts: seq<string>, last: string)
    ensures Concat(parts + [last]) == Concat(parts) + last
    decreases |parts|
  {
    if parts == [] {
      assert parts + [last] == [last];
      assert Concat([last]) == last + Concat([last][1..]);
    } else {
      assert (parts + [last])[0] == parts[0];
      assert (parts + [last])[1..] == parts[1..] + [last];
      ConcatAppend(parts[1..], last);
      AppendAssoc(parts[0], Concat(parts[1..]), last);
    }
  }

  lemma {:induction false} ConcatSplit(parts: seq<string>, i: nat)
    requires i < |parts|
    ensures Concat(parts) == Concat(parts[..i]) + parts[i] + Concat(parts[i + 1..])
    decreases i
  {
    if i == 0 {
      assert parts[..0] == [];
    } else {
      ConcatSplit(parts[1..], i - 1);
      assert parts[1..][..i - 1] == parts[1..i];
      assert parts[1..][i - 1] == parts[i];
      assert parts[1..][i..] == parts[i + 1..];
      assert parts[..i][0] == parts[0] && parts[..i][1..] == parts[1..i];
      AppendAssoc(parts[0], Concat(parts[1..i]) + parts[i], Concat(parts[i + 1..]));
      AppendAssoc(parts[0], Concat(parts[1..i]), parts[i]);
    }
  }

  /** `sub` occurs in `s` starting at position `j`. */
  predicate OccursAt(s: string, sub: string, j: int) {
    0 <= j && j + |sub| <= |s| && s[j..j + |sub|] == sub
  }

  lemma {:induction false} OccursAtContains(s: string, sub: string, j: int)
    requires OccursAt(s, sub, j)
    ensures Contains(s, sub)
    decreases j
  {
    if j > 0 {
      assert s[1..][j - 1..j - 1 + |sub|] == s[j..j + |sub|];
      OccursAtContains(s[1..], sub, j - 1);
    }
  }

  lemma {:induction false} ContainsAppendLeft(a: string, b: string, sub: string)
    requires Contains(b, sub)
    ensures Contains(a + b, sub)
    decreases |a|
  {
    if a == [] {
      assert a + b == b;
    } else {
      assert (a + b)[1..] == a[1..] + b;
      ContainsAppendLeft(a[1..], b, sub);
      assert Contains((a + b)[1..], sub);
    }
  }

  lemma {:induction false} ContainsInPrefix(a: string, b: string, sub: string)
    requires Contains(a, sub)
    ensures Contains(a + b, sub)
    decreases |a|
  {
    if StartsWith(a, sub) {
      assert (a + b)[..|sub|] == a[..|sub|];
    } else {
      assert (a + b)[1..] == a[1..] + b;
      ContainsInPrefix(a[1..], b, sub);
    }
  }

  lemma ContainsPrefixOf(s: string, t: string)
    ensures Contains(s + t, s)
  {
    assert (s + t)[..|s|] == s;
  }

  /** Every part of a concatenation occurs in it. */
  lemma ConcatContains(parts: seq<string>, i: nat)
    requires i < |parts|
    ensures Contains(Concat(parts), parts[i])
  {
    ConcatSplit(parts, i);
    ContainsPrefixOf(parts[i], Concat(parts[i + 1..]));
    AppendAssoc(Concat(parts[..i]), parts[i], Concat(parts[i + 1..]));
    ContainsAppendLeft(Concat(parts[..i]), parts[i] + Concat(parts[i + 1..]), parts[i]);
  }

  /** With a non-empty separator, `join` is empty only for `[]` and `['']`. */
  lemma JoinEmpty(xs: seq<string>, sep: string)
    requires sep != ""
    ensures Join(xs, sep) == "" <==> xs == [] || xs == [""]
  {
    if |xs| >= 2 {
      assert |Join(xs, sep)| >= |sep|;
    }
  }

  /** Every element is found in the joined text. */
  lemma {:induction false} JoinContains(xs: seq<string>, sep: string, i: nat)
    requires i < |xs|
    ensures Contains(Join(xs, sep), xs[i])
    decreases i
  {
    if |xs| == 1 {
      ContainsPrefixOf(xs[0], "");
      assert xs[0] + "" == xs[0];
    } else if i == 0 {
      AppendAssoc(xs[0], sep, Join(xs[1..], sep));
      ContainsPrefixOf(xs[0], sep + Join(xs[1..], sep));
    } else {
      JoinContains(xs[1..], sep, i - 1);
      ContainsAppendLeft(xs[0] + sep, Join(xs[1..], sep), xs[i]);
    }
  }

  /** The first position at or after `from` where `sub` occurs, or -1. */
  function FindFrom(s: string, sub: string, from: nat): (k: int)
    ensures k == -1 || (from <= k && OccursAt(s, sub, k))
    ensures forall j :: from <= j && (k == -1 || j < k) ==> !OccursAt(s, sub, j)
    decreases |s| - from
  {
    if from + |sub| > |s| then -1
    else if s[from..from + |sub|] == sub then from
    else FindFrom(s, sub, from + 1)
  }

  /** `FindFrom` finds exactly the first occurrence. */
  lemma FindFromFirst(s: string, sub: string, from: nat, k: int)
    requires from <= k && OccursAt(s, sub, k)
    requires forall j :: from <= j < k ==> !OccursAt(s, sub, j)
    ensures FindFrom(s, sub, from) == k
  {
  }

  lemma FindFromNone(s: string, sub: string, from: nat)
    requires !Contains(s, sub)
    ensures FindFrom(s, sub, from) == -1
  {
    var k := FindFrom(s, sub, from);
    if k != -1 {
      OccursAtContains(s, sub, k);
    }
  }

  // ---- facts about trimming used by the line parser ----

  /** Appending a whitespace character never changes the trimmed text. */
  lemma {:induction false} TrimIgnoresTrailingSpace(s: string, c: char)
    requires IsSpace(c)
    ensures Trim(s + [c]) == Trim(s)
  {
    TrimStartAppendSpace(s, c);
    var t := TrimStart(s);
    if t == "" {
      assert TrimStart(s + [c]) == "";
    } else {
      assert TrimStart(s + [c]) == t + [c];
      assert (t + [c])[..|t + [c]| - 1] == t;
    }
  }

  lemma {:induction false} TrimStartAppendSpace(s: string, c: char)
    requires IsSpace(c)
    ensures TrimStart(s + [c]) == if TrimStart(s) == "" then "" else TrimStart(s) + [c]
    decreases |s|
  {
    if |s| == 0 {
      assert TrimStart([c]) == TrimStart([c][1..]);
    } else if IsSpace(s[0]) {
      assert (s + [c])[1..] == s[1..] + [c];
      TrimStartAppendSpace(s[1..], c);
    } else {
      assert (s + [c])[0] == s[0];
    }
  }
}
