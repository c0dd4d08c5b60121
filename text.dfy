/** Values and string operations shared by the pages of the application.

    Strings are sequences of `char`, one per Unicode scalar value, where JavaScript
    strings are sequences of UTF-16 code units. The model restricts itself to
    ASCII for character classes: whitespace, case mapping and digits are the
    ASCII ones, the six characters that JavaScript's `trim` and `\s` treat as
    whitespace below code point 128, `A`-`Z` for upper case, and `0`-`9` for digits. */
module Text {

  /** A value that may be missing: JavaScript's `null`/`undefined` next to a value. */
  datatype Option<T> = None | Some(value: T)

  /** JavaScript truthiness of an optional string: present and not empty. */
  predicate Truthy(s: Option<string>)
  {
    s.Some? && s.value != ""
  }

  /** `a || b` for an optional string `a` and a string fallback `b`. */
  function OrElse(a: Option<string>, b: string): (r: string)
    ensures Truthy(a) ==> r == a.value
    ensures !Truthy(a) ==> r == b
  {
    if Truthy(a) then a.value else b
  }

  // ---------------------------------------------------------------------------
  // Characters

  /** Space, tab, line feed, vertical tab, form feed, carriage return. */
  predicate IsSpace(c: char)
  {
    c == ' ' || c == '\t' || c == '\n' || c == '\U{B}' || c == '\U{C}' || c == '\r'
  }

  predicate IsDigit(c: char)
  {
    '0' <= c <= '9'
  }

  predicate IsUpper(c: char)
  {
    'A' <= c <= 'Z'
  }

  predicate AllDigits(s: string)
  {
    forall i :: 0 <= i < |s| ==> IsDigit(s[i])
  }

  predicate NoSpace(s: string)
  {
    forall i :: 0 <= i < |s| ==> !IsSpace(s[i])
  }

  function DigitValue(c: char): (d: nat)
    requires IsDigit(c)
    ensures d < 10
  {
    (c - '0') as nat
  }

  function DigitChar(d: nat): (c: char)
    requires d < 10
    ensures IsDigit(c) && DigitValue(c) == d
  {
    ('0' as int + d) as char
  }

  /** `c.toLowerCase()` restricted to ASCII: `A`-`Z` become `a`-`z`. */
  function LowerChar(c: char): (r: char)
    ensures !IsUpper(r)
    ensures IsSpace(r) <==> IsSpace(c)
    ensures !IsUpper(c) ==> r == c
  {
    if IsUpper(c) then (c as int + 32) as char else c
  }

  // ---------------------------------------------------------------------------
  // Prefixes and occurrences

  predicate StartsWith(s: string, prefix: string)
  {
    |prefix| <= |s| && s[..|prefix|] == prefix
  }

  predicate EndsWith(s: string, suffix: string)
  {
    |suffix| <= |s| && s[|s| - |suffix|..] == suffix
  }

  /** `sub` occurs in `s` at position `i`. */
  predicate OccursAt(s: string, sub: string, i: nat)
  {
    i + |sub| <= |s| && s[i..i + |sub|] == sub
  }

  /** `s.includes(sub)`. */
  predicate Contains(s: string, sub: string)
  {
    exists i: nat :: i + |sub| <= |s| && OccursAt(s, sub, i)
  }

  /** `s.indexOf(sub)`: the first position at which `sub` occurs, if any. */
  function IndexOf(s: string, sub: string): (r: Option<nat>)
    ensures r.Some? ==> OccursAt(s, sub, r.value)
    ensures r.Some? ==> forall j: nat :: j < r.value ==> !OccursAt(s, sub, j)
    ensures r.None? ==> forall j: nat :: !OccursAt(s, sub, j)
  {
    IndexFrom(s, sub, 0)
  }

  /** The search of `indexOf`, from position `k` on. */
  function IndexFrom(s: string, sub: string, k: nat): (r: Option<nat>)
    ensures r.Some? ==> k <= r.value && OccursAt(s, sub, r.value)
    ensures r.Some? ==> forall j: nat :: k <= j < r.value ==> !OccursAt(s, sub, j)
    ensures r.None? ==> forall j: nat :: k <= j ==> !OccursAt(s, sub, j)
    decreases |s| - k
  {
    if k + |sub| > |s| then None
    else if OccursAt(s, sub, k) then Some(k)
    else IndexFrom(s, sub, k + 1)
  }

  lemma IndexOfContains(s: string, sub: string)
    ensures IndexOf(s, sub).Some? <==> Contains(s, sub)
  {
    if IndexOf(s, sub).Some? {
      var i := IndexOf(s, sub).value;
      assert i + |sub| <= |s| && OccursAt(s, sub, i);
    }
  }

  // ---------------------------------------------------------------------------
  // Splitting and joining at a fixed separator

  /** `s.split(sep)` for a non-empty separator string: the pieces between the
      occurrences of `sep` found scanning left to right. */
  function Split(s: string, sep: string): (pieces: seq<string>)
    requires sep != ""
    ensures |pieces| >= 1
    decreases |s|
  {
    match IndexOf(s, sep)
    case None => [s]
    case Some(i) => [s[..i]] + Split(s[i + |sep|..], sep)
  }

  /** `xs.join(sep)`. */
  function Join(xs: seq<string>, sep: string): string
  {
    if |xs| == 0 then ""
    else if |xs| == 1 then xs[0]
    else xs[0] + sep + Join(xs[1..], sep)
  }

  /** Joining the pieces of a split with the same separator gives the string back. */
  lemma {:induction false} JoinSplit(s: string, sep: string)
    requires sep != ""
    ensures Join(Split(s, sep), sep) == s
    decreases |s|
  {
    match IndexOf(s, sep)
    case None =>
    case Some(i) =>
      var rest := s[i + |sep|..];
      var pieces := Split(rest, sep);
      JoinSplit(rest, sep);
      assert Split(s, sep) == [s[..i]] + pieces;
      assert ([s[..i]] + pieces)[1..] == pieces;
      calc {
        Join(Split(s, sep), sep);
        s[..i] + sep + Join(pieces, sep);
        s[..i] + sep + rest;
        { assert s[i..i + |sep|] == sep; }
        s;
      }
  }

  /** The first occurrence is the one no earlier position matches. */
  lemma IndexOfIs(s: string, sub: string, i: nat)
    requires OccursAt(s, sub, i) && forall j: nat :: j < i ==> !OccursAt(s, sub, j)
    ensures IndexOf(s, sub) == Some(i)
  {
  }

  /** A joined list starts with its first element and ends with its last. */
  lemma JoinEnds(xs: seq<string>, sep: string)
    requires |xs| >= 1
    ensures StartsWith(Join(xs, sep), xs[0])
    ensures EndsWith(Join(xs, sep), xs[|xs| - 1])
  {
    if |xs| > 1 {
      StartsWithConcat(xs[0], sep + Join(xs[1..], sep));
      JoinLast(xs, sep);
    }
  }

  lemma {:induction false} JoinLast(xs: seq<string>, sep: string)
    requires |xs| >= 1
    ensures EndsWith(Join(xs, sep), xs[|xs| - 1])
  {
    if |xs| > 1 {
      var tail := xs[1..];
      JoinLast(tail, sep);
      assert tail[|tail| - 1] == xs[|xs| - 1];
      EndsWithConcat(xs[0] + sep, Join(tail, sep), xs[|xs| - 1]);
    }
  }

  lemma StartsWithConcat(a: string, b: string)
    ensures StartsWith(a + b, a)
  {
    assert (a + b)[..|a|] == a;
  }

  lemma EndsWithConcat(a: string, b: string, suffix: string)
    requires EndsWith(b, suffix)
    ensures EndsWith(a + b, suffix)
  {
    assert (a + b)[|a + b| - |suffix|..] == b[|b| - |suffix|..];
  }

  /** Splitting at a one-character separator undoes joining elements free of it:
      the inverse of `JoinSplit`. */
  lemma {:induction false} SplitJoin(xs: seq<string>, sep: string)
    requires |sep| == 1 && |xs| >= 1
    requires forall k :: 0 <= k < |xs| ==> !Contains(xs[k], sep)
    ensures Split(Join(xs, sep), sep) == xs
  {
    var x := xs[0];
    if |xs| == 1 {
      IndexOfContains(x, sep);
    } else {
      var rest := Join(xs[1..], sep);
      var j := x + sep + rest;
      assert Join(xs, sep) == j;
      FirstOccurrenceAfter(x, sep, rest);
      SplitAt(j, sep, |x|);
      assert j[..|x|] == x;
      assert j[|x| + 1..] == rest;
      SplitJoin(xs[1..], sep);
      assert xs == [x] + xs[1..];
    }
  }

  /** Splitting at the first occurrence: the text before it, then the pieces after. */
  lemma SplitAt(s: string, sep: string, i: nat)
    requires sep != "" && IndexOf(s, sep) == Some(i)
    ensures i + |sep| <= |s|
    ensures Split(s, sep) == [s[..i]] + Split(s[i + |sep|..], sep)
  {
    assert OccursAt(s, sep, i);
  }

  /** A one-character separator placed after text free of it occurs there first. */
  lemma FirstOccurrenceAfter(x: string, sep: string, rest: string)
    requires |sep| == 1 && !Contains(x, sep)
    ensures IndexOf(x + sep + rest, sep) == Some(|x|)
  {
    var j := x + sep + rest;
    assert j[|x|..|x| + 1] == sep;
    forall i: nat | i < |x| ensures !OccursAt(j, sep, i) {
      assert x[i..i + 1] == j[i..i + 1];
      assert !OccursAt(x, sep, i);
    }
    IndexOfIs(j, sep, |x|);
  }

  /** No piece of a split contains the separator. */
  lemma {:induction false} SplitPiecesFree(s: string, sep: string)
    requires sep != ""
    ensures forall k :: 0 <= k < |Split(s, sep)| ==> !Contains(Split(s, sep)[k], sep)
    decreases |s|
  {
    match IndexOf(s, sep)
    case None =>
      IndexOfContains(s, sep);
    case Some(i) =>
      var rest := s[i + |sep|..];
      SplitPiecesFree(rest, sep);
      BeforeFirstFree(s, sep, i);
      assert Split(s, sep) == [s[..i]] + Split(rest, sep);
  }

  /** The text before the first occurrence holds no occurrence. */
  lemma BeforeFirstFree(s: string, sep: string, i: nat)
    requires sep != "" && IndexOf(s, sep) == Some(i)
    ensures !Contains(s[..i], sep)
  {
    var head := s[..i];
    assert forall j: nat :: j < i ==> !OccursAt(s, sep, j);
    forall j: nat | j + |sep| <= |head| ensures !OccursAt(head, sep, j) {
      assert j < i;
      assert !OccursAt(s, sep, j);
      PrefixSlice(s, i, j, j + |sep|);
    }
  }

  /** A slice of a prefix is the same slice of the whole. */
  lemma PrefixSlice(s: string, n: nat, a: nat, b: nat)
    requires a <= b <= n <= |s|
    ensures s[..n][a..b] == s[a..b]
  {
  }

  // ---------------------------------------------------------------------------
  // Trimming

  function TrimStart(s: string): (r: string)
    ensures |r| <= |s|
    ensures r != "" ==> !IsSpace(r[0])
  {
    if s != "" && IsSpace(s[0]) then TrimStart(s[1..]) else s
  }

  function TrimEnd(s: string): (r: string)
    ensures |r| <= |s|
    ensures r != "" ==> !IsSpace(r[|r| - 1])
  {
    if s != "" && IsSpace(s[|s| - 1]) then TrimEnd(s[..|s| - 1]) else s
  }

  /** `TrimStart` keeps a suffix of its input and drops only whitespace. */
  lemma {:induction false} TrimStartSuffix(s: string)
    ensures TrimStart(s) == s[|s| - |TrimStart(s)|..]
    ensures forall i :: 0 <= i < |s| - |TrimStart(s)| ==> IsSpace(s[i])
    decreases |s|
  {
    if s != "" && IsSpace(s[0]) {
      TrimStartSuffix(s[1..]);
      assert s[1..][|s| - 1 - |TrimStart(s)|..] == s[|s| - |TrimStart(s)|..];
    }
  }

  /** `TrimEnd` keeps a prefix of its input and drops only whitespace. */
  lemma {:induction false} TrimEndPrefix(s: string)
    ensures TrimEnd(s) == s[..|TrimEnd(s)|]
    ensures forall i :: |TrimEnd(s)| <= i < |s| ==> IsSpace(s[i])
    decreases |s|
  {
    if s != "" && IsSpace(s[|s| - 1]) {
      TrimEndPrefix(s[..|s| - 1]);
      assert s[..|s| - 1][..|TrimEnd(s)|] == s[..|TrimEnd(s)|];
    }
  }

  /** `s.trim()`. */
  function Trim(s: string): string
  {
    TrimEnd(TrimStart(s))
  }

  /** A trimmed string is empty exactly when every character was whitespace. */
  lemma TrimEmpty(s: string)
    ensures Trim(s) == "" <==> forall i :: 0 <= i < |s| ==> IsSpace(s[i])
  {
    var t := TrimStart(s);
    TrimStartSuffix(s);
    TrimEndPrefix(t);
    if Trim(s) == "" {
      assert t == "";
    }
  }

  /** Trimming a string that is `w1 + core + w2`, with `w1` and `w2` whitespace and
      `core` starting and ending in non-whitespace, gives `core`. */
  lemma TrimAround(w1: string, core: string, w2: string)
    requires forall i :: 0 <= i < |w1| ==> IsSpace(w1[i])
    requires forall i :: 0 <= i < |w2| ==> IsSpace(w2[i])
    requires core != "" && !IsSpace(core[0]) && !IsSpace(core[|core| - 1])
    ensures Trim(w1 + core + w2) == core
  {
    TrimStartDrops(w1, core + w2);
    assert w1 + core + w2 == w1 + (core + w2);
    TrimEndDrops(core, w2);
  }

  lemma {:induction false} TrimStartDrops(w: string, rest: string)
    requires forall i :: 0 <= i < |w| ==> IsSpace(w[i])
    requires rest != "" && !IsSpace(rest[0])
    ensures TrimStart(w + rest) == rest
    decreases |w|
  {
    if w != "" {
      var s := w + rest;
      assert s[0] == w[0];
      assert s[1..] == w[1..] + rest;
      TrimStartDrops(w[1..], rest);
      assert TrimStart(s) == TrimStart(s[1..]);
    } else {
      assert w + rest == rest;
    }
  }

  lemma {:induction false} TrimEndDrops(rest: string, w: string)
    requires forall i :: 0 <= i < |w| ==> IsSpace(w[i])
    requires rest != "" && !IsSpace(rest[|rest| - 1])
    ensures TrimEnd(rest + w) == rest
    decreases |w|
  {
    if w != "" {
      var s := rest + w;
      assert s[..|s| - 1] == rest + w[..|w| - 1];
      TrimEndDrops(rest, w[..|w| - 1]);
    } else {
      assert rest + w == rest;
    }
  }

  // ---------------------------------------------------------------------------
  // Character filters and maps

  /** `s.replace(/c/g, '')` for a single character `c`. */
  function RemoveAll(s: string, c: char): (r: string)
    ensures c !in r
    ensures |r| <= |s|
    ensures c !in s ==> r == s
  {
    if s == "" then ""
    else if s[0] == c then RemoveAll(s[1..], c)
    else [s[0]] + RemoveAll(s[1..], c)
  }

  /** Removing a character keeps the order of the rest: it distributes over
      concatenation, and every other character of `s` survives. */
  lemma {:induction false} RemoveAllAppend(a: string, b: string, c: char)
    ensures RemoveAll(a + b, c) == RemoveAll(a, c) + RemoveAll(b, c)
    decreases |a|
  {
    if a != "" {
      assert (a + b)[0] == a[0] && (a + b)[1..] == a[1..] + b;
      RemoveAllAppend(a[1..], b, c);
    } else {
      assert a + b == b;
    }
  }

  lemma {:induction false} RemoveAllKeeps(s: string, c: char)
    ensures forall d :: d != c ==> multiset(RemoveAll(s, c))[d] == multiset(s)[d]
  {
    if s != "" {
      RemoveAllKeeps(s[1..], c);
      assert s == [s[0]] + s[1..];
    }
  }

  /** `s.toLowerCase()` restricted to ASCII. */
  function ToLower(s: string): (r: string)
    ensures |r| == |s|
    ensures forall i :: 0 <= i < |r| ==> r[i] == LowerChar(s[i])
  {
    if s == "" then "" else [LowerChar(s[0])] + ToLower(s[1..])
  }

  // ---------------------------------------------------------------------------
  // Decimal numerals

  /** The value of a string of decimal digits, most significant first, as
      `parseInt(ds, 10)` computes it (an empty string has no value; 0 here). */
  function DigitsValue(ds: string): nat
    requires AllDigits(ds)
  {
    if ds == "" then 0
    else DigitsValue(ds[..|ds| - 1]) * 10 + DigitValue(ds[|ds| - 1])
  }

  /** The shortest decimal numeral of `n`. */
  function DecimalString(n: nat): (s: string)
    ensures s != "" && AllDigits(s)
  {
    if n < 10 then [DigitChar(n)] else DecimalString(n / 10) + [DigitChar(n % 10)]
  }

  /** Reading back a printed numeral gives the number. */
  lemma {:induction false} DecimalRoundTrip(n: nat)
    ensures DigitsValue(DecimalString(n)) == n
  {
    var s := DecimalString(n);
    if n >= 10 {
      DecimalRoundTrip(n / 10);
      assert s[..|s| - 1] == DecimalString(n / 10);
    }
  }

  /** The longest prefix of `s` made only of digits. */
  function LeadingDigits(s: string): (ds: string)
    ensures AllDigits(ds) && StartsWith(s, ds)
    ensures |ds| < |s| ==> !IsDigit(s[|ds|])
  {
    if s != "" && IsDigit(s[0]) then [s[0]] + LeadingDigits(s[1..]) else ""
  }

  /** The digits of a numeral followed by a non-digit (or nothing) are read back whole. */
  lemma {:induction false} LeadingDigitsOf(ds: string, rest: string)
    requires AllDigits(ds)
    requires rest == "" || !IsDigit(rest[0])
    ensures LeadingDigits(ds + rest) == ds
    decreases |ds|
  {
    if ds == "" {
      assert ds + rest == rest;
    } else {
      assert (ds + rest)[1..] == ds[1..] + rest;
      LeadingDigitsOf(ds[1..], rest);
    }
  }
}
