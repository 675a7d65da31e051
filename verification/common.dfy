/**
 * Shared vocabulary of the admin back-office model: optional values, the
 * JavaScript string operations the handlers rely on (split, trim, lower-case,
 * prefix and substring tests), decimal rendering of integers, and the
 * JavaScript arithmetic (Math.floor, Math.ceil, Math.round, `%`) written out
 * over unbounded integers.
 */
module Common {

  datatype Option<T> = None | Some(value: T)

  /** An HTTP answer: a JSON body with status 200, or an error status and message. */
  datatype Response<T> = Ok(body: T) | Err(status: int, error: string)

  /** Milliseconds in a minute and in a day, as the handlers spell them out. */
  const MinuteMs: int := 60 * 1000
  const HourMs: int := 60 * MinuteMs
  const DayMs: int := 24 * HourMs

  // ---------------------------------------------------------------------
  // JavaScript truthiness of optional values
  // ---------------------------------------------------------------------

  /** `x` is truthy when it is present and not the empty string. */
  predicate Truthy(s: Option<string>) {
    s.Some? && s.value != ""
  }

  /** `s || fallback` for a string field. */
  function Or(s: Option<string>, fallback: string): string {
    if Truthy(s) then s.value else fallback
  }

  /** `b || false` for a boolean field. */
  function OrFalse(b: Option<bool>): bool {
    b.Some? && b.value
  }

  /** `n || fallback` for a numeric field: 0 is falsy, so it falls through too. */
  function OrNum(n: Option<int>, fallback: int): int {
    if n.Some? && n.value != 0 then n.value else fallback
  }

  /** `d || fallback` for a date field: any present Date object is truthy. */
  function OrDate(d: Option<int>, fallback: Option<int>): Option<int> {
    if d.Some? then d else fallback
  }

  // ---------------------------------------------------------------------
  // Sequences
  // ---------------------------------------------------------------------

  /** Concatenation of a sequence of sequences. */
  function Flatten<T>(ss: seq<seq<T>>): seq<T> {
    if ss == [] then [] else ss[0] + Flatten(ss[1..])
  }

  lemma {:induction false} FlattenAppend<T>(ss: seq<seq<T>>, s: seq<T>)
    ensures Flatten(ss + [s]) == Flatten(ss) + s
  {
    if ss == [] {
      assert ss + [s] == [s];
    } else {
      assert (ss + [s])[1..] == ss[1..] + [s];
      FlattenAppend(ss[1..], s);
    }
  }

  /** `Array.prototype.slice(from, to)` with both bounds clamped to the length. */
  function Slice<T>(s: seq<T>, from: nat, to: nat): (r: seq<T>)
    ensures |r| <= |s|
  {
    var hi := if to <= |s| then to else |s|;
    if from >= hi then [] else s[from..hi]
  }

  /** The documents `has` admits, in their order. */
  function Keep<T(!new)>(docs: seq<T>, has: T -> bool): (r: seq<T>)
    ensures |r| <= |docs|
    ensures forall x :: x in r <==> x in docs && has(x)
  {
    if docs == [] then []
    else (if has(docs[0]) then [docs[0]] else []) + Keep(docs[1..], has)
  }

  /** Filtering works element by element, so it distributes over concatenation. */
  lemma {:induction false} KeepAppend<T(!new)>(a: seq<T>, b: seq<T>, has: T -> bool)
    ensures Keep(a + b, has) == Keep(a, has) + Keep(b, has)
  {
    if a == [] {
      assert a + b == b;
    } else {
      assert (a + b)[0] == a[0] && (a + b)[1..] == a[1..] + b;
      KeepAppend(a[1..], b, has);
    }
  }

  /** A filter every element passes keeps the sequence as it is. */
  lemma {:induction false} KeepAll<T(!new)>(docs: seq<T>, has: T -> bool)
    requires forall i :: 0 <= i < |docs| ==> has(docs[i])
    ensures Keep(docs, has) == docs
  {
    if docs != [] {
      KeepAll(docs[1..], has);
    }
  }

  /** Two filters that agree on every element keep the same elements. */
  lemma {:induction false} KeepAgree<T(!new)>(docs: seq<T>, p: T -> bool, q: T -> bool)
    requires forall i :: 0 <= i < |docs| ==> p(docs[i]) == q(docs[i])
    ensures Keep(docs, p) == Keep(docs, q)
  {
    if docs != [] {
      KeepAgree(docs[1..], p, q);
    }
  }

  /**
   * The elements in the order of their first appearance: the keys of an
   * object filled from `s`, as `Object.entries` lists them.
   */
  function Distinct<T(==)>(s: seq<T>): (r: seq<T>)
    ensures |r| <= |s|
  {
    if s == [] then []
    else
      var init, x := s[..|s| - 1], s[|s| - 1];
      if x in init then Distinct(init) else Distinct(init) + [x]
  }

  /** One more element is listed at the end unless it already appeared. */
  lemma DistinctSnoc<T>(s: seq<T>, x: T)
    ensures Distinct(s + [x]) == if x in s then Distinct(s) else Distinct(s) + [x]
  {
    assert (s + [x])[..|s|] == s;
  }

  /** Exactly the elements of the input are listed. */
  lemma {:induction false} DistinctMembers<T>(s: seq<T>)
    ensures forall x :: x in Distinct(s) <==> x in s
  {
    if s != [] {
      var init := s[..|s| - 1];
      DistinctMembers(init);
      assert s == init + [s[|s| - 1]];
    }
  }

  /** One entry per distinct element. */
  lemma {:induction false} DistinctCount<T>(s: seq<T>)
    ensures |Distinct(s)| == |set x | x in s|
  {
    if s != [] {
      var init, x := s[..|s| - 1], s[|s| - 1];
      DistinctCount(init);
      DistinctSnoc(init, x);
      assert s == init + [x];
      assert (set y | y in s) == (set y | y in init) + {x};
    }
  }

  /** No element is listed twice. */
  lemma {:induction false} DistinctNoRepeats<T>(s: seq<T>)
    ensures var r := Distinct(s); forall i, j :: 0 <= i < j < |r| ==> r[i] != r[j]
  {
    if s != [] {
      var init, x := s[..|s| - 1], s[|s| - 1];
      DistinctNoRepeats(init);
      DistinctMembers(init);
      DistinctSnoc(init, x);
      assert s == init + [x];
    }
  }

  /** A sequence without repeats is its own list of distinct elements. */
  lemma {:induction false} DistinctKeeps<T>(s: seq<T>)
    requires forall i, j :: 0 <= i < j < |s| ==> s[i] != s[j]
    ensures Distinct(s) == s
  {
    if s != [] {
      var init := s[..|s| - 1];
      DistinctKeeps(init);
      assert s[|s| - 1] !in init;
      assert init + [s[|s| - 1]] == s;
    }
  }

  /** How many elements satisfy `p`: a `count()` query with a `where` filter. */
  function CountIf<T>(s: seq<T>, p: T -> bool): (n: nat)
    ensures n <= |s|
  {
    if s == [] then 0 else CountIf(s[..|s| - 1], p) + (if p(s[|s| - 1]) then 1 else 0)
  }

  /** A filter that admits more elements counts at least as many. */
  lemma {:induction false} CountIfMonotone<T>(s: seq<T>, p: T -> bool, q: T -> bool)
    requires forall i :: 0 <= i < |s| && p(s[i]) ==> q(s[i])
    ensures CountIf(s, p) <= CountIf(s, q)
  {
    if s != [] {
      CountIfMonotone(s[..|s| - 1], p, q);
    }
  }

  /** The count is zero exactly when no element satisfies `p`. */
  lemma {:induction false} CountIfZero<T>(s: seq<T>, p: T -> bool)
    ensures CountIf(s, p) == 0 <==> forall i :: 0 <= i < |s| ==> !p(s[i])
  {
    if s != [] {
      var init := s[..|s| - 1];
      CountIfZero(init, p);
      assert forall i :: 0 <= i < |init| ==> init[i] == s[i];
    }
  }

  // ---------------------------------------------------------------------
  // Strings
  // ---------------------------------------------------------------------

  predicate IsPrefix(p: string, s: string) {
    |p| <= |s| && s[..|p|] == p
  }

  /** `pat` occurs in `s` starting at index `k`. */
  predicate OccursAt(s: string, pat: string, k: nat) {
    k + |pat| <= |s| && s[k..k + |pat|] == pat
  }

  /** `String.prototype.includes` */
  predicate Contains(s: string, pat: string) {
    exists k: nat | k <= |s| :: OccursAt(s, pat, k)
  }

  /**
   * `String.prototype.split(sep)` for a non-empty separator: the string is
   * scanned left to right and cut at every non-overlapping occurrence.
   */
  function Split(s: string, sep: string): (r: seq<string>)
    requires sep != ""
    ensures |r| >= 1
    decreases |s|
  {
    if |s| < |sep| then [s]
    else if s[..|sep|] == sep then [""] + Split(s[|sep|..], sep)
    else
      var t := Split(s[1..], sep);
      [[s[0]] + t[0]] + t[1..]
  }

  /** `Array.prototype.join(sep)`. */
  function Join(pieces: seq<string>, sep: string): string {
    if pieces == [] then ""
    else if |pieces| == 1 then pieces[0]
    else pieces[0] + sep + Join(pieces[1..], sep)
  }

  lemma JoinConsHead(c: char, t: seq<string>, sep: string)
    requires |t| >= 1
    ensures Join([[c] + t[0]] + t[1..], sep) == [c] + Join(t, sep)
  {
    var p := [[c] + t[0]] + t[1..];
    if |t| > 1 {
      assert p[1..] == t[1..];
    }
  }

  /** Joining the pieces with the separator gives back the original string. */
  lemma {:induction false} JoinSplit(s: string, sep: string)
    requires sep != ""
    ensures Join(Split(s, sep), sep) == s
    decreases |s|
  {
    if |s| < |sep| {
    } else if s[..|sep|] == sep {
      var rest := s[|sep|..];
      JoinSplit(rest, sep);
      var p := [""] + Split(rest, sep);
      assert p[1..] == Split(rest, sep);
      assert s == sep + rest;
    } else {
      JoinSplit(s[1..], sep);
      JoinConsHead(s[0], Split(s[1..], sep), sep);
      assert s == [s[0]] + s[1..];
    }
  }

  /** A string without the separator is split into itself alone. */
  lemma {:induction false} SplitWithout(s: string, sep: string)
    requires sep != "" && !Contains(s, sep)
    ensures Split(s, sep) == [s]
    decreases |s|
  {
    if |s| >= |sep| {
      assert !OccursAt(s, sep, 0);
      forall k: nat | k <= |s[1..]| ensures !OccursAt(s[1..], sep, k) {
        if OccursAt(s[1..], sep, k) {
          assert s[1..][k..k + |sep|] == s[k + 1..k + 1 + |sep|];
          assert OccursAt(s, sep, k + 1);
        }
      }
      SplitWithout(s[1..], sep);
      assert s == [s[0]] + s[1..];
    }
  }

  /** No character of `s` equals `c`. */
  predicate Lacks(s: string, c: char) {
    forall i :: 0 <= i < |s| ==> s[i] != c
  }

  lemma LacksNotContains(s: string, sep: string)
    requires sep != "" && Lacks(s, sep[0])
    ensures !Contains(s, sep)
  {
    forall k: nat | k <= |s| ensures !OccursAt(s, sep, k) {
      if k < |s| {
        assert s[k] != sep[0];
      }
    }
  }

  /**
   * When the text before the first separator cannot start a separator, the
   * first piece of the split is exactly that text.
   */
  lemma {:induction false} SplitAfterFree(a: string, sep: string, b: string)
    requires sep != "" && Lacks(a, sep[0])
    ensures Split(a + sep + b, sep) == [a] + Split(b, sep)
    decreases |a|
  {
    var s := a + sep + b;
    if a == "" {
      assert s == sep + b;
      assert s[..|sep|] == sep;
      assert s[|sep|..] == b;
    } else {
      assert s[..|sep|][0] == a[0];
      SplitAfterFree(a[1..], sep, b);
      assert s[1..] == a[1..] + sep + b;
      var t := Split(s[1..], sep);
      assert [s[0]] + t[0] == a;
    }
  }

  /**
   * The characters `String.prototype.trim` removes: the ECMAScript
   * WhiteSpace set (tab, vertical tab, form feed, space, no-break space, the
   * byte order mark and every other Unicode space separator) and the
   * LineTerminator set (line feed, carriage return, line and paragraph
   * separators).
   */
  predicate IsSpace(c: char) {
    c == '\t' || c == '\n' || c == '\U{000B}' || c == '\U{000C}' || c == '\r' || c == ' '
    || c == '\U{00A0}' || c == '\U{1680}' || ('\U{2000}' <= c <= '\U{200A}')
    || c == '\U{2028}' || c == '\U{2029}' || c == '\U{202F}' || c == '\U{205F}'
    || c == '\U{3000}' || c == '\U{FEFF}'
  }

  /** `s.trimStart()`: the longest suffix of `s` that is left after removing leading blanks. */
  function TrimStart(s: string): (r: string)
    ensures |r| <= |s| && forall i :: 0 <= i < |r| ==> r[i] == s[|s| - |r| + i]
    ensures forall i :: 0 <= i < |s| - |r| ==> IsSpace(s[i])
    ensures r != "" ==> !IsSpace(r[0])
  {
    if s != "" && IsSpace(s[0]) then
      var r := TrimStart(s[1..]);
      assert forall i :: 0 <= i < |r| ==> r[i] == s[1..][|s| - 1 - |r| + i] == s[|s| - |r| + i];
      assert forall i :: 1 <= i < |s| - |r| ==> s[1..][i - 1] == s[i];
      r
    else s
  }

  /** `s.trimEnd()`: the longest prefix of `s` that is left after removing trailing blanks. */
  function TrimEnd(s: string): (r: string)
    ensures |r| <= |s| && r == s[..|r|]
    ensures forall i :: |r| <= i < |s| ==> IsSpace(s[i])
    ensures r != "" ==> !IsSpace(r[|r| - 1])
  {
    if s != "" && IsSpace(s[|s| - 1]) then TrimEnd(s[..|s| - 1]) else s
  }

  /** `String.prototype.trim` */
  function Trim(s: string): string {
    TrimEnd(TrimStart(s))
  }

  lemma TrimShape(s: string)
    ensures var r := Trim(s); r != "" ==> !IsSpace(r[0]) && !IsSpace(r[|r| - 1])
  {
  }

  /**
   * The capitals the model folds: A-Z, the Latin-1 capitals (U+00C0 to
   * U+00DE but the multiplication sign) and the capitals of the Latin
   * Extended-A block, which hold the Turkish Ğ, İ and Ş. In that block the
   * capital of a pair is the even code point, except in U+0139-U+0148 and
   * U+0179-U+017E where it is the odd one, and Ÿ (U+0178) pairs with ÿ.
   */
  predicate IsUpper(c: char) {
    ('A' <= c <= 'Z')
    || ('\U{00C0}' <= c <= '\U{00DE}' && c != '\U{00D7}')
    || ('\U{0100}' <= c <= '\U{0137}' && (c as int) % 2 == 0)
    || ('\U{0139}' <= c <= '\U{0148}' && (c as int) % 2 == 1)
    || ('\U{014A}' <= c <= '\U{0177}' && (c as int) % 2 == 0)
    || c == '\U{0178}'
    || ('\U{0179}' <= c <= '\U{017E}' && (c as int) % 2 == 1)
  }

  /**
   * The lower-case form of one character, as `toLowerCase` gives it: İ
   * (U+0130) becomes i followed by the combining dot above (U+0307), the
   * other capitals their single lower-case letter, anything else itself.
   */
  function LowerChar(c: char): (d: string)
    ensures 1 <= |d| <= 2
    ensures forall i :: 0 <= i < |d| ==> !IsUpper(d[i])
    ensures !IsUpper(c) ==> d == [c]
    ensures |d| == 2 <==> c == '\U{0130}'
  {
    if c == '\U{0130}' then ['i', '\U{0307}']
    else if ('A' <= c <= 'Z') || ('\U{00C0}' <= c <= '\U{00DE}' && c != '\U{00D7}') then [(c as int + 32) as char]
    else if c == '\U{0178}' then ['\U{00FF}']
    else if IsUpper(c) then [(c as int + 1) as char]
    else [c]
  }

  /** `String.prototype.toLowerCase` over the capitals `IsUpper` names. */
  function ToLower(s: string): (r: string)
    ensures |s| <= |r| <= 2 * |s|
    ensures forall i :: 0 <= i < |r| ==> !IsUpper(r[i])
    ensures (forall i :: 0 <= i < |s| ==> !IsUpper(s[i])) ==> r == s
  {
    if s == "" then ""
    else
      var head := LowerChar(s[0]);
      var tail := ToLower(s[1..]);
      assert forall i :: 0 <= i < |head + tail| ==> (head + tail)[i] == (if i < |head| then head[i] else tail[i - |head|]);
      head + tail
  }

  /** Lower-casing works character by character, so it distributes over concatenation. */
  lemma {:induction false} ToLowerAppend(a: string, b: string)
    ensures ToLower(a + b) == ToLower(a) + ToLower(b)
    decreases |a|
  {
    if a != "" {
      assert (a + b)[0] == a[0] && (a + b)[1..] == a[1..] + b;
      ToLowerAppend(a[1..], b);
    } else {
      assert a + b == b;
    }
  }

  lemma ToLowerIdempotent(s: string)
    ensures ToLower(ToLower(s)) == ToLower(s)
  {
  }

  lemma ToLowerCons(c: char, s: string)
    ensures ToLower([c] + s) == LowerChar(c) + ToLower(s)
  {
    assert ([c] + s)[1..] == s;
  }

  /** The capital dotted I folds, as in JavaScript, to i followed by a combining dot above. */
  lemma DottedCapitalIGrows()
    ensures ToLower("İ") == "i\U{0307}"
    ensures |ToLower("İ")| == 2
  {
    ToLowerCons('İ', "");
  }

  /** A Turkish name in capitals folds to its lower-case spelling. */
  lemma TurkishNameFolds()
    ensures ToLower("ÖZGE") == "özge"
  {
    assert ToLower("E") == "e" by {
      ToLowerCons('E', "");
    }
    assert ToLower("GE") == "ge" by {
      ToLowerCons('G', "E");
    }
    assert ToLower("ZGE") == "zge" by {
      ToLowerCons('Z', "GE");
    }
    ToLowerCons('Ö', "ZGE");
  }

  // ---------------------------------------------------------------------
  // Decimal rendering (`${n}` in a template literal)
  // ---------------------------------------------------------------------

  predicate IsDigit(c: char) {
    '0' <= c <= '9'
  }

  function DigitChar(d: nat): (c: char)
    requires d < 10
  {
    (d + '0' as int) as char
  }

  function DigitValue(c: char): nat
    requires IsDigit(c)
  {
    c as int - '0' as int
  }

  /** Decimal rendering of a natural number, without leading zeros. */
  function NatToString(n: nat): (r: string)
    ensures |r| >= 1
    ensures forall i :: 0 <= i < |r| ==> IsDigit(r[i])
    decreases n
  {
    if n < 10 then [DigitChar(n)] else NatToString(n / 10) + [DigitChar(n % 10)]
  }

  /** Decimal rendering of an integer, with a leading '-' when negative. */
  function IntToString(i: int): string {
    if i < 0 then "-" + NatToString(-i) else NatToString(i)
  }

  /** Value of a string of decimal digits. */
  function ParseDigits(s: string): nat
    requires forall i :: 0 <= i < |s| ==> IsDigit(s[i])
  {
    if s == "" then 0 else 10 * ParseDigits(s[..|s| - 1]) + DigitValue(s[|s| - 1])
  }

  lemma {:induction false} ParseNatToString(n: nat)
    ensures ParseDigits(NatToString(n)) == n
    decreases n
  {
    var r := NatToString(n);
    if n >= 10 {
      ParseNatToString(n / 10);
      assert r[..|r| - 1] == NatToString(n / 10);
    }
  }

  /** Rendering is injective: distinct numbers never print alike. */
  lemma NatToStringInjective(a: nat, b: nat)
    requires NatToString(a) == NatToString(b)
    ensures a == b
  {
    ParseNatToString(a);
    ParseNatToString(b);
  }

  lemma IntToStringInjective(a: int, b: int)
    requires IntToString(a) == IntToString(b)
    ensures a == b
  {
    assert NatToString(if a < 0 then -a else a)[0] != '-';
    assert NatToString(if b < 0 then -b else b)[0] != '-';
    assert (IntToString(a)[0] == '-') == (a < 0) == (b < 0);
    if a < 0 {
      assert NatToString(-a) == IntToString(a)[1..];
      NatToStringInjective(-a, -b);
    } else {
      NatToStringInjective(a, b);
    }
  }

  /** `String(n).padStart(2, '0')` for `n` below 100: always two digits. */
  function Pad2(n: nat): (r: string)
    requires n < 100
    ensures |r| == 2 && IsDigit(r[0]) && IsDigit(r[1])
  {
    [DigitChar(n / 10), DigitChar(n % 10)]
  }

  lemma Pad2Injective(a: nat, b: nat)
    requires a < 100 && b < 100 && Pad2(a) == Pad2(b)
    ensures a == b
  {
    assert DigitValue(Pad2(a)[0]) == a / 10 && DigitValue(Pad2(a)[1]) == a % 10;
  }

  // ---------------------------------------------------------------------
  // JavaScript arithmetic over integers
  // ---------------------------------------------------------------------

  /** `Math.floor(a / b)` for a positive divisor. */
  function FloorDiv(a: int, b: int): (q: int)
    requires b > 0
    ensures q * b <= a < q * b + b
  {
    a / b
  }

  /** Cancelling a positive factor from a strict inequality. */
  lemma FactorLess(a: int, b: int, c: int)
    requires c > 0 && a * c < b * c
    ensures a < b
  {
    assert (b - a) * c == b * c - a * c;
  }

  /** `Math.ceil(a / b)` for a positive divisor. */
  function CeilDiv(a: int, b: int): (q: int)
    requires b > 0
    ensures a <= q * b < a + b
  {
    -((-a) / b)
  }

  /** `a % b` in JavaScript: the remainder takes the sign of the dividend. */
  function JsRem(a: int, b: int): int
    requires b > 0
  {
    if a >= 0 then a % b else -((-a) % b)
  }

  /** `Math.round(n / d)`: the nearest integer, halves rounded up. */
  function RoundDiv(n: int, d: int): int
    requires d > 0
  {
    (2 * n + d) / (2 * d)
  }

  function Max(a: int, b: int): int {
    if a >= b then a else b
  }

  function Min(a: int, b: int): int {
    if a <= b then a else b
  }
}
