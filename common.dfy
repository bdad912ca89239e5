/** Small helpers shared by every module: an option type, the string operations the
    source performs (trim, Latin-1 case mapping, decimal rendering) and first-match search. */
module Common {

  datatype Option<T> = None | Some(value: T)

  function Max0(x: int): (r: int)
    ensures r >= 0 && r >= x && (r == x || r == 0)
  {
    if x > 0 then x else 0
  }

  /** The value of q units at a unit price, q × price, defined by recursion on q. */
  function Cost(q: int, price: real): real
    decreases if q < 0 then -q else q
  {
    if q == 0 then 0.0
    else if q > 0 then Cost(q - 1, price) + price
    else Cost(q + 1, price) - price
  }

  lemma {:induction false} CostIsProduct(q: int, price: real)
    ensures Cost(q, price) == q as real * price
    decreases if q < 0 then -q else q
  {
    if q > 0 {
      CostIsProduct(q - 1, price);
    } else if q < 0 {
      CostIsProduct(q + 1, price);
    }
  }

  /** Cost is additive in the quantity, in the price, and nests as a product. */
  lemma {:induction false} CostAdds(m: int, n: int, price: real)
    ensures Cost(m + n, price) == Cost(m, price) + Cost(n, price)
    decreases if n < 0 then -n else n
  {
    if n > 0 {
      CostAdds(m, n - 1, price);
      CostStep(m + n, price);
    } else if n < 0 {
      CostAdds(m, n + 1, price);
      CostStep(m + n + 1, price);
    }
  }

  /** Cost(k) and Cost(k - 1) differ by one price, on either side of zero. */
  lemma CostStep(k: int, price: real)
    ensures Cost(k, price) == Cost(k - 1, price) + price
  {
  }

  lemma {:induction false} CostSplits(n: int, a: real, b: real)
    ensures Cost(n, a + b) == Cost(n, a) + Cost(n, b)
    decreases if n < 0 then -n else n
  {
    if n > 0 { CostSplits(n - 1, a, b); } else if n < 0 { CostSplits(n + 1, a, b); }
  }

  lemma {:induction false} CostNested(q: int, n: int, price: real)
    ensures Cost(q * n, price) == Cost(n, Cost(q, price))
    decreases if n < 0 then -n else n
  {
    if n > 0 {
      CostNested(q, n - 1, price);
      assert q * n == q * (n - 1) + q;
      CostAdds(q * (n - 1), q, price);
    } else if n < 0 {
      CostNested(q, n + 1, price);
      assert q * (n + 1) == q * n + q;
      CostAdds(q * n, q, price);
    }
  }

  /** The characters String.prototype.trim removes, ECMAScript's WhiteSpace and
      LineTerminator: tab, line feed, vertical tab, form feed, carriage return, space,
      no-break space, the other space separators (U+1680, U+2000 to U+200A, U+202F, U+205F,
      U+3000), the line and paragraph separators (U+2028, U+2029) and the byte order mark
      (U+FEFF). */
  predicate IsWhitespace(c: char)
  {
    var n := c as int;
    (9 <= n <= 13) || n == 32 || n == 160 || n == 0x1680 || (0x2000 <= n <= 0x200A) ||
    n == 0x2028 || n == 0x2029 || n == 0x202F || n == 0x205F || n == 0x3000 || n == 0xFEFF
  }

  predicate IsBlank(s: string)
  {
    forall k :: 0 <= k < |s| ==> IsWhitespace(s[k])
  }

  /** The string without its leading whitespace. */
  function TrimStart(s: string): string
  {
    if |s| > 0 && IsWhitespace(s[0]) then TrimStart(s[1..]) else s
  }

  /** The string without its trailing whitespace. */
  function TrimEnd(s: string): string
  {
    if |s| > 0 && IsWhitespace(s[|s| - 1]) then TrimEnd(s[..|s| - 1]) else s
  }

  /** TrimStart drops a blank prefix and stops at the first non-blank character. */
  lemma {:induction false} TrimStartShape(s: string)
    ensures var r := TrimStart(s);
      |r| <= |s| && r == s[|s| - |r|..] && (r == [] || !IsWhitespace(r[0])) && IsBlank(s[..|s| - |r|])
  {
    if |s| > 0 && IsWhitespace(s[0]) {
      TrimStartShape(s[1..]);
      var r := TrimStart(s);
      forall k | 0 <= k < |s| - |r| ensures IsWhitespace(s[k]) {
        if k > 0 { assert s[k] == s[1..][k - 1]; }
      }
    }
  }

  /** TrimEnd drops a blank suffix and stops at the last non-blank character. */
  lemma {:induction false} TrimEndShape(s: string)
    ensures var r := TrimEnd(s);
      |r| <= |s| && r == s[..|r|] && (r == [] || !IsWhitespace(r[|r| - 1])) && IsBlank(s[|r|..])
  {
    if |s| > 0 && IsWhitespace(s[|s| - 1]) {
      TrimEndShape(s[..|s| - 1]);
      var r := TrimEnd(s);
      forall k | |r| <= k < |s| ensures IsWhitespace(s[k]) {
        if k < |s| - 1 { assert s[k] == s[..|s| - 1][k]; }
      }
    }
  }

  /** String.prototype.trim. */
  function Trim(s: string): string
  {
    TrimEnd(TrimStart(s))
  }

  /** A text that neither starts nor ends with whitespace is its own trim. */
  lemma TrimKeeps(s: string)
    requires s == [] || (!IsWhitespace(s[0]) && !IsWhitespace(s[|s| - 1]))
    ensures Trim(s) == s
  {
  }

  lemma {:induction false} TrimStartEmpty(s: string)
    ensures TrimStart(s) == [] <==> IsBlank(s)
  {
    if |s| > 0 && IsWhitespace(s[0]) {
      TrimStartEmpty(s[1..]);
      assert IsBlank(s) <==> IsBlank(s[1..]) by {
        if IsBlank(s[1..]) {
          forall k | 0 <= k < |s| ensures IsWhitespace(s[k]) {
            if k > 0 { assert s[k] == s[1..][k - 1]; }
          }
        }
        if IsBlank(s) {
          forall k | 0 <= k < |s| - 1 ensures IsWhitespace(s[1..][k]) {
            assert s[1..][k] == s[k + 1];
          }
        }
      }
    }
  }

  lemma {:induction false} TrimEndEmpty(s: string)
    ensures TrimEnd(s) == [] <==> IsBlank(s)
  {
    if |s| > 0 && IsWhitespace(s[|s| - 1]) {
      TrimEndEmpty(s[..|s| - 1]);
      assert IsBlank(s) <==> IsBlank(s[..|s| - 1]) by {
        if IsBlank(s[..|s| - 1]) {
          forall k | 0 <= k < |s| ensures IsWhitespace(s[k]) {
            if k < |s| - 1 { assert s[k] == s[..|s| - 1][k]; }
          }
        }
      }
    }
  }

  /** A string trims to the empty string exactly when it is blank. */
  lemma TrimEmptyIffBlank(s: string)
    ensures Trim(s) == [] <==> IsBlank(s)
  {
    var a := TrimStart(s);
    TrimStartShape(s);
    TrimStartEmpty(s);
    TrimEndEmpty(a);
    if a != [] {
      assert !IsWhitespace(a[0]);
    }
  }

  /** Every character of the trimmed string is one of the string's. */
  lemma TrimWithin(s: string)
    ensures forall k :: 0 <= k < |Trim(s)| ==> Trim(s)[k] in s
  {
    var a := TrimStart(s);
    TrimStartShape(s);
    TrimEndShape(a);
    forall k | 0 <= k < |Trim(s)| ensures Trim(s)[k] in s {
      assert Trim(s)[k] == a[k] == s[|s| - |a| + k];
    }
  }

  /** The lower case of a Latin-1 letter: A to Z and U+00C0 to U+00DE except the
      multiplication sign move up by 0x20. Every other character is kept. */
  function LowerChar(c: char): char
  {
    var n := c as int;
    if (65 <= n <= 90) || (0xC0 <= n <= 0xDE && n != 0xD7) then (n + 32) as char else c
  }

  /** The upper case of a Latin-1 letter other than the sharp s: a to z and U+00E0 to U+00FE
      except the division sign move down by 0x20, U+00FF goes to U+0178 and the micro sign
      to U+039C. Every other character is kept. */
  function UpperChar(c: char): char
  {
    var n := c as int;
    if (97 <= n <= 122) || (0xE0 <= n <= 0xFE && n != 0xF7) then (n - 32) as char
    else if n == 0xFF then 0x178 as char
    else if n == 0xB5 then 0x39C as char
    else c
  }

  /** What one character becomes under toUpperCase: the sharp s (U+00DF) becomes "SS". */
  function UpperOf(c: char): (r: string)
    ensures |r| >= 1
  {
    if c as int == 0xDF then "SS" else [UpperChar(c)]
  }

  /** String.prototype.toLowerCase on Latin-1 letters. */
  function ToLower(s: string): (r: string)
    ensures |r| == |s| && forall k :: 0 <= k < |s| ==> r[k] == LowerChar(s[k])
  {
    if s == [] then [] else [LowerChar(s[0])] + ToLower(s[1..])
  }

  /** String.prototype.toUpperCase on Latin-1 letters, the sharp s growing into two letters. */
  function ToUpper(s: string): (r: string)
    ensures |r| >= |s| && (r == [] <==> s == [])
  {
    if s == [] then [] else UpperOf(s[0]) + ToUpper(s[1..])
  }

  lemma {:induction false} UpperAppend(a: string, b: string)
    ensures ToUpper(a + b) == ToUpper(a) + ToUpper(b)
  {
    if a == [] {
      assert a + b == b;
    } else {
      assert (a + b)[0] == a[0] && (a + b)[1..] == a[1..] + b;
      UpperAppend(a[1..], b);
      assert ToUpper(a + b) == UpperOf(a[0]) + (ToUpper(a[1..]) + ToUpper(b));
    }
  }

  /** An upper-cased character is left as it is by a second toUpperCase. */
  lemma UpperOfStable(c: char)
    ensures ToUpper(UpperOf(c)) == UpperOf(c)
  {
    var u := UpperOf(c);
    if c as int == 0xDF {
      assert u == ['S'] + ['S'];
      UpperAppend(['S'], ['S']);
    } else {
      assert u == [UpperChar(c)];
      assert ToUpper(u) == UpperOf(UpperChar(c)) + ToUpper([]);
    }
  }

  /** toUpperCase is idempotent. */
  lemma {:induction false} UpperIdempotent(s: string)
    ensures ToUpper(ToUpper(s)) == ToUpper(s)
  {
    if s != [] {
      UpperIdempotent(s[1..]);
      UpperAppend(UpperOf(s[0]), ToUpper(s[1..]));
      UpperOfStable(s[0]);
    }
  }

  /** toUpperCase neither adds nor removes commas. */
  lemma {:induction false} UpperKeepsCommas(s: string)
    ensures ',' in ToUpper(s) <==> ',' in s
  {
    if s != [] {
      UpperKeepsCommas(s[1..]);
      assert s == [s[0]] + s[1..];
      assert ',' in s <==> s[0] == ',' || ',' in s[1..];
      assert ',' in UpperOf(s[0]) <==> s[0] == ',';
    }
  }

  /** Case-insensitive equality as the source writes it: a.toLowerCase() === b.toLowerCase(). */
  predicate SameIgnoringCase(a: string, b: string)
  {
    ToLower(a) == ToLower(b)
  }

  function DigitChar(d: nat): char
    requires d < 10
  {
    ('0' as int + d) as char
  }

  /** Number.prototype.toString for non-negative integers. */
  function NatToString(n: nat): (r: string)
    ensures |r| >= 1
    ensures forall k :: 0 <= k < |r| ==> '0' <= r[k] <= '9'
    ensures n >= 10 ==> r[0] != '0'
  {
    if n < 10 then [DigitChar(n)] else NatToString(n / 10) + [DigitChar(n % 10)]
  }

  /** The first position whose element satisfies p (Array.prototype.findIndex). */
  function FirstIndex<T>(s: seq<T>, p: T -> bool): (r: Option<nat>)
    ensures r.Some? ==> r.value < |s| && p(s[r.value]) && forall k :: 0 <= k < r.value ==> !p(s[k])
    ensures r.None? ==> forall k :: 0 <= k < |s| ==> !p(s[k])
  {
    if s == [] then None
    else if p(s[0]) then Some(0)
    else match FirstIndex(s[1..], p)
      case None => None
      case Some(k) => Some(k + 1)
  }

  /** The elements that satisfy p, in order (Array.prototype.filter). */
  function Filter<T>(s: seq<T>, p: T -> bool): (r: seq<T>)
    ensures |r| <= |s|
    ensures forall k :: 0 <= k < |r| ==> p(r[k]) && r[k] in s
    ensures forall k :: 0 <= k < |s| && p(s[k]) ==> s[k] in r
  {
    if s == [] then [] else (if p(s[0]) then [s[0]] else []) + Filter(s[1..], p)
  }

  /** filter keeps the order: filtering a concatenation filters each part in turn. */
  lemma {:induction false} FilterAppend<T>(a: seq<T>, b: seq<T>, p: T -> bool)
    ensures Filter(a + b, p) == Filter(a, p) + Filter(b, p)
  {
    if a == [] {
      assert a + b == b;
    } else {
      assert (a + b)[0] == a[0] && (a + b)[1..] == a[1..] + b;
      FilterAppend(a[1..], b, p);
    }
  }

  /** filter keeps the multiplicity: every value that passes occurs as often as in the input,
      and no other value occurs. */
  lemma {:induction false} FilterMultiset<T>(s: seq<T>, p: T -> bool)
    ensures forall x :: multiset(Filter(s, p))[x] == if p(x) then multiset(s)[x] else 0
  {
    if s != [] {
      FilterMultiset(s[1..], p);
      assert s == [s[0]] + s[1..];
      assert multiset(s) == multiset([s[0]]) + multiset(s[1..]);
    }
  }

  /** Removing s[k] from a sequence (Array.prototype.splice(k, 1)). */
  function RemoveAt<T>(s: seq<T>, k: nat): (r: seq<T>)
    requires k < |s|
    ensures |r| == |s| - 1
    ensures forall j :: 0 <= j < k ==> r[j] == s[j]
    ensures forall j :: k <= j < |r| ==> r[j] == s[j + 1]
  {
    s[..k] + s[k + 1..]
  }

  /** Removing position k takes exactly one occurrence of s[k] out. */
  lemma RemoveAtMultiset<T>(s: seq<T>, k: nat)
    requires k < |s|
    ensures multiset(RemoveAt(s, k)) == multiset(s) - multiset{s[k]}
  {
    assert s == s[..k] + [s[k]] + s[k + 1..];
  }

  /** An element at two positions occurs at least twice. */
  lemma TwiceInMultiset<T>(p: seq<T>, i: nat, j: nat)
    requires i < j < |p| && p[i] == p[j]
    ensures multiset(p)[p[i]] >= 2
  {
    assert p == p[..i] + [p[i]] + p[i + 1..j] + [p[j]] + p[j + 1..];
  }

  /** An element of a sequence without repeats occurs in it once. */
  lemma {:induction false} DistinctOnce<T>(d: seq<T>, a: T)
    requires forall i, j :: 0 <= i < j < |d| ==> d[i] != d[j]
    ensures multiset(d)[a] <= 1
  {
    if d != [] {
      assert d == [d[0]] + d[1..];
      DistinctOnce(d[1..], a);
      if d[0] == a {
        assert a !in d[1..];
      }
    }
  }

  /** A prefix of a prefix is a prefix. */
  lemma PrefixOfPrefix<T>(s: seq<T>, n: nat, k: nat)
    requires k <= n <= |s|
    ensures s[..n][..k] == s[..k]
  {
    assert forall i :: 0 <= i < k ==> s[..n][..k][i] == s[..k][i];
  }
}
