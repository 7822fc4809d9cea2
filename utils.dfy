// The small helpers of the storefront: the price label, the order-number
// generator and the class-name joiner.
//
// `Math.random` is not modelled: the generator receives the eight positions it
// would have drawn, each in [0, 36) as `Math.floor(Math.random() * 36)` is.

module Utils {
  import opened Seqs

  // ---------------------------------------------------------------------------
  // formatPrice: the whole number in Swedish digit grouping, then " kr"

  /** The group separator of the Swedish number format: a no-break space. */
  const GroupSeparator: char := '\U{00A0}'

  /** The character of the decimal digit `d`. */
  function DigitChar(d: nat): (c: char)
    requires d < 10
    ensures '0' <= c <= '9' && (c as int) - ('0' as int) == d
  {
    (('0' as int) + d) as char
  }

  predicate AllDigits(s: string)
  {
    forall i :: 0 <= i < |s| ==> '0' <= s[i] <= '9'
  }

  /** The decimal digits of `n`, without leading zeros. */
  function Digits(n: nat): (r: string)
    ensures |r| >= 1 && AllDigits(r)
  {
    if n < 10 then [DigitChar(n)] else Digits(n / 10) + [DigitChar(n % 10)]
  }

  /** `m` as exactly three digits, with leading zeros. */
  function ThreeDigits(m: nat): (r: string)
    requires m < 1000
    ensures |r| == 3 && AllDigits(r)
  {
    var q := m / 10;
    [DigitChar(q / 10), DigitChar(q % 10), DigitChar(m % 10)]
  }

  /** `n` with its digits in groups of three from the right, joined by `GroupSeparator`. */
  function Grouped(n: nat): (r: string)
    decreases n
  {
    if n < 1000 then Digits(n) else Grouped(n / 1000) + [GroupSeparator] + ThreeDigits(n % 1000)
  }

  /** `formatPrice`: `price.toLocaleString('sv-SE') + " kr"` for a whole, non-negative price. */
  function FormatPrice(price: nat): (r: string)
    ensures |r| >= 4 && r[|r| - 3..] == " kr"
  {
    Grouped(price) + " kr"
  }

  // Reading a price label back: drop " kr" and the separators, then read the digits.

  function Pow10(k: nat): (r: nat)
    ensures r >= 1
  {
    if k == 0 then 1 else 10 * Pow10(k - 1)
  }

  /** The value of a string of decimal digits (0 for the empty string). */
  function DecimalValue(s: string): nat
    requires AllDigits(s)
  {
    if s == [] then 0
    else DecimalValue(s[..|s| - 1]) * 10 + ((s[|s| - 1] as int) - ('0' as int))
  }

  /** `s` with every `GroupSeparator` removed. */
  function WithoutSeparators(s: string): (r: string)
    ensures |r| <= |s|
    ensures forall i :: 0 <= i < |r| ==> r[i] in s && r[i] != GroupSeparator
  {
    if s == [] then []
    else (if s[0] == GroupSeparator then [] else [s[0]]) + WithoutSeparators(s[1..])
  }

  /** The amount a price label shows, or -1 for a string that is not one. */
  function ParsePrice(s: string): int
  {
    if |s| < 3 || s[|s| - 3..] != " kr" then -1
    else
      var digits := WithoutSeparators(s[..|s| - 3]);
      if digits != [] && AllDigits(digits)
      then DecimalValue(digits) else -1
  }

  lemma {:induction false} WithoutSeparatorsConcat(a: string, b: string)
    ensures WithoutSeparators(a + b) == WithoutSeparators(a) + WithoutSeparators(b)
  {
    if a == [] {
      assert a + b == b;
    } else {
      assert (a + b)[1..] == a[1..] + b;
      WithoutSeparatorsConcat(a[1..], b);
    }
  }

  lemma {:induction false} WithoutSeparatorsDigits(s: string)
    requires AllDigits(s)
    ensures WithoutSeparators(s) == s
  {
    if s != [] {
      WithoutSeparatorsDigits(s[1..]);
    }
  }

  lemma AllDigitsConcat(a: string, b: string)
    requires AllDigits(a) && AllDigits(b)
    ensures AllDigits(a + b)
  {
    forall i | 0 <= i < |a + b|
      ensures '0' <= (a + b)[i] <= '9'
    {
      if i >= |a| {
        assert (a + b)[i] == b[i - |a|];
      }
    }
  }

  lemma ShiftDigit(x: int, p: int, y: int, d: int)
    ensures (x * p + y) * 10 + d == x * (p * 10) + (y * 10 + d)
  {
  }

  lemma {:induction false} DecimalValueConcat(a: string, b: string)
    requires AllDigits(a) && AllDigits(b)
    ensures AllDigits(a + b)
    ensures DecimalValue(a + b) == DecimalValue(a) * Pow10(|b|) + DecimalValue(b)
    decreases |b|
  {
    AllDigitsConcat(a, b);
    if b == [] {
      assert a + b == a;
    } else {
      var b' := b[..|b| - 1];
      assert (a + b)[..|a + b| - 1] == a + b';
      DecimalValueConcat(a, b');
      assert (a + b)[|a + b| - 1] == b[|b| - 1];
      ShiftDigit(DecimalValue(a), Pow10(|b'|), DecimalValue(b'), (b[|b| - 1] as int) - ('0' as int));
    }
  }

  lemma {:induction false} DigitsValue(n: nat)
    ensures DecimalValue(Digits(n)) == n
  {
    if n >= 10 {
      DigitsValue(n / 10);
      var d := Digits(n / 10) + [DigitChar(n % 10)];
      assert d[..|d| - 1] == Digits(n / 10);
    }
  }

  lemma ThreeDigitsValue(m: nat)
    requires m < 1000
    ensures DecimalValue(ThreeDigits(m)) == m
  {
    var t := ThreeDigits(m);
    var q := m / 10;
    assert t[..2][..1] == [t[0]];
    assert t[..2] == [t[0], t[1]];
    assert [t[0]][..0] == [];
    assert DecimalValue([t[0]]) == q / 10;
    assert DecimalValue(t[..2]) == q / 10 * 10 + q % 10 == q;
  }

  /** Dropping the separator in front of a group of three digits appends the group's value. */
  lemma GroupStep(head: string, tail: string)
    requires AllDigits(WithoutSeparators(head)) && |tail| == 3 && AllDigits(tail)
    ensures WithoutSeparators(head + [GroupSeparator] + tail) == WithoutSeparators(head) + tail
    ensures AllDigits(WithoutSeparators(head) + tail)
    ensures DecimalValue(WithoutSeparators(head) + tail) ==
            DecimalValue(WithoutSeparators(head)) * 1000 + DecimalValue(tail)
  {
    var h := WithoutSeparators(head);
    assert WithoutSeparators([GroupSeparator]) == [] by {
      assert [GroupSeparator][1..] == [];
    }
    WithoutSeparatorsConcat(head, [GroupSeparator]);
    assert h + [] == h;
    WithoutSeparatorsConcat(head + [GroupSeparator], tail);
    WithoutSeparatorsDigits(tail);
    DecimalValueConcat(h, tail);
    assert Pow10(3) == 1000;
  }

  /** Without the separators, the grouped form is the plain digits, and they read back as `n`. */
  lemma {:induction false} GroupedValue(n: nat)
    ensures |WithoutSeparators(Grouped(n))| >= 1 && AllDigits(WithoutSeparators(Grouped(n)))
    ensures DecimalValue(WithoutSeparators(Grouped(n))) == n
    decreases n
  {
    if n < 1000 {
      WithoutSeparatorsDigits(Digits(n));
      DigitsValue(n);
    } else {
      GroupedValue(n / 1000);
      ThreeDigitsValue(n % 1000);
      GroupStep(Grouped(n / 1000), ThreeDigits(n % 1000));
    }
  }

  /** A price label reads back as the price it shows. */
  lemma FormatPriceRoundTrip(price: nat)
    ensures ParsePrice(FormatPrice(price)) == price
  {
    var r := FormatPrice(price);
    assert r[..|r| - 3] == Grouped(price);
    GroupedValue(price);
  }

  /** Prices under a thousand are their plain digits; from a thousand on the digits are grouped. */
  lemma FormatPriceExamples()
    ensures FormatPrice(49) == "49 kr"
    ensures FormatPrice(1097) == "1\U{00A0}097 kr"
  {
  }

  // ---------------------------------------------------------------------------
  // generateOrderId

  /** The 36 characters an order number is drawn from. */
  const OrderIdChars: string := "ABCDEFGHIJKLMNOPQRSTUVWXYZ0123456789"

  /** The number of random characters after the prefix. */
  const RandomLength: nat := 8

  /** The order number the eight drawn positions spell. */
  function OrderIdFor(picks: seq<nat>): (r: string)
    requires forall k :: 0 <= k < |picks| ==> picks[k] < |OrderIdChars|
    ensures |r| == 4 + |picks| && r[..4] == "ORD-"
    ensures forall k :: 0 <= k < |picks| ==> r[4 + k] == OrderIdChars[picks[k]]
  {
    "ORD-" + seq(|picks|, k requires 0 <= k < |picks| => OrderIdChars[picks[k]])
  }

  lemma OrderIdForSnoc(picks: seq<nat>, x: nat)
    requires forall k :: 0 <= k < |picks| ==> picks[k] < |OrderIdChars|
    requires x < |OrderIdChars|
    ensures OrderIdFor(picks + [x]) == OrderIdFor(picks) + [OrderIdChars[x]]
  {
    var a := OrderIdFor(picks + [x]);
    var b := OrderIdFor(picks) + [OrderIdChars[x]];
    assert |a| == |b|;
    forall k | 0 <= k < |a|
      ensures a[k] == b[k]
    {
      if k >= 4 && k < |a| - 1 {
        assert (picks + [x])[k - 4] == picks[k - 4];
      }
    }
  }

  /** `generateOrderId`: "ORD-" followed by eight characters drawn from `OrderIdChars`. */
  method GenerateOrderId(picks: seq<nat>) returns (result: string)
    requires |picks| == RandomLength
    requires forall k :: 0 <= k < |picks| ==> picks[k] < |OrderIdChars|
    ensures |result| == 12 && result[..4] == "ORD-"
    ensures result == OrderIdFor(picks)
  {
    result := "ORD-";
    for i := 0 to RandomLength
      invariant |result| == 4 + i
      invariant result == OrderIdFor(picks[..i])
    {
      assert picks[..i + 1] == picks[..i] + [picks[i]];
      OrderIdForSnoc(picks[..i], picks[i]);
      result := result + [OrderIdChars[picks[i]]];
    }
    assert picks[..RandomLength] == picks;
  }

  /** The character at position `k` of `OrderIdChars`: the capitals, then the digits. */
  function CharAt(k: nat): char
    requires k < 36
  {
    if k < 26 then (('A' as int) + k) as char else (('0' as int) + k - 26) as char
  }

  lemma CharAtInjective(i: nat, j: nat)
    requires i < 36 && j < 36 && CharAt(i) == CharAt(j)
    ensures i == j
  {
    assert (CharAt(i) as int) == (if i < 26 then ('A' as int) + i else ('0' as int) + i - 26);
    assert (CharAt(j) as int) == (if j < 26 then ('A' as int) + j else ('0' as int) + j - 26);
  }

  lemma OrderIdCharsSpelled()
    ensures |OrderIdChars| == 36
    ensures forall k :: 0 <= k < 36 ==> OrderIdChars[k] == CharAt(k)
  {
  }

  /** Every order number consists of the prefix and characters of `OrderIdChars`. */
  predicate IsOrderId(s: string)
  {
    |s| == 4 + RandomLength && s[..4] == "ORD-" &&
    forall k :: 4 <= k < |s| ==> s[k] in OrderIdChars
  }

  lemma OrderIdForIsOrderId(picks: seq<nat>)
    requires |picks| == RandomLength
    requires forall k :: 0 <= k < |picks| ==> picks[k] < |OrderIdChars|
    ensures IsOrderId(OrderIdFor(picks))
  {
    var r := OrderIdFor(picks);
    forall k | 4 <= k < |r|
      ensures r[k] in OrderIdChars
    {
      assert r[k] == OrderIdChars[picks[k - 4]];
    }
  }

  /** The drawn positions can be read back off the order number, so different draws give
      different numbers. */
  lemma OrderIdForInjective(a: seq<nat>, b: seq<nat>)
    requires forall k :: 0 <= k < |a| ==> a[k] < |OrderIdChars|
    requires forall k :: 0 <= k < |b| ==> b[k] < |OrderIdChars|
    ensures OrderIdFor(a) == OrderIdFor(b) <==> a == b
  {
    if OrderIdFor(a) == OrderIdFor(b) {
      OrderIdCharsSpelled();
      var s := OrderIdFor(a);
      assert |a| == |b|;
      forall k | 0 <= k < |a|
        ensures a[k] == b[k]
      {
        assert CharAt(a[k]) == s[4 + k] == CharAt(b[k]);
        CharAtInjective(a[k], b[k]);
      }
    }
  }

  // ---------------------------------------------------------------------------
  // cn

  /** An argument of `cn`: a class string, or one of the falsy values `undefined`, `null`, `false`. */
  datatype ClassArg = Str(s: string) | Undefined | Null | False

  /** `Boolean(arg)`: a non-empty string; the empty string is falsy as well. */
  predicate Truthy(a: ClassArg)
  {
    a.Str? && a.s != ""
  }

  /** `parts.join(sep)`. */
  function Join(parts: seq<string>, sep: string): string
  {
    if |parts| == 0 then ""
    else if |parts| == 1 then parts[0]
    else parts[0] + sep + Join(parts[1..], sep)
  }

  /** The class strings of the truthy arguments, in argument order. */
  function TruthyStrings(args: seq<ClassArg>): (r: seq<string>)
    ensures |r| <= |args|
    ensures forall i :: 0 <= i < |r| ==> r[i] != "" && Str(r[i]) in args
  {
    if args == [] then []
    else (if Truthy(args[0]) then [args[0].s] else []) + TruthyStrings(args[1..])
  }

  /** `cn(...classes)`: `classes.filter(Boolean).join(' ')`. */
  function Cn(args: seq<ClassArg>): (r: string)
    ensures r == "" <==> TruthyStrings(args) == []
  {
    JoinEmpty(TruthyStrings(args), " ");
    Join(TruthyStrings(args), " ")
  }

  lemma {:induction false} JoinEmpty(parts: seq<string>, sep: string)
    requires forall i :: 0 <= i < |parts| ==> parts[i] != ""
    ensures Join(parts, sep) == "" <==> parts == []
  {
    if |parts| >= 2 {
      JoinEmpty(parts[1..], sep);
    }
  }

  /** `s.split(' ')`. */
  function Split(s: string): (r: seq<string>)
    ensures |r| >= 1
  {
    if s == [] then [""]
    else
      var rest := Split(s[1..]);
      if s[0] == ' ' then [""] + rest else [[s[0]] + rest[0]] + rest[1..]
  }

  /** A word without spaces sticks to the front of whatever follows it. */
  lemma {:induction false} SplitWord(w: string, t: string)
    requires forall i :: 0 <= i < |w| ==> w[i] != ' '
    ensures Split(w + t) == [w + Split(t)[0]] + Split(t)[1..]
  {
    if w == [] {
      assert w + t == t;
      assert w + Split(t)[0] == Split(t)[0];
      assert Split(t) == [Split(t)[0]] + Split(t)[1..];
    } else {
      assert (w + t)[1..] == w[1..] + t;
      SplitWord(w[1..], t);
      assert [w[0]] + (w[1..] + Split(t)[0]) == w + Split(t)[0];
    }
  }

  /** Splitting a space-joined list of space-free words gives the words back. */
  lemma {:induction false} SplitJoin(parts: seq<string>)
    requires |parts| >= 1
    requires forall i, j :: 0 <= i < |parts| && 0 <= j < |parts[i]| ==> parts[i][j] != ' '
    ensures Split(Join(parts, " ")) == parts
  {
    if |parts| == 1 {
      SplitWord(parts[0], "");
      assert parts[0] + "" == parts[0];
    } else {
      SplitJoin(parts[1..]);
      var t := Join(parts[1..], " ");
      assert Join(parts, " ") == parts[0] + (" " + t);
      SplitWord(parts[0], " " + t);
      assert (" " + t)[1..] == t;
      assert Split(" " + t) == [""] + Split(t);
      assert parts[0] + "" == parts[0];
      assert parts == [parts[0]] + parts[1..];
    }
  }

  /** `cn` keeps the truthy arguments in order: splitting its result at the spaces gives them back
      exactly, when no class string holds a space itself. */
  lemma CnRoundTrip(args: seq<ClassArg>)
    requires TruthyStrings(args) != []
    requires forall i, j :: 0 <= i < |args| && args[i].Str? && 0 <= j < |args[i].s| ==> args[i].s[j] != ' '
    ensures Split(Cn(args)) == TruthyStrings(args)
  {
    var parts := TruthyStrings(args);
    forall i, j | 0 <= i < |parts| && 0 <= j < |parts[i]|
      ensures parts[i][j] != ' '
    {
      var k :| 0 <= k < |args| && args[k] == Str(parts[i]);
    }
    SplitJoin(parts);
  }

  /** Falsy arguments, wherever they stand, change nothing. */
  lemma {:induction false} TruthyStringsConcat(a: seq<ClassArg>, b: seq<ClassArg>)
    ensures TruthyStrings(a + b) == TruthyStrings(a) + TruthyStrings(b)
  {
    if a == [] {
      assert a + b == b;
    } else {
      assert (a + b)[0] == a[0] && (a + b)[1..] == a[1..] + b;
      TruthyStringsConcat(a[1..], b);
      var h := if Truthy(a[0]) then [a[0].s] else [];
      assert TruthyStrings(a + b) == h + TruthyStrings(a[1..] + b);
      assert h + (TruthyStrings(a[1..]) + TruthyStrings(b)) == (h + TruthyStrings(a[1..])) + TruthyStrings(b);
    }
  }

  lemma CnIgnoresFalsy(a: seq<ClassArg>, x: ClassArg, b: seq<ClassArg>)
    requires !Truthy(x)
    ensures Cn(a + [x] + b) == Cn(a + b)
  {
    TruthyStringsConcat(a + [x], b);
    TruthyStringsConcat(a, [x]);
    TruthyStringsConcat(a, b);
    assert TruthyStrings([x]) == [];
    assert TruthyStrings(a + [x] + b) == TruthyStrings(a + b);
  }

  /** Two class strings give "a b"; no arguments give "". */
  lemma CnExamples()
    ensures Cn([]) == ""
    ensures Cn([Str("px-4"), Undefined, Str("font-bold"), False, Null, Str("")]) == "px-4 font-bold"
  {
    var tail := [False, Null, Str("")];
    assert TruthyStrings(tail) == [] by {
      assert tail[1..] == [Null, Str("")] && tail[1..][1..] == [Str("")];
    }
    var head := [Str("px-4"), Undefined, Str("font-bold")];
    assert TruthyStrings(head) == ["px-4", "font-bold"] by {
      assert head[1..] == [Undefined, Str("font-bold")] && head[1..][1..] == [Str("font-bold")];
    }
    TruthyStringsConcat(head, tail);
    assert head + tail == [Str("px-4"), Undefined, Str("font-bold"), False, Null, Str("")];
    assert Join(["px-4", "font-bold"], " ") == "px-4 font-bold";
  }
}
