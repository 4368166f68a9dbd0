/**
  Reading a figure from a narrative: dots and commas are thousands separators or
  decimal points depending on how many there are and what stands after them.

  The text is over digits, dot, comma, percent and blanks. Values are exact reals.
 */
module NumberTokens {

  import opened DecimalText
  import opened Strings
  import opened Wrappers
  import D = Derivations

  // ------------------------------------------------------------------ strings

  function Remove(s: string, c: char): string {
    if s == "" then "" else Remove(s[..|s| - 1], c) + if s[|s| - 1] == c then "" else [s[|s| - 1]]
  }

  function Replace(s: string, c: char, d: char): (r: string)
    ensures |r| == |s|
  {
    seq(|s|, i requires 0 <= i < |s| => if s[i] == c then d else s[i])
  }

  /** The last position of c, or -1. */
  function RFind(s: string, c: char): (r: int)
    ensures -1 <= r < |s|
    ensures r >= 0 ==> s[r] == c
  {
    if s == "" then -1
    else if s[|s| - 1] == c then |s| - 1
    else RFind(s[..|s| - 1], c)
  }

  function Split(s: string, c: char): (parts: seq<string>)
    ensures |parts| >= 1
    decreases |s|
  {
    var r := RFind(s, c);
    if r < 0 then [s] else Split(s[..r], c) + [s[r + 1..]]
  }

  function Clean(token: string): string {
    Strip(Remove(token, '%'))
  }

  // ------------------------------------------------------------------ parsing

  /** c / 10^k */
  function Decimal(c: nat, k: nat): real {
    c as real / Pow10(k) as real
  }

  /** Digits with at most one point among them, and at least one digit. */
  function ParseFloat(s: string): Option<real> {
    var r := RFind(s, '.');
    if r < 0 then
      if s != "" && AllDigits(s) then Some(Value(s) as real) else None
    else if |s| > 1 && AllDigits(s[..r]) && AllDigits(s[r + 1..]) then
      Some(Decimal(Value(s[..r] + s[r + 1..]), |s| - r - 1))
    else None
  }

  /** Which separators go and which becomes the point. */
  function Unseparated(s: string): string {
    if '.' in s && ',' in s then
      if RFind(s, ',') > RFind(s, '.') then Replace(Remove(s, '.'), ',', '.') else Remove(s, ',')
    else if ',' in s then
      var parts := Split(s, ',');
      if |parts| == 2 && |parts[1]| <= 4 then Replace(s, ',', '.') else Remove(s, ',')
    else if '.' in s then
      var parts := Split(s, '.');
      if |parts| > 2 || (|parts| == 2 && |parts[1]| == 3 && |parts[0]| <= 3) then Remove(s, '.') else s
    else s
  }

  function Normalize(token: string): Option<real> {
    if Clean(token) == "" then None else ParseFloat(Unseparated(Clean(token)))
  }

  // ----------------------------------------------------------------- printing

  /** The last k digits of m. */
  function Padded(k: nat, m: nat): (s: string)
    ensures |s| == k && AllDigits(s)
  {
    if k == 0 then "" else Padded(k - 1, m / 10) + [DigitChar(m % 10)]
  }

  /** Thousands groups. */
  function Grouped(n: nat, separator: char): string {
    if n < 1000 then Digits(n) else Grouped(n / 1000, separator) + [separator] + Padded(3, n % 1000)
  }

  /** A whole part, a point and decimals. */
  function WithFraction(whole: string, point: char, decimals: string): string {
    whole + [point] + decimals
  }

  /** The number that n and its decimals spell. */
  function Spelled(n: nat, decimals: string): real
    requires AllDigits(decimals)
  {
    Decimal(n * Pow10(|decimals|) + Value(decimals), |decimals|)
  }

  // ------------------------------------------------------------ string lemmas

  lemma {:induction false} RemoveConcat(a: string, b: string, c: char)
    ensures Remove(a + b, c) == Remove(a, c) + Remove(b, c)
  {
    if b == "" {
      assert a + b == a;
    } else {
      RemoveConcat(a, b[..|b| - 1], c);
      assert (a + b)[..|a + b| - 1] == a + b[..|b| - 1];
    }
  }

  lemma {:induction false} RemoveAbsent(s: string, c: char)
    requires c !in s
    ensures Remove(s, c) == s
  {
    if s != "" {
      RemoveAbsent(s[..|s| - 1], c);
    }
  }

  lemma {:induction false} RFindIs(s: string, c: char, r: int)
    requires -1 <= r < |s| && (r >= 0 ==> s[r] == c) && forall i :: r < i < |s| ==> s[i] != c
    ensures RFind(s, c) == r
  {
    if r < |s| - 1 {
      RFindIs(s[..|s| - 1], c, r);
    }
  }

  lemma RFindAbsent(s: string, c: char)
    requires c !in s
    ensures RFind(s, c) == -1
  {
    RFindIs(s, c, -1);
  }

  lemma {:induction false} RFindLast(a: string, c: char, b: string)
    requires c !in b
    ensures RFind(a + [c] + b, c) == |a|
  {
    var s := a + [c] + b;
    if b == "" {
      assert s[|s| - 1] == c;
    } else {
      var init := b[..|b| - 1];
      RFindLast(a, c, init);
      assert s[..|s| - 1] == a + [c] + init;
      assert s[|s| - 1] == b[|b| - 1];
      assert b[|b| - 1] in b;
    }
  }

  lemma SplitAtLast(a: string, c: char, b: string)
    requires c !in b
    ensures Split(a + [c] + b, c) == Split(a, c) + [b]
  {
    RFindLast(a, c, b);
    assert (a + [c] + b)[..|a|] == a && (a + [c] + b)[|a| + 1..] == b;
  }

  predicate IsNumeric(s: string) {
    s != "" && forall i :: 0 <= i < |s| ==> IsDigit(s[i]) || s[i] == '.' || s[i] == ','
  }

  lemma RemoveOwn(a: string, c: char)
    ensures Remove(a + [c], c) == Remove(a, c)
  {
    assert (a + [c])[..|a|] == a;
  }

  lemma NothingToStrip(s: string)
    requires IsNumeric(s)
    ensures Strip(s) == s
  {
    assert !IsSpace(s[0]) && !IsSpace(s[|s| - 1]);
  }

  lemma CleanNumeric(s: string)
    requires IsNumeric(s)
    ensures Clean(s) == s && Clean(s + ['%']) == s
  {
    RemoveAbsent(s, '%');
    RemoveOwn(s, '%');
    NothingToStrip(s);
  }

  // ------------------------------------------------------------ digit lemmas

  lemma {:induction false} ValueOfPadded(k: nat, m: nat)
    requires m < Pow10(k)
    ensures Value(Padded(k, m)) == m
  {
    if k > 0 {
      ValueOfPadded(k - 1, m / 10);
      assert Padded(k, m)[..k - 1] == Padded(k - 1, m / 10);
      assert DigitValue(DigitChar(m % 10)) == m % 10;
    }
  }

  lemma PaddedThree(m: nat)
    ensures Padded(3, m) == [DigitChar(m / 10 / 10 % 10)] + [DigitChar(m / 10 % 10)] + [DigitChar(m % 10)]
  {
    assert Padded(1, m / 10 / 10) == Padded(0, m / 10 / 10 / 10) + [DigitChar(m / 10 / 10 % 10)];
  }

  lemma TensOfTens(n: nat)
    ensures n / 10 / 10 / 10 == n / 1000
  {
  }

  /** The last three digits of a number are those of what it leaves over a thousand. */
  lemma LastThreeDigits(n: nat)
    ensures n / 10 / 10 / 10 == n / 1000
    ensures n % 1000 / 10 / 10 % 10 == n / 10 / 10 % 10 && n % 1000 / 10 % 10 == n / 10 % 10 && n % 1000 % 10 == n % 10
  {
    TensOfTens(n);
    var q, r := n / 1000, n % 1000;
    assert n == 1000 * q + r;
    assert n / 10 == 100 * q + r / 10;
    assert n / 10 / 10 == 10 * q + r / 10 / 10;
  }

  lemma DigitsInGroups(n: nat)
    requires n >= 1000
    ensures Digits(n) == Digits(n / 1000) + Padded(3, n % 1000)
  {
    PaddedThree(n % 1000);
    LastThreeDigits(n);
    assert Digits(n / 10 / 10) == Digits(n / 10 / 10 / 10) + [DigitChar(n / 10 / 10 % 10)];
    assert Digits(n / 10) == Digits(n / 10 / 10) + [DigitChar(n / 10 % 10)];
    assert Digits(n) == Digits(n / 10) + [DigitChar(n % 10)];
  }

  lemma {:induction false} DigitsLength(n: nat, k: nat)
    requires k > 0 && n < Pow10(k)
    ensures |Digits(n)| <= k
  {
    if n >= 10 {
      DigitsLength(n / 10, k - 1);
    }
  }

  lemma LongDigits(n: nat)
    requires n >= 1000
    ensures |Digits(n)| > 3
  {
    DigitsInGroups(n);
  }

  // ------------------------------------------------------------ group lemmas

  lemma RemoveLast(a: string, c: char, b: string)
    requires c !in b
    ensures Remove(a + [c] + b, c) == Remove(a, c) + b
  {
    var head := a + [c];
    RemoveConcat(head, b, c);
    RemoveOwn(a, c);
    RemoveAbsent(b, c);
  }

  lemma {:induction false} GroupsRemoved(n: nat, c: char)
    requires !IsDigit(c)
    ensures Remove(Grouped(n, c), c) == Digits(n)
  {
    if n < 1000 {
      RemoveAbsent(Digits(n), c);
    } else {
      GroupsRemoved(n / 1000, c);
      RemoveLast(Grouped(n / 1000, c), c, Padded(3, n % 1000));
      DigitsInGroups(n);
    }
  }

  predicate DigitsOr(s: string, c: char) {
    s != "" && forall i :: 0 <= i < |s| ==> IsDigit(s[i]) || s[i] == c
  }

  lemma {:induction false} GroupCharacters(n: nat, c: char)
    ensures DigitsOr(Grouped(n, c), c)
    ensures !IsDigit(c) ==> (c in Grouped(n, c) <==> n >= 1000)
  {
    if n >= 1000 {
      var a := Grouped(n / 1000, c);
      GroupCharacters(n / 1000, c);
      assert (a + [c] + Padded(3, n % 1000))[|a|] == c;
    }
  }

  /** How many groups there are decides how the separators are read. */
  lemma GroupCount(n: nat, c: char)
    requires !IsDigit(c)
    ensures n < 1000 ==> Split(Grouped(n, c), c) == [Digits(n)]
    ensures 1000 <= n < 1000000 ==> Split(Grouped(n, c), c) == [Digits(n / 1000)] + [Padded(3, n % 1000)]
    ensures n >= 1000000 ==> |Split(Grouped(n, c), c)| > 2
  {
    if n >= 1000 {
      GroupCount(n / 1000, c);
      SplitAtLast(Grouped(n / 1000, c), c, Padded(3, n % 1000));
    }
  }

  // ---------------------------------------------------------- reading lemmas

  lemma ReadAs(s: string, t: string)
    requires IsNumeric(s) && Unseparated(s) == t
    ensures Normalize(s) == ParseFloat(t)
  {
    CleanNumeric(s);
  }

  lemma ParseDigits(n: nat)
    ensures ParseFloat(Digits(n)) == Some(n as real)
  {
    ValueOfDigits(n);
  }

  lemma ParsePoint(a: string, b: string)
    requires AllDigits(a) && AllDigits(b) && a != ""
    ensures AllDigits(a + b) && ParseFloat(a + ['.'] + b) == Some(Decimal(Value(a + b), |b|))
  {
    var s := a + ['.'] + b;
    RFindLast(a, '.', b);
    assert s[..|a|] == a && s[|a| + 1..] == b;
  }

  lemma ParseFraction(n: nat, b: string)
    requires AllDigits(b)
    ensures ParseFloat(WithFraction(Digits(n), '.', b)) == Some(Spelled(n, b))
  {
    ParsePoint(Digits(n), b);
    JoinedValue(n, b);
  }

  lemma JoinedValue(n: nat, b: string)
    requires AllDigits(b)
    ensures AllDigits(Digits(n) + b) && Value(Digits(n) + b) == n * Pow10(|b|) + Value(b)
  {
    ValueOfConcat(Digits(n), b);
    ValueOfDigits(n);
  }

  lemma PartsAt(a: string, c: char, b: string)
    requires c !in a && c !in b
    ensures var parts := Split(a + [c] + b, c);
            |parts| == 2 && parts[0] == a && parts[1] == b
    ensures c in a + [c] + b
  {
    SplitAtLast(a, c, b);
    RFindAbsent(a, c);
    assert (a + [c] + b)[|a|] == c;
  }

  lemma Only(a: string, c: char, b: string, d: char)
    requires d !in a && d !in b && d != c
    ensures d !in a + [c] + b
  {
  }

  lemma LoneComma(a: string, b: string)
    requires AllDigits(a) && AllDigits(b)
    ensures Unseparated(a + [','] + b) == if |b| <= 4 then a + ['.'] + b else a + b
  {
    PartsAt(a, ',', b);
    Only(a, ',', b, '.');
    if |b| <= 4 {
      PointForComma(a, b);
    } else {
      RemoveLast(a, ',', b);
      RemoveAbsent(a, ',');
    }
  }

  lemma PointForComma(a: string, b: string)
    requires AllDigits(a) && AllDigits(b)
    ensures Replace(a + [','] + b, ',', '.') == a + ['.'] + b
  {
  }

  lemma LoneDot(a: string, b: string)
    requires AllDigits(a) && AllDigits(b)
    ensures Unseparated(a + ['.'] + b) == if |b| == 3 && |a| <= 3 then a + b else a + ['.'] + b
  {
    PartsAt(a, '.', b);
    Only(a, '.', b, ',');
    if |b| == 3 && |a| <= 3 {
      RemoveLast(a, '.', b);
      RemoveAbsent(a, '.');
    }
  }

  lemma CommaComesLast(a: string, b: string)
    requires '.' in a && AllDigits(b)
    ensures var s := a + [','] + b;
            '.' in s && ',' in s && RFind(s, ',') > RFind(s, '.')
  {
    var s := a + [','] + b;
    RFindLast(a, ',', b);
    assert s[|a|] == ',';
    var i :| 0 <= i < |a| && a[i] == '.';
    assert s[i] == '.';
    assert forall i :: |a| < i < |s| ==> s[i] == b[i - |a| - 1];
  }

  lemma DotsGo(a: string, b: string)
    requires AllDigits(b)
    ensures Remove(a + [','] + b, '.') == Remove(a, '.') + [','] + b
  {
    var head := a + [','];
    RemoveConcat(head, b, '.');
    RemoveAbsent(b, '.');
    assert head[..|a|] == a;
  }

  lemma DotsThenComma(a: string, b: string)
    requires '.' in a && AllDigits(b)
    ensures Unseparated(a + [','] + b) == Replace(Remove(a, '.') + [','] + b, ',', '.')
  {
    CommaComesLast(a, b);
    DotsGo(a, b);
  }

  // ----------------------------------------------------------------- theorems

  lemma PlainParsesBack(n: nat)
    ensures Normalize(Digits(n)) == Some(n as real)
  {
    ReadAs(Digits(n), Digits(n));
    ParseDigits(n);
  }

  lemma TwoGroups(n: nat, c: char)
    requires 1000 <= n < 1000000
    ensures Grouped(n, c) == Digits(n / 1000) + [c] + Padded(3, n % 1000)
  {
    assert Grouped(n / 1000, c) == Digits(n / 1000);
  }

  lemma ManyPartsJoined(s: string, c: char)
    requires DigitsOr(s, c) && c in s && (c == '.' || c == ',') && |Split(s, c)| > 2
    ensures Unseparated(s) == Remove(s, c)
  {
    var other := if c == '.' then ',' else '.';
    assert other !in s;
  }

  lemma ManyGroups(n: nat, c: char)
    requires n >= 1000000 && (c == '.' || c == ',')
    ensures Normalize(Grouped(n, c)) == Some(n as real)
  {
    GroupCharacters(n, c);
    GroupCount(n, c);
    ManyPartsJoined(Grouped(n, c), c);
    GroupsRemoved(n, c);
    ReadAs(Grouped(n, c), Digits(n));
    ParseDigits(n);
  }

  lemma TwoDotGroups(n: nat)
    requires 1000 <= n < 1000000
    ensures Normalize(Grouped(n, '.')) == Some(n as real)
  {
    var a, b := Digits(n / 1000), Padded(3, n % 1000);
    assert Pow10(3) == 1000 by { assert Pow10(2) == 100; }
    DigitsLength(n / 1000, 3);
    TwoGroups(n, '.');
    LoneDot(a, b);
    DigitsInGroups(n);
    NumericFraction(a, '.', b);
    ReadAs(a + ['.'] + b, a + b);
    ParseDigits(n);
  }

  lemma DotGroupedParsesBack(n: nat)
    ensures Normalize(Grouped(n, '.')) == Some(n as real)
  {
    if n < 1000 {
      PlainParsesBack(n);
    } else if n < 1000000 {
      TwoDotGroups(n);
    } else {
      ManyGroups(n, '.');
    }
  }

  lemma Thousandths(n: nat)
    requires n >= 1000
    ensures Spelled(n / 1000, Padded(3, n % 1000)) == n as real / 1000.0
  {
    assert Pow10(3) == 1000 by { assert Pow10(2) == 100; }
    ValueOfPadded(3, n % 1000);
    assert n / 1000 * 1000 + n % 1000 == n;
  }

  lemma NumericFraction(a: string, point: char, b: string)
    requires DigitsOr(a, '.') && AllDigits(b) && (point == '.' || point == ',')
    ensures IsNumeric(WithFraction(a, point, b))
  {
  }

  lemma ScaledDiffers(c: nat, p: nat)
    requires p >= 10
    ensures c as real / p as real == c as real <==> c == 0
  {
    if c as real == c as real / p as real {
      assert c as real * p as real == c as real;
      assert c as real * (p as real - 1.0) == 0.0;
    }
  }

  /** Shifting the point by at least one place changes a number unless it is zero. */
  lemma ShiftDiffers(n: nat, b: string)
    requires AllDigits(b) && b != ""
    ensures Spelled(n, b) == (n * Pow10(|b|) + Value(b)) as real <==> n == 0 && Value(b) == 0
  {
    assert Pow10(|b|) >= 10;
    ScaledDiffers(n * Pow10(|b|) + Value(b), Pow10(|b|));
    ZeroExactly(n, Pow10(|b|), Value(b));
  }

  lemma ZeroExactly(n: nat, p: nat, f: nat)
    requires p > 0
    ensures n * p + f == 0 <==> n == 0 && f == 0
  {
  }

  /** Ungrouped digits, a comma and decimals: right exactly up to four decimals (or when all digits are zero). */
  lemma CommaDecimalsExactly(n: nat, b: string)
    requires AllDigits(b)
    ensures Normalize(WithFraction(Digits(n), ',', b)) == Some(Spelled(n, b)) <==> |b| <= 4 || (n == 0 && Value(b) == 0)
  {
    var a := Digits(n);
    NumericFraction(a, ',', b);
    LoneComma(a, b);
    if |b| <= 4 {
      ReadAs(a + [','] + b, a + ['.'] + b);
      ParseFraction(n, b);
    } else {
      ReadAs(a + [','] + b, a + b);
      JoinedDigits(n, b);
      ShiftDiffers(n, b);
    }
  }

  lemma ParseWhole(s: string)
    requires AllDigits(s) && s != ""
    ensures ParseFloat(s) == Some(Value(s) as real)
  {
    RFindAbsent(s, '.');
  }

  lemma JoinedDigits(n: nat, b: string)
    requires AllDigits(b)
    ensures ParseFloat(Digits(n) + b) == Some((n * Pow10(|b|) + Value(b)) as real)
  {
    JoinedValue(n, b);
    ParseWhole(Digits(n) + b);
  }

  /** Ungrouped digits, a dot and decimals: three decimals after up to three digits are taken for a group. */
  lemma DotDecimalsExactly(n: nat, b: string)
    requires AllDigits(b)
    ensures Normalize(WithFraction(Digits(n), '.', b)) == Some(Spelled(n, b)) <==>
              |b| != 3 || n >= 1000 || (n == 0 && Value(b) == 0)
  {
    var a := Digits(n);
    NumericFraction(a, '.', b);
    LoneDot(a, b);
    if |b| == 3 && n < 1000 {
      assert Pow10(3) == 1000 by { assert Pow10(2) == 100; }
      DigitsLength(n, 3);
      ReadAs(a + ['.'] + b, a + b);
      JoinedDigits(n, b);
      ShiftDiffers(n, b);
    } else {
      if n >= 1000 { LongDigits(n); }
      ReadAs(a + ['.'] + b, a + ['.'] + b);
      ParseFraction(n, b);
    }
  }

  lemma OneComma(n: nat)
    requires 1000 <= n < 1000000
    ensures Normalize(Grouped(n, ',')) == Some(n as real / 1000.0)
  {
    TwoGroups(n, ',');
    CommaDecimalsExactly(n / 1000, Padded(3, n % 1000));
    Thousandths(n);
  }

  lemma FifteenHundredWritten()
    ensures Grouped(1500, ',') == "1,500"
  {
    assert DigitChar(0) == '0' && DigitChar(1) == '1' && DigitChar(5) == '5';
    assert Digits(1) == ['1'];
    assert Padded(3, 500) == ['5'] + ['0'] + ['0'] by { PaddedThree(500); }
    assert Grouped(1500, ',') == ['1'] + [','] + (['5'] + ['0'] + ['0']) by { TwoGroups(1500, ','); }
  }

  /** One and a half, where fifteen hundred was written. */
  lemma FifteenHundredMisread()
    ensures Normalize("1,500") == Some(1.5)
  {
    var s := Grouped(1500, ',');
    assert Normalize(s) == Some(1.5) by { OneComma(1500); }
    assert s == "1,500" by { FifteenHundredWritten(); }
  }

  /** Comma-grouped integers are read right unless there are exactly two groups: "1,500" is read as 1.5. */
  lemma CommaGroupedExactly(n: nat)
    ensures Normalize(Grouped(n, ',')) == Some(n as real) <==> n < 1000 || n >= 1000000
    ensures 1000 <= n < 1000000 ==> Normalize(Grouped(n, ',')) == Some(n as real / 1000.0)
  {
    if n < 1000 {
      PlainParsesBack(n);
    } else if n < 1000000 {
      OneComma(n);
    } else {
      ManyGroups(n, ',');
    }
  }

  lemma GroupedDecimals(n: nat, b: string)
    requires AllDigits(b) && n >= 1000
    ensures Normalize(WithFraction(Grouped(n, '.'), ',', b)) == Some(Spelled(n, b))
  {
    var a := Grouped(n, '.');
    GroupCharacters(n, '.');
    GroupsRemoved(n, '.');
    NumericFraction(a, ',', b);
    DotsThenComma(a, b);
    PointForComma(Digits(n), b);
    ReadAs(a + [','] + b, Digits(n) + ['.'] + b);
    ParseFraction(n, b);
  }

  /**
    Turkish figures, dots between thousands and a comma before the decimals, are read
    as the number they spell exactly when there is a group or the decimals are at most
    four (or all digits are zero).
   */
  lemma TurkishDecimalsExactly(n: nat, b: string)
    requires AllDigits(b)
    ensures Normalize(WithFraction(Grouped(n, '.'), ',', b)) == Some(Spelled(n, b)) <==>
              n >= 1000 || |b| <= 4 || (n == 0 && Value(b) == 0)
  {
    if n >= 1000 {
      GroupedDecimals(n, b);
    } else {
      CommaDecimalsExactly(n, b);
    }
  }

  lemma DotComesLast(a: string, b: string)
    requires ',' in a && AllDigits(b)
    ensures var s := a + ['.'] + b;
            '.' in s && ',' in s && RFind(s, '.') > RFind(s, ',')
  {
    var s := a + ['.'] + b;
    RFindLast(a, '.', b);
    assert s[|a|] == '.';
    var i :| 0 <= i < |a| && a[i] == ',';
    assert s[i] == ',';
    assert forall i :: |a| < i < |s| ==> s[i] == b[i - |a| - 1];
  }

  lemma CommasGo(a: string, b: string)
    requires AllDigits(b)
    ensures Remove(a + ['.'] + b, ',') == Remove(a, ',') + ['.'] + b
  {
    var head := a + ['.'];
    RemoveConcat(head, b, ',');
    RemoveAbsent(b, ',');
    assert head[..|a|] == a;
  }

  lemma CommasThenDot(n: nat, b: string)
    requires AllDigits(b) && n >= 1000
    ensures Normalize(WithFraction(Grouped(n, ','), '.', b)) == Some(Spelled(n, b))
  {
    var a := Grouped(n, ',');
    GroupCharacters(n, ',');
    GroupsRemoved(n, ',');
    DotComesLast(a, b);
    CommasGo(a, b);
    MixedIsNumeric(a, b);
    ReadAs(a + ['.'] + b, Digits(n) + ['.'] + b);
    ParseFraction(n, b);
  }

  lemma MixedIsNumeric(a: string, b: string)
    requires DigitsOr(a, ',') && AllDigits(b)
    ensures IsNumeric(a + ['.'] + b)
  {
  }

  /**
    English figures, commas between thousands and a dot before the decimals, are read
    as the number they spell whenever there is a group, and else unless three decimals
    follow (or all digits are zero).
   */
  lemma EnglishDecimalsExactly(n: nat, b: string)
    requires AllDigits(b)
    ensures Normalize(WithFraction(Grouped(n, ','), '.', b)) == Some(Spelled(n, b)) <==>
              n >= 1000 || |b| != 3 || (n == 0 && Value(b) == 0)
  {
    if n >= 1000 {
      CommasThenDot(n, b);
    } else {
      DotDecimalsExactly(n, b);
    }
  }

  /** A percent sign changes nothing. */
  lemma PercentIgnored(s: string)
    requires IsNumeric(s)
    ensures Normalize(s + ['%']) == Normalize(s)
  {
    CleanNumeric(s);
  }

  // -------------------------------------------------- the tokens the gate prints

  /** Decimal notation as the formatting functions produce it, for non-negative values. */
  ghost predicate PrintsDecimals(p: D.Printer) {
    && (forall n: nat :: p.plain(n) == Digits(n))
    && (forall n: nat :: p.grouped(n) == Grouped(n, '.'))
    && (forall a, k: nat :: a >= 0.0 ==> FixedText(p, a, k))
    && (forall a :: a >= 0.0 ==> p.nearest(a) >= 0)
  }

  ghost predicate FixedText(p: D.Printer, a: real, k: nat) {
    exists n: nat, b: string :: AllDigits(b) && |b| == k
                                && p.round(a, k) == Spelled(n, b) && p.fixed(a, k) == WithFraction(Digits(n), '.', b)
  }

  lemma CommaForm(n: nat, b: string)
    requires AllDigits(b)
    ensures D.WithComma(WithFraction(Digits(n), '.', b)) == WithFraction(Digits(n), ',', b)
  {
  }

  lemma FixedTextParses(p: D.Printer, a: real, k: nat)
    requires FixedText(p, a, k) && (k == 1 || k == 2)
    ensures Normalize(p.fixed(a, k)) == Some(p.round(a, k))
    ensures Normalize(D.WithComma(p.fixed(a, k))) == Some(p.round(a, k))
  {
    var n: nat, b: string :| AllDigits(b) && |b| == k
                             && p.round(a, k) == Spelled(n, b) && p.fixed(a, k) == WithFraction(Digits(n), '.', b);
    DotDecimalsExactly(n, b);
    CommaDecimalsExactly(n, b);
    CommaForm(n, b);
  }

  /** Every basic token printed for a value parses back to the rounding it was printed from. */
  lemma BasicTokensParseBack(p: D.Printer, v: real)
    requires PrintsDecimals(p)
    ensures var a := D.Abs(v);
            && Normalize(p.plain(p.nearest(a))) == Some(p.nearest(a) as real)
            && Normalize(p.grouped(p.nearest(a))) == Some(p.nearest(a) as real)
            && Normalize(p.fixed(a, 2)) == Normalize(D.WithComma(p.fixed(a, 2))) == Some(p.round(a, 2))
            && Normalize(p.fixed(a, 1)) == Normalize(D.WithComma(p.fixed(a, 1))) == Some(p.round(a, 1))
  {
    var a := D.Abs(v);
    PlainParsesBack(p.nearest(a));
    DotGroupedParsesBack(p.nearest(a));
    FixedTextParses(p, a, 2);
    FixedTextParses(p, a, 1);
  }

  /** The accepted texts of the basic kind are those six and no other. */
  lemma BasicTokensAre(p: D.Printer, v: real, t: string)
    ensures var a := D.Abs(v);
            t in D.BasicTokens(p, a) <==>
              || t == p.plain(p.nearest(a)) || t == p.grouped(p.nearest(a))
              || (exists k :: (k == 1 || k == 2) && (t == p.fixed(a, k) || t == D.WithComma(p.fixed(a, k))))
  {
    var a := D.Abs(v);
    if t in D.BasicTokens(p, a) && t != p.plain(p.nearest(a)) && t != p.grouped(p.nearest(a)) {
      var k := if t == p.fixed(a, 1) || t == D.WithComma(p.fixed(a, 1)) then 1 else 2;
      assert t == p.fixed(a, k) || t == D.WithComma(p.fixed(a, k));
    }
  }
}
