/**
 * `format_price` of handlers/admin.py: a non-negative amount as a space,
 * the whole part with its digits grouped in threes by spaces, a point, two
 * decimals and " ₽". Amounts are whole kopecks here, so the two decimals are
 * exact; binary floating point and its rounding are not modelled.
 */
module PriceFormat {
  import opened Wrappers

  /** The argument: a number (in kopecks) or a value of another Python type. */
  datatype Amount = Number(kopecks: int) | NotANumber

  datatype PriceError =
    | NotNumber  // TypeError
    | Negative   // ValueError

  function Message(e: PriceError): string
  {
    match e
    case NotNumber => "Price must be a number"
    case Negative => "Price cannot be negative"
  }

  /** The currency suffix: a space and the rouble sign. */
  const Rouble: string := " \U{20BD}"

  predicate IsDigit(c: char)
  {
    '0' <= c <= '9'
  }

  predicate AllDigits(s: string)
  {
    forall i :: 0 <= i < |s| ==> IsDigit(s[i])
  }

  function DigitChar(d: nat): (c: char)
    requires d < 10
    ensures IsDigit(c) && c as int - '0' as int == d
  {
    ('0' as int + d) as char
  }

  /** Decimal digits of n, most significant first, without leading zeros. */
  function Digits(n: nat): (s: string)
    ensures |s| >= 1 && AllDigits(s)
    ensures |s| > 1 ==> s[0] != '0'
  {
    if n < 10 then [DigitChar(n)] else Digits(n / 10) + [DigitChar(n % 10)]
  }

  /** The number a string of decimal digits denotes. */
  function Value(s: string): (n: nat)
    requires AllDigits(s)
  {
    if s == [] then 0 else Value(s[..|s| - 1]) * 10 + (s[|s| - 1] as int - '0' as int)
  }

  /** Digits of the whole part with a space before every group of three counted from the right. */
  function Grouped(d: string): (g: string)
    requires AllDigits(d)
    ensures |g| >= |d|
    ensures forall i :: 0 <= i < |g| ==> IsDigit(g[i]) || g[i] == ' '
    decreases |d|
  {
    if |d| <= 3 then d else Grouped(d[..|d| - 3]) + " " + d[|d| - 3..]
  }

  /**
   * The groups are of three: one space for every three digits after the
   * first one to three, and a space exactly at every fourth place counted
   * from the right.
   */
  lemma {:induction false} GroupedShape(d: string)
    requires AllDigits(d)
    ensures d != [] ==> |Grouped(d)| == |d| + (|d| - 1) / 3
    ensures forall i :: 0 <= i < |Grouped(d)| ==> (Grouped(d)[i] == ' ' <==> (|Grouped(d)| - i) % 4 == 0)
    decreases |d|
  {
    if |d| <= 3 {
      SpacesOfShort(d);
    } else {
      var hi, lo := d[..|d| - 3], d[|d| - 3..];
      assert AllDigits(hi) && AllDigits(lo);
      GroupedShape(hi);
      SpacesOfGroup(Grouped(hi), lo);
    }
  }

  /** Up to three digits hold no space, and no place in them is a fourth from the right. */
  lemma SpacesOfShort(d: string)
    requires AllDigits(d) && |d| <= 3
    ensures forall i :: 0 <= i < |d| ==> (d[i] == ' ' <==> (|d| - i) % 4 == 0)
  {
    forall i | 0 <= i < |d|
      ensures d[i] == ' ' <==> (|d| - i) % 4 == 0
    {
      assert IsDigit(d[i]);
    }
  }

  /** A space and a group of three after a correctly spaced prefix keep the spaces at every fourth place. */
  lemma SpacesOfGroup(h: string, lo: string)
    requires |lo| == 3 && AllDigits(lo)
    requires forall i :: 0 <= i < |h| ==> (h[i] == ' ' <==> (|h| - i) % 4 == 0)
    ensures var g := h + " " + lo;
      forall i :: 0 <= i < |g| ==> (g[i] == ' ' <==> (|g| - i) % 4 == 0)
  {
    var g := h + " " + lo;
    forall i | 0 <= i < |g|
      ensures g[i] == ' ' <==> (|g| - i) % 4 == 0
    {
      if i < |h| {
        assert g[i] == h[i];
        assert |g| - i == (|h| - i) + 4;
      } else if i > |h| {
        assert g[i] == lo[i - |h| - 1];
        assert IsDigit(lo[i - |h| - 1]);
      }
    }
  }

  /** The two decimals of m < 100, zero-padded. */
  function TwoDigits(m: nat): (s: string)
    requires m < 100
    ensures |s| == 2 && AllDigits(s)
  {
    [DigitChar(m / 10), DigitChar(m % 10)]
  }

  /**
   * `format_price(price)`: a non-number is refused before the sign is looked
   * at; a non-negative amount becomes " <grouped whole part>.<kopecks> ₽".
   */
  function FormatPrice(price: Amount): (r: Result<string, PriceError>)
    ensures price.NotANumber? ==> r == Failure(NotNumber)
    ensures price.Number? && price.kopecks < 0 ==> r == Failure(Negative)
    ensures r.Success? <==> price.Number? && price.kopecks >= 0
    ensures r.Success? ==> |r.value| >= 7 && r.value[0] == ' ' && r.value[|r.value| - 5] == '.'
    ensures r.Success? ==> r.value[|r.value| - 2..] == Rouble
  {
    if price.NotANumber? then Failure(NotNumber)
    else if price.kopecks < 0 then Failure(Negative)
    else Success(" " + Grouped(Digits(price.kopecks / 100)) + "." + TwoDigits(price.kopecks % 100) + Rouble)
  }

  /** Drops the grouping spaces. */
  function Ungroup(s: string): (u: string)
    ensures |u| <= |s|
  {
    if s == [] then [] else Ungroup(s[..|s| - 1]) + (if s[|s| - 1] == ' ' then [] else [s[|s| - 1]])
  }

  /** The text is laid out as `format_price` lays out the amount its digits denote. */
  predicate PrintedShape(s: string)
  {
    && |s| >= 7 && s[0] == ' ' && s[|s| - 5] == '.' && s[|s| - 2..] == Rouble
    && AllDigits(Ungroup(s[1..|s| - 5])) && AllDigits(s[|s| - 4..|s| - 2])
    && s[1..|s| - 5] == Grouped(Digits(Value(Ungroup(s[1..|s| - 5]))))
  }

  /**
   * Reads a formatted price back into kopecks, or `None` when the text is not
   * exactly what `format_price` prints for some amount: the whole part has no
   * leading zero and its spaces stand where `Grouped` puts them.
   */
  function ReadPrice(s: string): (r: Option<nat>)
    ensures r.Some? ==> |s| >= 7 && s[0] == ' ' && s[|s| - 2..] == Rouble
    ensures r.Some? <==> PrintedShape(s)
  {
    if PrintedShape(s) then
      Some(Value(Ungroup(s[1..|s| - 5])) * 100 + Value(s[|s| - 4..|s| - 2]))
    else None
  }

  /** Two decimal digits denote a number below 100 that prints as them. */
  lemma TwoDigitsOfValue(t: string)
    requires |t| == 2 && AllDigits(t)
    ensures Value(t) < 100 && TwoDigits(Value(t)) == t
  {
    assert t[..1][..0] == [];
    assert Value(t[..1]) == t[0] as int - '0' as int;
    assert IsDigit(t[0]) && IsDigit(t[1]);
  }

  /** A text with the outer shape of a price is its whole part and decimals put together. */
  lemma Layout(s: string)
    requires |s| >= 7 && s[0] == ' ' && s[|s| - 5] == '.' && s[|s| - 2..] == Rouble
    ensures s == " " + s[1..|s| - 5] + "." + s[|s| - 4..|s| - 2] + Rouble
  {
    assert s == s[..1] + s[1..|s| - 5] + s[|s| - 5..|s| - 4] + s[|s| - 4..|s| - 2] + s[|s| - 2..];
  }

  /** Roubles `v` and kopecks `m` print as the digits of each. */
  lemma PrintParts(v: nat, m: nat, w: string, t: string)
    requires m < 100 && w == Grouped(Digits(v)) && t == TwoDigits(m)
    ensures FormatPrice(Number(v * 100 + m)) == Success(" " + w + "." + t + Rouble)
  {
    WholeAndCents(v, m);
    Pieces(v * 100 + m, w, t);
  }

  /** Kopecks split back into roubles and the remaining kopecks. */
  lemma WholeAndCents(v: nat, m: nat)
    requires m < 100
    ensures (v * 100 + m) / 100 == v && (v * 100 + m) % 100 == m
  {
  }

  /** `ReadPrice` gives an amount exactly when `format_price` prints that amount as the text. */
  lemma ReadPriceExactly(s: string, k: int)
    ensures ReadPrice(s) == Some(k) <==> FormatPrice(Number(k)) == Success(s)
  {
    if FormatPrice(Number(k)) == Success(s) {
      FormatPriceRoundTrip(k);
    }
    if ReadPrice(s) == Some(k) {
      ReadPriceSound(s);
    }
  }

  /** Whatever `ReadPrice` accepts is what `format_price` prints for the amount it reads. */
  lemma ReadPriceSound(s: string)
    requires ReadPrice(s).Some?
    ensures FormatPrice(Number(ReadPrice(s).value)) == Success(s)
  {
    var w, t := s[1..|s| - 5], s[|s| - 4..|s| - 2];
    TwoDigitsOfValue(t);
    PrintParts(Value(Ungroup(w)), Value(t), w, t);
    Layout(s);
    ReadShaped(s);
  }

  lemma {:induction false} ValueOfDigits(n: nat)
    ensures Value(Digits(n)) == n
  {
    var s := Digits(n);
    if n >= 10 {
      ValueOfDigits(n / 10);
      assert s[..|s| - 1] == Digits(n / 10);
    } else {
      assert s[..|s| - 1] == [];
    }
  }

  lemma ValueOfTwoDigits(m: nat)
    requires m < 100
    ensures Value(TwoDigits(m)) == m
  {
    var s := TwoDigits(m);
    var hi := [DigitChar(m / 10)];
    assert s[..|s| - 1] == hi;
    assert hi[..|hi| - 1] == [];
    assert Value(hi) == m / 10;
  }

  lemma {:induction false} UngroupConcat(a: string, b: string)
    ensures Ungroup(a + b) == Ungroup(a) + Ungroup(b)
    decreases |b|
  {
    if b == [] {
      assert a + b == a;
    } else {
      var b' := b[..|b| - 1];
      assert (a + b)[..|a + b| - 1] == a + b';
      UngroupConcat(a, b');
    }
  }

  lemma {:induction false} UngroupDigits(d: string)
    requires AllDigits(d)
    ensures Ungroup(d) == d
    decreases |d|
  {
    if d != [] {
      UngroupDigits(d[..|d| - 1]);
    }
  }

  /** Removing the grouping spaces gives back the digits. */
  lemma {:induction false} UngroupGrouped(d: string)
    requires AllDigits(d)
    ensures Ungroup(Grouped(d)) == d
    decreases |d|
  {
    if |d| <= 3 {
      UngroupDigits(d);
    } else {
      var hi, lo := d[..|d| - 3], d[|d| - 3..];
      assert AllDigits(hi) && AllDigits(lo);
      assert Grouped(d) == Grouped(hi) + " " + lo;
      UngroupSpaced(Grouped(hi), lo);
      UngroupGrouped(hi);
      UngroupDigits(lo);
      assert hi + lo == d;
    }
  }

  /** A grouping space between two parts disappears. */
  lemma UngroupSpaced(g: string, lo: string)
    ensures Ungroup(g + " " + lo) == Ungroup(g) + Ungroup(lo)
  {
    assert Ungroup(" ") == [] by {
      assert " "[..0] == [];
    }
    UngroupConcat(g + " ", lo);
    UngroupConcat(g, " ");
  }

  /** The pieces of a formatted price sit where `ReadPrice` looks for them. */
  lemma Slices(g: string, t: string)
    requires |t| == 2
    ensures var s := " " + g + "." + t + Rouble;
      s[1..|s| - 5] == g && s[|s| - 4..|s| - 2] == t && s[|s| - 5] == '.' && s[|s| - 2..] == Rouble
  {
    var s := " " + g + "." + t + Rouble;
    assert s == [' '] + g + ['.'] + t + Rouble;
  }

  /** A printed price has the printed shape, and its two parts read back as the roubles and kopecks. */
  lemma PrintedParts(v: nat, m: nat)
    requires m < 100
    ensures var s := " " + Grouped(Digits(v)) + "." + TwoDigits(m) + Rouble;
      && PrintedShape(s)
      && Value(Ungroup(s[1..|s| - 5])) == v && Value(s[|s| - 4..|s| - 2]) == m
  {
    var d := Digits(v);
    var g, t := Grouped(d), TwoDigits(m);
    var s := " " + g + "." + t + Rouble;
    Slices(g, t);
    UngroupGrouped(d);
    ValueOfDigits(v);
    ValueOfTwoDigits(m);
    assert s[1..|s| - 5] == g && Ungroup(g) == d && Value(d) == v;
  }

  /** Every formatted price reads back as the amount it was made from. */
  lemma FormatPriceRoundTrip(k: nat)
    ensures FormatPrice(Number(k)).Success?
    ensures ReadPrice(FormatPrice(Number(k)).value) == Some(k)
  {
    var v, m := k / 100, k % 100;
    Recompose(k);
    var s := " " + Grouped(Digits(v)) + "." + TwoDigits(m) + Rouble;
    Pieces(k, Grouped(Digits(v)), TwoDigits(m));
    PrintedParts(v, m);
    ReadShaped(s);
  }

  /** An amount is its roubles and its kopecks put back together. */
  lemma Recompose(k: nat)
    ensures k % 100 < 100 && k / 100 * 100 + k % 100 == k
  {
  }

  /** A text of the printed shape reads as its whole part in roubles and its decimals in kopecks. */
  lemma ReadShaped(s: string)
    requires PrintedShape(s)
    ensures ReadPrice(s) == Some(Value(Ungroup(s[1..|s| - 5])) * 100 + Value(s[|s| - 4..|s| - 2]))
  {
  }

  /** Two different amounts never print alike. */
  lemma FormatPriceInjective(j: nat, k: nat)
    requires FormatPrice(Number(j)) == FormatPrice(Number(k))
    ensures j == k
  {
    FormatPriceRoundTrip(j);
    FormatPriceRoundTrip(k);
  }

  /** A formatted price assembled from given digit strings. */
  lemma Pieces(k: nat, grouped: string, decimals: string)
    requires Grouped(Digits(k / 100)) == grouped && TwoDigits(k % 100) == decimals
    ensures FormatPrice(Number(k)) == Success(" " + grouped + "." + decimals + Rouble)
  {
  }

  /** Appending a digit to a positive number appends its character. */
  lemma AppendDigit(n: nat, d: nat)
    requires n >= 1 && d < 10
    ensures Digits(n * 10 + d) == Digits(n) + [DigitChar(d)]
  {
    assert (n * 10 + d) / 10 == n && (n * 10 + d) % 10 == d;
  }

  lemma DigitsOfThousand()
    ensures Digits(1000) == "1000"
  {
    assert DigitChar(0) == '0' && Digits(1) == "1";
    AppendDigit(1, 0);
    AppendDigit(10, 0);
    AppendDigit(100, 0);
  }

  lemma GroupedThousand()
    ensures Grouped("1000") == "1 000"
  {
    assert "1000"[..1] == "1" && "1000"[1..] == "000";
  }

  /** `format_price(1000)` and `format_price(-100)`, with amounts in kopecks. */
  lemma FormatThousand()
    ensures FormatPrice(Number(100000)) == Success(" 1 000.00 \U{20BD}")
    ensures FormatPrice(Number(-10000)) == Failure(Negative)
  {
    DigitsOfThousand();
    GroupedThousand();
    Pieces(100000, "1 000", "00");
    assert " " + "1 000" + "." + "00" + Rouble == " 1 000.00 \U{20BD}";
  }

  lemma DigitsOf1234()
    ensures Digits(1234) == "1234"
  {
    assert DigitChar(2) == '2' && DigitChar(3) == '3' && DigitChar(4) == '4' && Digits(1) == "1";
    AppendDigit(1, 2);
    AppendDigit(12, 3);
    AppendDigit(123, 4);
  }

  lemma Grouped1234()
    ensures Grouped("1234") == "1 234"
  {
    assert "1234"[..1] == "1" && "1234"[1..] == "234";
  }

  /** `format_price(1234.56)`, with the amount in kopecks. */
  lemma FormatWithKopecks()
    ensures FormatPrice(Number(123456)) == Success(" 1 234.56 \U{20BD}")
  {
    DigitsOf1234();
    Grouped1234();
    Pieces(123456, "1 234", "56");
    assert " " + "1 234" + "." + "56" + Rouble == " 1 234.56 \U{20BD}";
  }

  /** `format_price(0)`. */
  lemma FormatZero()
    ensures FormatPrice(Number(0)) == Success(" 0.00 \U{20BD}")
  {
    Pieces(0, "0", "00");
    assert " " + "0" + "." + "00" + Rouble == " 0.00 \U{20BD}";
  }

  lemma DigitsOfMillion()
    ensures Digits(1000000) == "1000000"
  {
    DigitsOfThousand();
    AppendDigit(1000, 0);
    AppendDigit(10000, 0);
    AppendDigit(100000, 0);
  }

  lemma GroupedMillion()
    ensures Grouped("1000000") == "1 000 000"
  {
    var d := "1000000";
    assert d[..4] == "1000" && d[4..] == "000";
    GroupedThousand();
  }

  /** `format_price(1000000)`, with the amount in kopecks. */
  lemma FormatMillion()
    ensures FormatPrice(Number(100000000)) == Success(" 1 000 000.00 \U{20BD}")
  {
    DigitsOfMillion();
    GroupedMillion();
    Pieces(100000000, "1 000 000", "00");
    assert " " + "1 000 000" + "." + "00" + Rouble == " 1 000 000.00 \U{20BD}";
  }
}
