/**
 The template helpers of the shop (shop/loft/templatetags/loft_tags.py):
 the discounted price shown on product cards, the thousands-grouping price
 formatter, and the query-string override used to keep filters across
 links.
 */
module LoftTags {
  import opened Common
  import opened Models

  // ------------------------------------------------------ discounted price

  /**
   The value get_discount_price formats: with a discount above 0 the price
   minus that percentage, otherwise the price itself. `None > 0` raises a
   TypeError.
   */
  function GetDiscountPrice(price: real, discount: Option<int>): (r: Result<real>)
    ensures discount.None? <==> r == Err(TypeError)
    ensures discount.Some? && discount.value > 0 ==> r.Ok? && r.value == price * (100 - discount.value) as real / 100.0
    ensures discount.Some? && discount.value <= 0 ==> r == Ok(price)
  {
    if discount.None? then Err(TypeError)
    else if discount.value > 0 then Ok(price - (price * discount.value as real) / 100.0)
    else Ok(price)
  }

  /** For a discount between 0 and 100 the shown price lies between 0 and the list price. */
  lemma DiscountPriceBounds(price: real, d: int)
    requires price >= 0.0 && 0 <= d <= 100
    ensures GetDiscountPrice(price, Some(d)).Ok?
    ensures 0.0 <= GetDiscountPrice(price, Some(d)).value <= price
  {
    EffectivePriceBounds(price, Some(d));
  }

  /**
   For a non-negative discount the shown price is what OrderProduct.get_total_price
   returns for one unit on its first reading.
   */
  lemma DiscountPriceAgreesWithLineTotal(price: real, d: int)
    requires d >= 0
    ensures GetDiscountPrice(price, Some(d)) == Ok(LineTotal(price, Some(d), 1))
  {
  }

  /**
   The two rules part ways on a negative discount: the model's truthiness
   test applies it as a surcharge, the tag's `> 0` test ignores it.
   */
  lemma NegativeDiscountDiffers()
    ensures GetDiscountPrice(1000.0, Some(-10)) == Ok(1000.0)
    ensures LineTotal(1000.0, Some(-10), 1) == 1100.0
  {
  }

  // ------------------------------------------------------- price formatter

  predicate IsDigit(c: char)
  {
    '0' <= c <= '9'
  }

  predicate AllDigits(s: string)
  {
    forall i | 0 <= i < |s| :: IsDigit(s[i])
  }

  function DigitChar(d: nat): (c: char)
    requires d < 10
    ensures IsDigit(c) && c as int - '0' as int == d
  {
    ('0' as int + d) as char
  }

  /** The decimal digits of n, without leading zeros. */
  function DecimalString(n: nat): (s: string)
    ensures |s| >= 1 && AllDigits(s)
    ensures s[0] == '0' ==> n == 0 && s == "0"
  {
    if n < 10 then [DigitChar(n)] else DecimalString(n / 10) + [DigitChar(n % 10)]
  }

  /** The number a string of decimal digits denotes. */
  function DigitsValue(s: string): nat
    requires AllDigits(s)
  {
    if s == [] then 0 else DigitsValue(s[..|s| - 1]) * 10 + (s[|s| - 1] as int - '0' as int)
  }

  /** DecimalString writes n: reading its digits back gives n. */
  lemma {:induction false} DecimalStringValue(n: nat)
    ensures DigitsValue(DecimalString(n)) == n
  {
    if n >= 10 {
      DecimalStringValue(n / 10);
      var s := DecimalString(n);
      assert s[..|s| - 1] == DecimalString(n / 10);
    }
  }

  /** Python's str() of an integer: an optional minus sign, then digits that read back as |n|. */
  function Str(n: int): (s: string)
    ensures n >= 0 ==> |s| >= 1 && AllDigits(s) && DigitsValue(s) == n
    ensures n >= 0 ==> (s[0] == '0' ==> s == "0")
    ensures n < 0 ==> |s| >= 2 && s[0] == '-' && AllDigits(s[1..]) && DigitsValue(s[1..]) == -n
    ensures n < 0 ==> s[1] != '0'
  {
    if n < 0 then
      DecimalStringValue(-n);
      assert ("-" + DecimalString(-n))[1..] == DecimalString(-n);
      "-" + DecimalString(-n)
    else
      DecimalStringValue(n);
      DecimalString(n)
  }

  /** Digits grouped in threes from the right, groups separated by one space. */
  function Group(s: string): (g: string)
    ensures |s| >= 1 ==> |g| == |s| + (|s| - 1) / 3
    ensures |s| <= 3 ==> g == s
    decreases |s|
  {
    if |s| <= 3 then s else Group(s[..|s| - 3]) + " " + s[|s| - 3..]
  }

  /**
   get_price on an integer, `f'{price:_}'.replace('_', ' ')`: taking the
   spaces back out gives Python's str(n).
   */
  function GetPrice(n: int): (s: string)
    ensures RemoveSpaces(s) == Str(n)
    ensures n >= 0 ==> |s| == |Str(n)| + (|Str(n)| - 1) / 3
    ensures n >= 0 ==> forall i | 0 <= i < |s| :: s[i] == ' ' <==> SpaceAt(|s|, i)
    ensures n < 0 ==> s[0] == '-' && |s| == |Str(n)| + (|Str(n)| - 2) / 3
  {
    var digits := if n < 0 then DecimalString(-n) else DecimalString(n);
    GroupRemoveSpaces(digits);
    GroupLayout(digits);
    if n < 0 then
      RemoveSpacesConcat("-", Group(digits));
      assert RemoveSpaces("-") == "-";
      "-" + Group(digits)
    else
      Group(digits)
  }

  function RemoveSpaces(s: string): string
  {
    if s == [] then []
    else RemoveSpaces(s[..|s| - 1]) + (if s[|s| - 1] == ' ' then [] else [s[|s| - 1]])
  }

  lemma {:induction false} RemoveSpacesConcat(a: string, b: string)
    ensures RemoveSpaces(a + b) == RemoveSpaces(a) + RemoveSpaces(b)
  {
    if b != [] {
      assert (a + b)[..|a + b| - 1] == a + b[..|b| - 1];
      assert (a + b)[|a + b| - 1] == b[|b| - 1];
      RemoveSpacesConcat(a, b[..|b| - 1]);
      var last := if b[|b| - 1] == ' ' then [] else [b[|b| - 1]];
      calc {
        RemoveSpaces(a + b);
        RemoveSpaces(a + b[..|b| - 1]) + last;
        (RemoveSpaces(a) + RemoveSpaces(b[..|b| - 1])) + last;
        RemoveSpaces(a) + (RemoveSpaces(b[..|b| - 1]) + last);
        RemoveSpaces(a) + RemoveSpaces(b);
      }
    } else {
      assert a + b == a;
    }
  }

  lemma {:induction false} RemoveSpacesNone(s: string)
    requires forall i | 0 <= i < |s| :: s[i] != ' '
    ensures RemoveSpaces(s) == s
  {
    if s != [] {
      RemoveSpacesNone(s[..|s| - 1]);
    }
  }

  /** Taking the spaces out of a grouped digit string gives the digits back. */
  lemma {:induction false} GroupRemoveSpaces(s: string)
    requires AllDigits(s)
    ensures RemoveSpaces(Group(s)) == s
  {
    if |s| <= 3 {
      RemoveSpacesNone(s);
    } else {
      var head, tail := s[..|s| - 3], s[|s| - 3..];
      GroupRemoveSpaces(head);
      RemoveSpacesConcat(Group(head) + " ", tail);
      RemoveSpacesConcat(Group(head), " ");
      RemoveSpacesNone(tail);
      assert RemoveSpaces(" ") == [];
      assert head + tail == s;
    }
  }

  /** Position i of a grouped string of length n holds a space. */
  predicate SpaceAt(n: int, i: int)
  {
    i > 0 && (n - i) % 4 == 0
  }

  /**
   The layout of a grouped digit string: one space per full group of three
   to the right of the first group, each space exactly where a multiple of
   four characters remains, and nowhere else.
   */
  lemma {:induction false} GroupLayout(s: string)
    requires |s| >= 1 && AllDigits(s)
    ensures forall i | 0 <= i < |Group(s)| :: Group(s)[i] == ' ' <==> SpaceAt(|Group(s)|, i)
  {
    if |s| > 3 {
      var head, tail := s[..|s| - 3], s[|s| - 3..];
      GroupLayout(head);
      var g := Group(head);
      assert Group(s) == g + " " + tail;
      forall i | 0 <= i < |Group(s)| ensures Group(s)[i] == ' ' <==> SpaceAt(|Group(s)|, i) {
        GroupLayoutStep(g, tail, i);
      }
    }
  }

  /** One step of GroupLayout: appending a space and a three-character group keeps the layout. */
  lemma GroupLayoutStep(g: string, tail: string, i: int)
    requires |g| >= 1 && |tail| == 3 && forall j | 0 <= j < 3 :: tail[j] != ' '
    requires forall j | 0 <= j < |g| :: g[j] == ' ' <==> SpaceAt(|g|, j)
    requires 0 <= i < |g| + 4
    ensures (g + " " + tail)[i] == ' ' <==> SpaceAt(|g| + 4, i)
  {
    var r := g + " " + tail;
    if i < |g| {
      assert r[i] == g[i];
      assert (|g| + 4 - i) % 4 == (|g| - i) % 4;
    } else if i == |g| {
      assert r[i] == ' ';
    } else {
      assert r[i] == tail[i - |g| - 1];
    }
  }

  lemma GetPriceExamples()
    ensures GetPrice(999) == "999"
    ensures GetPrice(1234567) == "1 234 567"
    ensures GetPrice(-1234) == "-1 234"
  {
    DecimalStringExamples();
    GroupExamples();
    assert GetPrice(-1234) == "-" + Group(DecimalString(1234));
    assert "-" + "1 234" == "-1 234";
  }

  lemma DecimalStringExamples()
    ensures DecimalString(999) == "999"
    ensures DecimalString(1234) == "1234"
    ensures DecimalString(1234567) == "1234567"
  {
    assert DecimalString(99) == "99";
    assert DecimalString(123) == "123";
    assert DecimalString(12345) == "12345";
    assert DecimalString(123456) == "123456";
  }

  lemma GroupExamples()
    ensures Group("999") == "999"
    ensures Group("1234") == "1 234"
    ensures Group("1234567") == "1 234 567"
  {
    var s := "1234";
    assert s[..1] == "1" && s[1..] == "234";
    var t := "1234567";
    assert t[..4] == "1234" && t[4..] == "567";
  }

  // ----------------------------------------------------- query parameters

  predicate IsKeyword(kwargs: seq<(string, string)>, key: string)
  {
    exists i | 0 <= i < |kwargs| :: kwargs[i].0 == key
  }

  /**
   The dictionary part of query_params: a copy of the request's query, with
   each keyword argument's key set to the single value given. Keyword
   arguments have distinct names.
   */
  method QueryParams(query: map<string, seq<string>>, kwargs: seq<(string, string)>) returns (q: map<string, seq<string>>)
    requires forall i, j | 0 <= i < j < |kwargs| :: kwargs[i].0 != kwargs[j].0
    ensures forall i | 0 <= i < |kwargs| :: kwargs[i].0 in q && q[kwargs[i].0] == [kwargs[i].1]
    ensures forall key | key in query && !IsKeyword(kwargs, key) :: key in q && q[key] == query[key]
    ensures forall key | key in q :: key in query || IsKeyword(kwargs, key)
  {
    q := query;
    var n := 0;
    while n < |kwargs|
      invariant 0 <= n <= |kwargs|
      invariant forall i | 0 <= i < n :: kwargs[i].0 in q && q[kwargs[i].0] == [kwargs[i].1]
      invariant forall key | key in query && !IsKeyword(kwargs[..n], key) :: key in q && q[key] == query[key]
      invariant forall key | key in q :: key in query || IsKeyword(kwargs[..n], key)
    {
      var (key, value) := kwargs[n];
      q := q[key := [value]];
      assert kwargs[..n + 1] == kwargs[..n] + [kwargs[n]];
      n := n + 1;
    }
    assert kwargs[..n] == kwargs;
  }
}
