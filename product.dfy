/** The product page: looking the product up by the id in the query string, the 1..99
    quantity stepper over the text of the quantity input, the review form's star labels and
    the product's star string. */
module ProductPage {
  import opened Wrappers
  import opened Products
  import opened Strings

  const MIN_QUANTITY: int := 1
  const MAX_QUANTITY: int := 99
  const MAX_RATING_STARS: int := 5

  // ---------------------------------------------------------------------------
  // Lookup
  // ---------------------------------------------------------------------------

  /** `getProductById(products, productId)`: the first product with that id. The id comes
      from the query string and is `None` when the page has no `id` parameter; then no
      product matches. */
  function GetProductById(products: seq<Product>, productId: Option<string>): (r: Option<Product>)
    ensures r.Some? ==> productId == Some(r.value.id)
    ensures r.Some? ==> exists i :: 0 <= i < |products| && products[i] == r.value
                                    && forall j :: 0 <= j < i ==> products[j].id != r.value.id
    ensures r.None? ==> productId.None? || forall i :: 0 <= i < |products| ==> products[i].id != productId.value
  {
    if products == [] || productId.None? then None
    else if products[0].id == productId.value then Some(products[0])
    else
      var r := GetProductById(products[1..], productId);
      assert r.Some? ==> exists i :: 0 <= i < |products| && products[i] == r.value
                                    && forall j :: 0 <= j < i ==> products[j].id != r.value.id by {
        if r.Some? {
          var i :| 0 <= i < |products[1..]| && products[1..][i] == r.value
                   && forall j :: 0 <= j < i ==> products[1..][j].id != r.value.id;
          assert products[i + 1] == r.value;
        }
      }
      r
  }

  // ---------------------------------------------------------------------------
  // Quantity stepper
  // ---------------------------------------------------------------------------

  /** `getQuantityValue`: the parsed integer, or 1 when the text does not parse or parses
      to 0 (both falsy). */
  function QuantityValue(value: string): (q: int)
    ensures q != 0
    ensures ParseInt(value).Some? && ParseInt(value).value != 0 ==> q == ParseInt(value).value
    ensures ParseInt(value).None? || ParseInt(value).value == 0 ==> q == MIN_QUANTITY
  {
    match ParseInt(value)
    case Some(n) => if n != 0 then n else MIN_QUANTITY
    case None => MIN_QUANTITY
  }

  /** The quantity read back from the text of a non-zero integer is that integer. */
  lemma QuantityValueRoundTrip(n: int)
    requires n != 0
    ensures QuantityValue(IntToString(n)) == n
  {
    ParseIntToString(n);
  }

  /** The input's text after a click on minus. */
  function AfterMinus(value: string): string {
    var current := QuantityValue(value);
    if current > MIN_QUANTITY then IntToString(current - 1) else value
  }

  /** The input's text after a click on plus. */
  function AfterPlus(value: string): string {
    var current := QuantityValue(value);
    if current < MAX_QUANTITY then IntToString(current + 1) else value
  }

  /** The input's text after the `input` handler. */
  function AfterInput(value: string): string {
    match ParseInt(value)
    case None => IntToString(MIN_QUANTITY)
    case Some(n) =>
      if n < MIN_QUANTITY then IntToString(MIN_QUANTITY)
      else if n > MAX_QUANTITY then IntToString(MAX_QUANTITY)
      else value
  }

  /** The input's text after the `blur` handler. */
  function AfterBlur(value: string): string {
    if value == "" || QuantityValue(value) < MIN_QUANTITY then IntToString(MIN_QUANTITY) else value
  }

  /** The quantity the input shows lies in 1..99. */
  predicate InRange(value: string) {
    MIN_QUANTITY <= QuantityValue(value) <= MAX_QUANTITY
  }

  /** Minus lowers the quantity by one when it is above 1 and otherwise leaves the text
      alone, so it never produces a quantity below 1. */
  lemma MinusStep(value: string)
    ensures QuantityValue(value) > MIN_QUANTITY ==> QuantityValue(AfterMinus(value)) == QuantityValue(value) - 1
    ensures QuantityValue(value) <= MIN_QUANTITY ==> AfterMinus(value) == value
    ensures AfterMinus(value) != value ==> QuantityValue(AfterMinus(value)) >= MIN_QUANTITY
  {
    var current := QuantityValue(value);
    if current > MIN_QUANTITY {
      QuantityValueRoundTrip(current - 1);
    }
  }

  /** Plus raises the quantity by one when it is below 99 and otherwise leaves the text
      alone, so it never produces a quantity above 99. From -1 it writes "0", which reads
      back as the fallback 1, a jump of two. */
  lemma PlusStep(value: string)
    ensures QuantityValue(value) < MAX_QUANTITY && QuantityValue(value) != -1 ==>
              QuantityValue(AfterPlus(value)) == QuantityValue(value) + 1
    ensures QuantityValue(value) >= MAX_QUANTITY ==> AfterPlus(value) == value
    ensures AfterPlus(value) != value ==> QuantityValue(AfterPlus(value)) <= MAX_QUANTITY
    ensures QuantityValue(value) == -1 ==> AfterPlus(value) == "0" && QuantityValue(AfterPlus(value)) == MIN_QUANTITY
  {
    var current := QuantityValue(value);
    if current < MAX_QUANTITY && current != -1 {
      QuantityValueRoundTrip(current + 1);
    } else if current == -1 {
      ZeroText();
    }
  }

  /** The text of 0, which reads back as 0 and so as the fallback quantity. */
  lemma ZeroText()
    ensures IntToString(0) == "0" && ParseInt("0") == Some(0)
  {
    assert IntToString(0) == [DigitChar(0)];
    ParseIntToString(0);
  }

  /** The input handler puts text that does not parse or parses below 1 at "1", text above
      99 at "99", and keeps text in 1..99 as typed; afterwards the quantity is in 1..99,
      and a second run changes nothing. */
  lemma InputClamps(value: string)
    ensures ParseInt(value).None? || ParseInt(value).value < MIN_QUANTITY ==> AfterInput(value) == "1"
    ensures ParseInt(value).Some? && ParseInt(value).value > MAX_QUANTITY ==> AfterInput(value) == "99"
    ensures ParseInt(value).Some? && MIN_QUANTITY <= ParseInt(value).value <= MAX_QUANTITY ==> AfterInput(value) == value
    ensures ParseInt(AfterInput(value)).Some?
    ensures InRange(AfterInput(value)) && QuantityValue(AfterInput(value)) == ParseInt(AfterInput(value)).value
    ensures AfterInput(AfterInput(value)) == AfterInput(value)
  {
    BoundTexts();
    KeptText("1");
    KeptText("99");
    match ParseInt(value)
    case None =>
    case Some(n) =>
      if MIN_QUANTITY <= n <= MAX_QUANTITY {
        KeptText(value);
      }
  }

  /** Text that parses to a quantity in 1..99 is kept by the input handler and shows that
      quantity. */
  lemma KeptText(text: string)
    requires ParseInt(text).Some? && MIN_QUANTITY <= ParseInt(text).value <= MAX_QUANTITY
    ensures AfterInput(text) == text && InRange(text) && QuantityValue(text) == ParseInt(text).value
  {
  }

  /** The texts of the two bounds, and what they parse to. */
  lemma BoundTexts()
    ensures IntToString(MIN_QUANTITY) == "1" && ParseInt("1") == Some(MIN_QUANTITY)
    ensures IntToString(MAX_QUANTITY) == "99" && ParseInt("99") == Some(MAX_QUANTITY)
  {
    MinText();
    MaxText();
  }

  lemma MinText()
    ensures IntToString(MIN_QUANTITY) == "1" && ParseInt("1") == Some(MIN_QUANTITY)
  {
    assert IntToString(1) == [DigitChar(1)];
    ParseIntToString(1);
  }

  lemma MaxText()
    ensures IntToString(MAX_QUANTITY) == "99" && ParseInt("99") == Some(MAX_QUANTITY)
  {
    assert IntToString(99) == [DigitChar(9)] + [DigitChar(9)];
    ParseIntToString(99);
  }

  /** Blur puts empty text, or text showing a quantity below 1, at "1"; afterwards the input
      is not empty and its quantity is at least 1; text that already showed a quantity of at
      least 1 is kept. */
  lemma BlurAtLeastOne(value: string)
    ensures value == "" || QuantityValue(value) < MIN_QUANTITY ==> AfterBlur(value) == "1"
    ensures AfterBlur(value) != "" && QuantityValue(AfterBlur(value)) >= MIN_QUANTITY
    ensures value != "" && QuantityValue(value) >= MIN_QUANTITY ==> AfterBlur(value) == value
    ensures AfterBlur(AfterBlur(value)) == AfterBlur(value)
  {
    MinText();
  }

  /** Every handler of the stepper keeps a quantity in 1..99 in 1..99. */
  lemma StepperKeepsRange(value: string)
    requires InRange(value)
    ensures InRange(AfterMinus(value)) && InRange(AfterPlus(value))
    ensures InRange(AfterInput(value)) && InRange(AfterBlur(value))
  {
    MinusStep(value);
    PlusStep(value);
    InputClamps(value);
    BlurAtLeastOne(value);
  }

  /** The quantity input of the product page, reduced to its text. */
  class QuantityInput {
    var value: string

    constructor (initial: string)
      ensures value == initial
    {
      value := initial;
    }

    /** The minus button's click handler. */
    method Minus()
      modifies this
      ensures value == AfterMinus(old(value))
    {
      var currentValue := QuantityValue(value);
      if currentValue > MIN_QUANTITY {
        value := IntToString(currentValue - 1);
      }
    }

    /** The plus button's click handler. */
    method Plus()
      modifies this
      ensures value == AfterPlus(old(value))
    {
      var currentValue := QuantityValue(value);
      if currentValue < MAX_QUANTITY {
        value := IntToString(currentValue + 1);
      }
    }

    /** The input's `input` handler. */
    method OnInput()
      modifies this
      ensures value == AfterInput(old(value))
    {
      var parsed := ParseInt(value);
      if parsed.None? || parsed.value < MIN_QUANTITY {
        value := IntToString(MIN_QUANTITY);
      } else if parsed.value > MAX_QUANTITY {
        value := IntToString(MAX_QUANTITY);
      }
    }

    /** The input's `blur` handler. */
    method OnBlur()
      modifies this
      ensures value == AfterBlur(old(value))
    {
      if value == "" || QuantityValue(value) < MIN_QUANTITY {
        value := IntToString(MIN_QUANTITY);
      }
    }
  }

  // ---------------------------------------------------------------------------
  // Review stars
  // ---------------------------------------------------------------------------

  /** `updateStarRating(starLabels, selectedIndex)`: `active[i]` is label i's "active"
      class, set exactly on the labels up to the selected one. */
  method UpdateStarRating(active: array<bool>, selectedIndex: int)
    modifies active
    ensures forall i :: 0 <= i < active.Length ==> active[i] == (i <= selectedIndex)
  {
    var labelIndex := 0;
    while labelIndex < active.Length
      invariant 0 <= labelIndex <= active.Length
      invariant forall i :: 0 <= i < labelIndex ==> active[i] == (i <= selectedIndex)
    {
      if labelIndex <= selectedIndex {
        active[labelIndex] := true;
      } else {
        active[labelIndex] := false;
      }
      labelIndex := labelIndex + 1;
    }
  }

  /** `resetStarRating(starLabels)`: no label stays active. */
  method ResetStarRating(active: array<bool>)
    modifies active
    ensures forall i :: 0 <= i < active.Length ==> !active[i]
  {
    var labelIndex := 0;
    while labelIndex < active.Length
      invariant 0 <= labelIndex <= active.Length
      invariant forall i :: 0 <= i < labelIndex ==> !active[i]
    {
      active[labelIndex] := false;
      labelIndex := labelIndex + 1;
    }
  }

  // ---------------------------------------------------------------------------
  // Product rating
  // ---------------------------------------------------------------------------

  const FULL_STAR: char := '\U{2605}'
  const EMPTY_STAR: char := '\U{2606}'

  /** `c.repeat(n)`. */
  function Repeat(c: char, n: nat): (r: string)
    ensures |r| == n && forall i :: 0 <= i < n ==> r[i] == c
  {
    if n == 0 then [] else [c] + Repeat(c, n - 1)
  }

  /** What `updateProductRating` does to the stars element: a rating of 0 is falsy and leaves
      it alone; a rating outside 0..5 makes one of the two `repeat` counts negative, which
      throws a `RangeError`. */
  datatype StarDisplay = Unchanged | Stars(text: string) | RangeError

  function StarText(rating: int): StarDisplay {
    if rating == 0 then Unchanged
    else
      var fullStars := rating;
      var emptyStars := MAX_RATING_STARS - fullStars;
      if fullStars < 0 || emptyStars < 0 then RangeError
      else Stars(Repeat(FULL_STAR, fullStars) + Repeat(EMPTY_STAR, emptyStars))
  }

  /** A rating from 1 to 5 shows that many full stars followed by empty ones, five in all;
      any other non-zero rating throws. */
  lemma StarTextCounts(rating: int)
    ensures StarText(rating).Stars? <==> 1 <= rating <= MAX_RATING_STARS
    ensures StarText(rating).Unchanged? <==> rating == 0
    ensures StarText(rating).Stars? ==>
              var text := StarText(rating).text;
              |text| == MAX_RATING_STARS
              && forall i :: 0 <= i < |text| ==> text[i] == (if i < rating then FULL_STAR else EMPTY_STAR)
  {
  }
}
