/**
 * The payment dialog: the card-number formatter (keep the ASCII digits, take
 * at most 16, group them in fours separated by single spaces), the CVV filter,
 * and the form fields those handlers update.
 */
module Payment {

  import opened Wrappers
  import opened Checkout
  import opened Strings

  predicate IsDigit(c: char)
  {
    '0' <= c <= '9'
  }

  predicate AllDigits(s: string)
  {
    forall i :: 0 <= i < |s| ==> IsDigit(s[i])
  }

  function Min(a: int, b: int): int
  {
    if a <= b then a else b
  }

  /**
   * The input with every character other than an ASCII digit dropped. Dropping
   * whitespace first, as the source also does, changes nothing.
   */
  function Digits(s: string): (d: string)
    ensures AllDigits(d)
    ensures |d| <= |s|
    ensures AllDigits(s) ==> d == s
    ensures forall c :: c in d <==> c in s && IsDigit(c)
  {
    if s == [] then []
    else (if IsDigit(s[0]) then [s[0]] else []) + Digits(s[1..])
  }

  /**
   * The first match of `\d{4,16}` in an all-digit string (the formatter only
   * applies it to the digits it kept): the longest run of four to sixteen digits
   * starting at the front, or nothing when there are fewer than four.
   */
  function FirstMatch(v: string): (m: string)
    requires AllDigits(v)
    ensures |v| >= 4 ==> m <= v && 4 <= |m| <= 16 && (|m| < 16 ==> m == v)
    ensures |v| < 4 ==> m == []
  {
    if |v| >= 4 then v[..Min(16, |v|)] else []
  }

  /** The pieces `substring(i, i + 4)` for i = 0, 4, 8, ... below the length. */
  function Groups(m: string): seq<string>
    decreases |m|
  {
    if m == [] then []
    else if |m| <= 4 then [m]
    else [m[..4]] + Groups(m[4..])
  }

  /** What the formatter returns for `value`. */
  function CardNumberFormat(value: string): string
  {
    var v := Digits(value);
    var parts := Groups(FirstMatch(v));
    if |parts| > 0 then JoinWithSpaces(parts) else v
  }

  /** The groups from position `i` on: the piece there, then the groups after it. */
  lemma GroupsStep(m: string, i: nat)
    requires i < |m|
    ensures Groups(m[i..]) == [m[i..Min(i + 4, |m|)]] + Groups(m[Min(i + 4, |m|)..])
  {
    var rest := m[i..];
    if |rest| <= 4 {
      assert m[i..Min(i + 4, |m|)] == rest && m[Min(i + 4, |m|)..] == [];
    } else {
      assert m[i..Min(i + 4, |m|)] == rest[..4] && m[Min(i + 4, |m|)..] == rest[4..];
    }
  }

  /** The formatter as written: the groups are pushed one at a time in a loop. */
  method FormatCardNumber(value: string) returns (r: string)
    ensures r == CardNumberFormat(value)
  {
    var v := Digits(value);
    var found := FirstMatch(v);
    var parts: seq<string> := [];
    var i, len := 0, |found|;
    while i < len
      invariant 0 <= i
      invariant parts + Groups(found[Min(i, len)..]) == Groups(found)
    {
      var piece := found[i..Min(i + 4, len)];
      GroupsStep(found, i);
      assert (parts + [piece]) + Groups(found[Min(i + 4, len)..]) == parts + Groups(found[i..]);
      parts := parts + [piece];
      i := i + 4;
    }
    assert found[Min(i, len)..] == [];
    assert parts + [] == parts;
    assert parts == Groups(found);
    if |parts| > 0 {
      r := JoinWithSpaces(parts);
    } else {
      r := v;
    }
  }

  // ---------------------------------------------------------------------------
  // Facts about the pieces

  lemma {:induction false} DigitsConcat(a: string, b: string)
    ensures Digits(a + b) == Digits(a) + Digits(b)
  {
    if a == [] {
      assert a + b == b;
    } else {
      assert (a + b)[1..] == a[1..] + b;
      DigitsConcat(a[1..], b);
    }
  }

  lemma {:induction false} GroupsNonEmpty(m: string)
    ensures |Groups(m)| > 0 <==> m != []
  {
  }

  /** Joined groups, character by character: a space after every fourth digit. */
  lemma {:induction false} JoinGroupsAt(m: string)
    requires m != []
    decreases |m|
    ensures |JoinWithSpaces(Groups(m))| == |m| + (|m| - 1) / 4
    ensures forall k :: 0 <= k < |JoinWithSpaces(Groups(m))| ==>
      JoinWithSpaces(Groups(m))[k] == if k % 5 == 4 then ' ' else m[k - k / 5]
  {
    var r := JoinWithSpaces(Groups(m));
    if |m| <= 4 {
      assert r == m;
    } else {
      var tail := m[4..];
      JoinGroupsAt(tail);
      var g := Groups(tail);
      assert Groups(m) == [m[..4]] + g;
      assert |g| > 0;
      assert ([m[..4]] + g)[1..] == g;
      var t := JoinWithSpaces(g);
      assert r == m[..4] + " " + t;
      forall k | 0 <= k < |r| ensures r[k] == if k % 5 == 4 then ' ' else m[k - k / 5] {
        if k >= 5 {
          assert r[k] == t[k - 5];
          assert (k - 5) % 5 == k % 5 && (k - 5) / 5 == k / 5 - 1;
        }
      }
    }
  }

  /** A block of digits, a space, and the rest: only the space is dropped from the front. */
  lemma DigitsBlockSpace(a: string, rest: string)
    requires AllDigits(a)
    ensures Digits(a + " " + rest) == a + Digits(rest)
  {
    assert Digits(a) == a;
    assert " "[1..] == [] && !IsDigit(' ');
    assert Digits(" ") == [];
    DigitsConcat(a, " ");
    assert Digits(a + " ") == a;
    DigitsConcat(a + " ", rest);
  }

  lemma {:induction false} DigitsJoinGroups(m: string)
    requires AllDigits(m)
    decreases |m|
    ensures Digits(JoinWithSpaces(Groups(m))) == m
  {
    if |m| > 4 {
      var a, g := m[..4], Groups(m[4..]);
      GroupsNonEmpty(m[4..]);
      assert ([a] + g)[1..] == g;
      assert JoinWithSpaces(Groups(m)) == a + " " + JoinWithSpaces(g);
      DigitsJoinGroups(m[4..]);
      DigitsBlockSpace(a, JoinWithSpaces(g));
      assert m == a + m[4..];
    }
  }

  // ---------------------------------------------------------------------------
  // What the formatter promises

  /** The output holds only ASCII digits and spaces. */
  lemma FormatCharset(value: string)
    ensures forall k :: 0 <= k < |CardNumberFormat(value)| ==>
      IsDigit(CardNumberFormat(value)[k]) || CardNumberFormat(value)[k] == ' '
  {
    var v := Digits(value);
    if |v| >= 4 {
      var m := FirstMatch(v);
      JoinGroupsAt(m);
    }
  }

  /** Fewer than four digits come back as they are, with no space. */
  lemma FormatShort(value: string)
    requires |Digits(value)| < 4
    ensures CardNumberFormat(value) == Digits(value)
    ensures ' ' !in CardNumberFormat(value)
  {
  }

  /**
   * With four digits or more, the output is the first min(16, n) digits with a
   * single space after every fourth one: groups of four and a last group of one
   * to four.
   */
  lemma FormatGroupsOfFour(value: string)
    requires |Digits(value)| >= 4
    ensures var d := Digits(value); var m := Min(16, |d|); var r := CardNumberFormat(value);
      |r| == m + (m - 1) / 4 &&
      forall k :: 0 <= k < |r| ==> r[k] == if k % 5 == 4 then ' ' else d[k - k / 5]
  {
    var d := Digits(value);
    var m := FirstMatch(d);
    GroupsNonEmpty(m);
    JoinGroupsAt(m);
  }

  /** Dropping the spaces from the output gives the first min(16, n) digits of the input. */
  lemma FormatKeepsLeadingDigits(value: string)
    ensures var d := Digits(value); Digits(CardNumberFormat(value)) == d[..Min(16, |d|)]
  {
    var d := Digits(value);
    if |d| >= 4 {
      var m := FirstMatch(d);
      GroupsNonEmpty(m);
      DigitsJoinGroups(m);
    } else {
      assert d[..Min(16, |d|)] == d;
    }
  }

  /** The output is at most 19 characters, so the length guard of the handler always passes. */
  lemma FormatLength(value: string)
    ensures |CardNumberFormat(value)| <= 19
  {
    if |Digits(value)| >= 4 {
      FormatGroupsOfFour(value);
    }
  }

  /** Formatting a formatted number changes nothing. */
  lemma FormatIdempotent(value: string)
    ensures CardNumberFormat(CardNumberFormat(value)) == CardNumberFormat(value)
  {
    var d := Digits(value);
    var r := CardNumberFormat(value);
    FormatKeepsLeadingDigits(value);
    if |d| >= 4 {
      var m := FirstMatch(d);
      assert Digits(r) == m;
      assert FirstMatch(m) == m;
    }
  }

  // ---------------------------------------------------------------------------
  // The form

  class PaymentForm {

    var cardNumber: string
    var expiryMonth: string
    var expiryYear: string
    var cvv: string
    var cardholderName: string
    var billingAddress: string
    var isProcessing: bool

    /** The stored card number is already formatted; the CVV is at most four digits. */
    ghost predicate Valid()
      reads this
    {
      CardNumberFormat(cardNumber) == cardNumber && AllDigits(cvv) && |cvv| <= 4
    }

    /** Empty fields; the billing address defaults to the delivery address of the snapshot, if any. */
    constructor (checkoutData: Option<CheckoutData>)
      ensures Valid() && !isProcessing
      ensures cardNumber == "" && expiryMonth == "" && expiryYear == "" && cvv == "" && cardholderName == ""
      ensures billingAddress == if checkoutData.Some? then checkoutData.value.deliveryInfo.address else ""
    {
      cardNumber, expiryMonth, expiryYear, cvv, cardholderName := "", "", "", "", "";
      billingAddress := if checkoutData.Some? && checkoutData.value.deliveryInfo.address != ""
        then checkoutData.value.deliveryInfo.address else "";
      isProcessing := false;
    }

    /** The card-number input stores the formatted value; no other field changes. */
    method HandleCardNumberChange(input: string)
      requires Valid()
      requires !isProcessing
      modifies this
      ensures Valid()
      ensures cardNumber == CardNumberFormat(input)
      ensures expiryMonth == old(expiryMonth) && expiryYear == old(expiryYear) && cvv == old(cvv)
      ensures cardholderName == old(cardholderName) && billingAddress == old(billingAddress)
      ensures isProcessing == old(isProcessing)
    {
      var formatted := FormatCardNumber(input);
      FormatLength(input);
      FormatIdempotent(input);
      if |formatted| <= 19 {
        cardNumber := formatted;
      }
    }

    /** The CVV input keeps the digits; more than four leave the previous CVV. No other field changes. */
    method HandleCvvChange(input: string)
      requires Valid()
      requires !isProcessing
      modifies this
      ensures Valid()
      ensures cvv == if |Digits(input)| <= 4 then Digits(input) else old(cvv)
      ensures cardNumber == old(cardNumber) && expiryMonth == old(expiryMonth) && expiryYear == old(expiryYear)
      ensures cardholderName == old(cardholderName) && billingAddress == old(billingAddress)
      ensures isProcessing == old(isProcessing)
    {
      var value := Digits(input);
      if |value| <= 4 {
        cvv := value;
      }
    }

    /** "Pay", enabled only while no payment is processing: the form is locked until the simulated delay ends. */
    method HandlePayment()
      requires Valid()
      requires !isProcessing
      modifies this
      ensures Valid() && isProcessing
      ensures cardNumber == old(cardNumber) && expiryMonth == old(expiryMonth) && expiryYear == old(expiryYear)
      ensures cvv == old(cvv) && cardholderName == old(cardholderName) && billingAddress == old(billingAddress)
    {
      isProcessing := true;
    }

    /**
     * The processing delay ends: the form unlocks. The completion callback the
     * timer then calls belongs to the page; `Page.App.PaymentDelayEnds` runs both.
     */
    method ProcessingDone()
      requires Valid()
      modifies this
      ensures Valid() && !isProcessing
      ensures cardNumber == old(cardNumber) && expiryMonth == old(expiryMonth) && expiryYear == old(expiryYear)
      ensures cvv == old(cvv) && cardholderName == old(cardholderName) && billingAddress == old(billingAddress)
    {
      isProcessing := false;
    }
  }
}
