/**
 * Phone-number handling of the RSVP form (app/page.tsx): the digits kept from what
 * the user typed, and their rendering as `+1 (XXX)-XXX-XXXX`.
 */
module Phone {
  import opened Text

  /** `formatPhoneNumber`: render up to ten digits as `+1 (XXX)-XXX-XXXX`. */
  function FormatPhoneNumber(d: string): (r: string)
    ensures r == "" <==> d == ""
    ensures d != "" ==> StartsWith(r, "+1 (")
  {
    if d == [] then ""
    else
      "+1 (" + d[..Min(3, |d|)] + ")"
      + (if |d| > 3
         then "-" + d[3..Min(6, |d|)] + (if |d| > 6 then "-" + d[6..Min(10, |d|)] else "")
         else "")
  }

  /** The formatted text carries the country digit 1 followed by the first ten digits,
      and nothing else that is a digit. */
  lemma FormattedDigits(d: string)
    requires AllDigits(d)
    ensures Digits(FormatPhoneNumber(d)) == if d == "" then "" else "1" + d[..Min(10, |d|)]
  {
    if d != [] {
      if |d| <= 3 {
        HeadDigits(d);
        assert FormatPhoneNumber(d) == "+1 (" + d + ")";
        assert d[..Min(10, |d|)] == d;
      } else {
        LongFormattedDigits(d);
      }
    }
  }

  /** The area code, exchange and line number of a formatted number of more than three digits. */
  lemma LongFormattedDigits(d: string)
    requires AllDigits(d) && |d| > 3
    ensures Digits(FormatPhoneNumber(d)) == "1" + d[..Min(10, |d|)]
  {
    var tail := if |d| > 6 then "-" + d[6..Min(10, |d|)] else "";
    TailDigits(d);
    PartsDigits(d[..3], d[3..Min(6, |d|)], tail);
    SlicesJoin(d, 3, Min(6, |d|), Min(10, |d|));
  }

  /** The digits after the exchange: the line number, dash dropped. */
  lemma TailDigits(d: string)
    requires AllDigits(d) && |d| > 3
    ensures Digits(if |d| > 6 then "-" + d[6..Min(10, |d|)] else "") == d[Min(6, |d|)..Min(10, |d|)]
  {
    if |d| > 6 {
      DashDigits(d[6..Min(10, |d|)]);
    }
  }

  lemma SlicesJoin(s: string, i: nat, j: nat, k: nat)
    requires i <= j <= k <= |s|
    ensures "1" + s[..i] + s[i..j] + s[j..k] == "1" + s[..k]
  {
  }

  lemma PartsDigits(a: string, b: string, tail: string)
    requires AllDigits(a) && AllDigits(b)
    ensures Digits("+1 (" + a + ")" + ("-" + b + tail)) == "1" + a + b + Digits(tail)
  {
    HeadDigits(a);
    DashDigits(b);
    DigitsAppend("-" + b, tail);
    DigitsAppend("+1 (" + a + ")", "-" + b + tail);
  }

  lemma HeadDigits(a: string)
    requires AllDigits(a)
    ensures Digits("+1 (" + a + ")") == "1" + a
  {
    DigitsOfDigits(a);
    DigitsAppend("+1 (", a);
    DigitsAppend("+1 (" + a, ")");
    assert Digits("+1 (") == "1";
  }

  lemma DashDigits(b: string)
    requires AllDigits(b)
    ensures Digits("-" + b) == b
  {
    DigitsOfDigits(b);
    DigitsAppend("-", b);
  }

  /** The digits kept from a typed phone value (app/page.tsx lines 195-203): every non-digit
      is dropped, a leading 1 that belongs to a typed `+1` prefix is dropped, and at most
      ten digits remain. */
  function PhoneDigits(value: string): (d: string)
    ensures AllDigits(d) && |d| <= 10
  {
    var all := Digits(value);
    var national := if StartsWith(value, "+1") && StartsWith(all, "1") then all[1..] else all;
    national[..Min(10, |national|)]
  }

  /** The three inputs that reset the field when the user deletes back into the prefix. */
  predicate IsPrefixRemnant(value: string) {
    value == "+1 " || value == "+1" || value == "+"
  }

  /** The value the phone branch of `handleInputChange` stores for a typed `value`. */
  function StoredPhone(value: string): (r: string)
    ensures IsPrefixRemnant(value) ==> r == ""
    ensures r != "" ==> StartsWith(r, "+1 (")
  {
    if IsPrefixRemnant(value) then "" else FormatPhoneNumber(PhoneDigits(value))
  }

  /** The stored value is empty or at most ten digits after the `+1` country prefix. */
  lemma StoredPhoneHasAtMostTenDigits(value: string)
    ensures var r := StoredPhone(value);
      r == "" || (StartsWith(r, "+1 (") && exists n :: Digits(r) == "1" + n && 1 <= |n| <= 10)
  {
    var r := StoredPhone(value);
    if r != "" {
      var d := PhoneDigits(value);
      FormattedDigits(d);
      assert Digits(r) == "1" + d[..Min(10, |d|)];
    }
  }

  /** Reading back a formatted number gives its digits: the formatter's inverse. */
  lemma FormatIsInvertible(d: string)
    requires AllDigits(d) && |d| <= 10
    ensures PhoneDigits(FormatPhoneNumber(d)) == d
  {
    var r := FormatPhoneNumber(d);
    FormattedDigits(d);
    if d != [] {
      assert d[..Min(10, |d|)] == d;
      assert StartsWith(r, "+1");
    }
  }

  /** Feeding a stored value back through the phone branch stores the same string. */
  lemma StoredPhoneIdempotent(value: string)
    ensures StoredPhone(StoredPhone(value)) == StoredPhone(value)
  {
    var r := StoredPhone(value);
    if !IsPrefixRemnant(value) {
      FormatIsInvertible(PhoneDigits(value));
      if r != "" {
        assert !IsPrefixRemnant(r) by {
          assert |r| >= 4;
        }
      }
    }
  }

  /** The special reset case stores what the general path would store anyway. */
  lemma PrefixRemnantFormatsToEmpty(value: string)
    requires IsPrefixRemnant(value)
    ensures FormatPhoneNumber(PhoneDigits(value)) == ""
  {
    assert Digits(" ") == "" && Digits("+") == "";
    if value == "+1 " {
      DigitsAppend("+", "1 ");
      DigitsAppend("1", " ");
    } else if value == "+1" {
      DigitsAppend("+", "1");
    }
  }

  /** A complete ten-digit number has the full `+1 (XXX)-XXX-XXXX` shape. */
  lemma TenDigitShape(d: string)
    requires AllDigits(d) && |d| == 10
    ensures FormatPhoneNumber(d) == "+1 (" + d[..3] + ")-" + d[3..6] + "-" + d[6..]
    ensures |FormatPhoneNumber(d)| == 17
  {
  }
}
