/** The phone input mask of src/app/utils/phone-mask.directive.ts. */
module PhoneMask {
  import opened Wrappers
  import opened Text

  /** The most digits the mask keeps. */
  const MaxDigits: nat := 10

  /**
   * The mask with `sep` between the closing parenthesis and the prefix:
   * area, prefix and line groups of at most 3, 3 and 4 characters, cut
   * short as the input is. Only the first ten characters are read.
   */
  function FormatPhoneWith(value: string, sep: char): (r: string)
    ensures r == "" <==> value == ""
    ensures 1 <= |value| < 3 ==> r == "(" + value
    ensures |value| == 3 ==> r == "(" + value + ")"
    ensures 3 < |value| <= 6 ==> r == "(" + value[..3] + ")" + [sep] + value[3..]
    ensures 6 < |value| <= 10 ==> r == "(" + value[..3] + ")" + [sep] + value[3..6] + "-" + value[6..]
    ensures 10 <= |value| ==> r == "(" + value[..3] + ")" + [sep] + value[3..6] + "-" + value[6..10]
  {
    if value == "" then "" else
    var area := Substring(value, 0, 3);
    var prefix := Substring(value, 3, 6);
    var line := Substring(value, 6, 10);
    var formatted := if |area| > 0 then "(" + area else "";
    var formatted := if |area| == 3 then formatted + ")" else formatted;
    var formatted := if |prefix| > 0 then formatted + [sep] + prefix else formatted;
    if |line| > 0 then formatted + "-" + line else formatted
  }

  /**
   * `formatPhone`: the mask written `(AAA)-PPP-LLLL`, with a dash after
   * the area; `""` stays `""`.
   */
  function FormatPhone(value: string): (r: string)
    ensures r == "" <==> value == ""
    ensures 10 <= |value| ==> r == "(" + value[..3] + ")-" + value[3..6] + "-" + value[6..10]
  {
    FormatPhoneWith(value, '-')
  }

  /** Only the first ten characters of the argument matter. */
  lemma FormatPhoneReadsTen(value: string)
    ensures FormatPhone(value) == FormatPhone(value[..Min(|value|, MaxDigits)])
  {
    var v := value[..Min(|value|, MaxDigits)];
    if |value| > 10 {
      assert v[..3] == value[..3] && v[3..6] == value[3..6] && v[6..] == value[6..10];
    } else {
      assert v == value;
    }
  }

  /**
   * Taking the digits back out of the mask gives the digits that went in,
   * whatever non-digit separator follows the area.
   */
  lemma FormatPhoneWithRoundTrip(d: string, sep: char)
    requires AllDigits(d) && |d| <= MaxDigits && !IsDigit(sep)
    ensures Digits(FormatPhoneWith(d, sep)) == d
  {
    var n := |d|;
    if n == 0 {
    } else if n < 3 {
      SeparatorThenDigits("(", d);
    } else if n == 3 {
      FullAreaRoundTrip(d, sep);
    } else if n <= 6 {
      var a, p := d[..3], d[3..];
      AreaRoundTrip(a, p, sep);
      assert a + p == d;
    } else {
      LineRoundTrip(d, sep);
    }
  }

  /** The round trip of `formatPhone` itself. */
  lemma FormatPhoneRoundTrip(d: string)
    requires AllDigits(d) && |d| <= MaxDigits
    ensures Digits(FormatPhone(d)) == d
  {
    FormatPhoneWithRoundTrip(d, '-');
  }

  lemma FullAreaRoundTrip(d: string, sep: char)
    requires AllDigits(d) && |d| == 3
    ensures Digits(FormatPhoneWith(d, sep)) == d
  {
    var x := "(" + d;
    SeparatorThenDigits("(", d);
    DigitsAppend(x, ")");
    DigitsOfNonDigits(")");
  }

  lemma LineRoundTrip(d: string, sep: char)
    requires AllDigits(d) && 6 < |d| <= MaxDigits && !IsDigit(sep)
    ensures Digits(FormatPhoneWith(d, sep)) == d
  {
    var a, p, l := d[..3], d[3..6], d[6..];
    var head, tail := "(" + a + ")" + [sep] + p, "-" + l;
    AreaRoundTrip(a, p, sep);
    SeparatorThenDigits("-", l);
    DigitsAppend(head, tail);
    assert FormatPhoneWith(d, sep) == head + tail;
    assert a + p + l == d;
  }

  lemma SeparatorThenDigits(sep: string, d: string)
    requires forall i :: 0 <= i < |sep| ==> !IsDigit(sep[i])
    requires AllDigits(d)
    ensures Digits(sep + d) == d
  {
    DigitsAppend(sep, d);
    DigitsOfNonDigits(sep);
  }

  lemma AreaRoundTrip(a: string, p: string, sep: char)
    requires AllDigits(a) && AllDigits(p) && !IsDigit(sep)
    ensures Digits("(" + a + ")" + [sep] + p) == a + p
  {
    var x, y := "(" + a, ")" + [sep] + p;
    assert "(" + a + ")" + [sep] + p == x + y;
    SeparatorThenDigits("(", a);
    SeparatorThenDigits(")" + [sep], p);
    DigitsAppend(x, y);
  }

  /** Strip-then-reformat leaves a formatted number as it is. */
  lemma FormatPhoneIdempotent(d: string)
    requires AllDigits(d) && |d| <= MaxDigits
    ensures FormatPhone(Digits(FormatPhone(d))) == FormatPhone(d)
    ensures |Digits(FormatPhone(d))| <= MaxDigits
  {
    FormatPhoneRoundTrip(d);
  }

  /**
   * The punctuation of the mask: `(` once there is a digit, `)` once the
   * area is complete, a `-` before the prefix once there are more than 3
   * digits and another before the line once there are more than 6.
   */
  lemma FormatPhoneShape(d: string)
    requires AllDigits(d) && |d| <= MaxDigits
    ensures var r := FormatPhone(d);
      && ('(' in r <==> |d| >= 1)
      && (')' in r <==> |d| >= 3)
      && (|d| > 3 <==> |r| > 5 && r[4..6] == ")-")
      && (|d| > 6 <==> |r| > 9 && r[9] == '-')
      && Count(r, '-') == (if |d| > 3 then 1 else 0) + (if |d| > 6 then 1 else 0)
  {
    var r := FormatPhone(d);
    var n := |d|;
    assert forall i :: 0 <= i < n ==> d[i] != '(' && d[i] != ')' && d[i] != '-';
    CountInDigits(d, '-');
    if n == 0 {
    } else if n < 3 {
      assert r == ['('] + d;
      CountAppend(['('], d, '-');
    } else if n == 3 {
      assert r == ['('] + d + [')'];
      CountAppend(['('] + d, [')'], '-');
      CountAppend(['('], d, '-');
    } else {
      LongShape(d);
    }
  }

  /** `FormatPhoneShape` once the prefix group has started. */
  lemma LongShape(d: string)
    requires AllDigits(d) && 3 < |d| <= MaxDigits
    ensures var r := FormatPhone(d);
      && '(' in r && ')' in r && |r| > 5 && r[4..6] == ")-"
      && (|d| > 6 <==> |r| > 9 && r[9] == '-')
      && Count(r, '-') == 1 + (if |d| > 6 then 1 else 0)
  {
    var r := FormatPhone(d);
    var n := |d|;
    var a, p := d[..3], d[3..Min(n, 6)];
    assert AllDigits(a) && AllDigits(p);
    assert r[0] == '(' && r[4] == ')';
    var head := ['('] + a + [')', '-'] + p;
    HeadCount(a, p);
    if n <= 6 {
      assert r == head;
      assert |r| <= 9;
    } else {
      var l := d[6..];
      assert AllDigits(l);
      CountInDigits(l, '-');
      assert r == head + ['-'] + l;
      CountAppend(head + ['-'], l, '-');
      CountAppend(head, ['-'], '-');
    }
  }

  lemma HeadCount(a: string, p: string)
    requires AllDigits(a) && AllDigits(p)
    ensures Count(['('] + a + [')', '-'] + p, '-') == 1
  {
    CountInDigits(a, '-');
    CountInDigits(p, '-');
    CountAppend(['('] + a + [')', '-'], p, '-');
    CountAppend(['('] + a, [')', '-'], '-');
    CountAppend(['('], a, '-');
  }

  /** A string the directive can hand to the form. */
  ghost predicate IsMaskOrDigits(s: string) {
    AllDigits(s) || (|Digits(s)| <= MaxDigits && s == FormatPhone(Digits(s)))
  }

  /**
   * Backspace after the area drops the number's last digit: what is left is
   * bare digits, and its mask is again a mask of at most ten digits.
   */
  lemma DropLastDigit(display: string)
    requires |Digits(display)| <= MaxDigits
    ensures var d := Digits(display);
      var v := Substring(d, 0, |d| - 1);
      && v == (if d == [] then [] else d[..|d| - 1])
      && IsMaskOrDigits(v)
      && |Digits(FormatPhone(v))| <= MaxDigits
      && FormatPhone(v) == FormatPhone(Digits(FormatPhone(v)))
  {
    var d := Digits(display);
    var v := Substring(d, 0, |d| - 1);
    assert AllDigits(v) && |v| <= MaxDigits;
    FormatPhoneIdempotent(v);
  }

  // ---- The corrected formatter ----

  /**
   * The grouping the employee form's phone validator and its error text
   * ask for, `(AAA) PPP-LLLL`: a space, not a dash, after the area.
   */
  function FormatPhoneGrouped(value: string): (r: string)
    ensures r == "" <==> value == ""
    ensures 10 <= |value| ==> r == "(" + value[..3] + ") " + value[3..6] + "-" + value[6..10]
  {
    FormatPhoneWith(value, ' ')
  }

  // ---- The phone mask directive ----

  /**
   * The directive bound to one `<input>`: `display` is the element's value,
   * `emitted` lists the values passed to the form's `onChange` callback, in
   * order.
   */
  class PhoneMaskDirective {
    var display: string
    var emitted: seq<string>

    /**
     * The displayed text is always a mask of at most ten digits, and every
     * value handed to the form is either such a mask or bare digits.
     */
    ghost predicate Valid()
      reads this
    {
      && |Digits(display)| <= MaxDigits && display == FormatPhone(Digits(display))
      && forall i :: 0 <= i < |emitted| ==> IsMaskOrDigits(emitted[i])
    }

    constructor ()
      ensures Valid() && display == "" && emitted == []
    {
      display := "";
      emitted := [];
    }

    /**
     * The `input` event: `typed` is the element's text after the user's edit.
     * No digits clears the field and emits `""`; otherwise the first ten
     * digits are shown formatted and the formatted text is emitted.
     */
    method OnInput(typed: string)
      modifies this
      requires Valid()
      ensures Valid()
      ensures Digits(typed) == "" ==> display == "" && emitted == old(emitted) + [""]
      ensures Digits(typed) != "" ==>
        display == FormatPhone(Substring(Digits(typed), 0, MaxDigits))
        && emitted == old(emitted) + [display]
    {
      var value := Digits(typed);
      if value == "" {
        display := "";
        emitted := emitted + [""];
        return;
      }
      value := Substring(value, 0, MaxDigits);
      var formatted := FormatPhone(value);
      display := formatted;
      emitted := emitted + [FormatPhone(value)];
      FormatPhoneIdempotent(value);
      assert IsMaskOrDigits(formatted);
    }

    /**
     * The `keydown` event. Only Backspace with the caret at position 5
     * (just after the closing parenthesis) acts: the default deletion is
     * cancelled, the last digit of the whole number is dropped, the rest is
     * shown formatted and emitted unformatted. Any other key leaves the
     * state alone.
     */
    method OnKeyDown(key: string, cursor: Option<int>)
      modifies this
      requires Valid()
      ensures Valid()
      ensures !(key == "Backspace" && cursor == Some(5)) ==>
        display == old(display) && emitted == old(emitted)
      ensures key == "Backspace" && cursor == Some(5) ==>
        var d := Digits(old(display));
        var rest := if d == [] then [] else d[..|d| - 1];
        display == FormatPhone(rest) && emitted == old(emitted) + [rest]
    {
      if key == "Backspace" && cursor == Some(5) {
        ghost var before := emitted;
        var value := Digits(display);
        value := Substring(value, 0, |value| - 1);
        DropLastDigit(display);
        var formatted := FormatPhone(value);
        display := formatted;
        emitted := emitted + [value];
        assert forall i :: 0 <= i < |before| ==> emitted[i] == before[i];
      }
    }

    /**
     * `writeValue`: the form pushes a value into the field. A falsy value
     * clears it; otherwise its digits are shown formatted, without
     * truncation (the formatter reads ten of them). Nothing is emitted.
     */
    method WriteValue(value: Option<string>)
      modifies this
      requires Valid()
      ensures Valid()
      ensures emitted == old(emitted)
      ensures value.None? || value == Some("") ==> display == ""
      ensures value.Some? && value.value != "" ==>
        display == FormatPhone(Digits(value.value))
        && display == FormatPhone(Digits(value.value)[..Min(|Digits(value.value)|, MaxDigits)])
    {
      if value.Some? && value.value != "" {
        var clean := Digits(value.value);
        display := FormatPhone(clean);
        FormatPhoneReadsTen(clean);
        FormatPhoneIdempotent(clean[..Min(|clean|, MaxDigits)]);
      } else {
        display := "";
      }
    }
  }
}
