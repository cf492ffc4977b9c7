/** The tax-ID (RNC) input mask of src/app/utils/rnc-mask.directive.ts. */
module RncMask {
  import opened Wrappers
  import opened Text

  /** The most digits the mask keeps. */
  const MaxDigits: nat := 9

  /**
   * `parts.filter(Boolean)` on strings: the non-empty ones, in order. Each
   * non-empty part is kept as often as it occurs and `""` never is; with
   * `NonEmptyAppend` this fixes the result, order included.
   */
  function NonEmpty(parts: seq<string>): (r: seq<string>)
    ensures |r| <= |parts|
    ensures forall i :: 0 <= i < |r| ==> r[i] != ""
    ensures forall s :: s in r <==> s in parts && s != ""
    ensures forall s :: multiset(r)[s] == if s == "" then 0 else multiset(parts)[s]
  {
    if parts == [] then []
    else
      assert parts == [parts[0]] + parts[1..];
      (if parts[0] != "" then [parts[0]] else []) + NonEmpty(parts[1..])
  }

  /** The filter distributes over concatenation. */
  lemma {:induction false} NonEmptyAppend(a: seq<string>, b: seq<string>)
    ensures NonEmpty(a + b) == NonEmpty(a) + NonEmpty(b)
  {
    if a == [] {
      assert a + b == b;
    } else {
      assert (a + b)[1..] == a[1..] + b;
      NonEmptyAppend(a[1..], b);
    }
  }

  /** What the filter keeps of one part. */
  function Kept(s: string): seq<string> {
    if s != "" then [s] else []
  }

  lemma NonEmptySingleton(s: string)
    ensures NonEmpty([s]) == Kept(s)
  {
    assert [s][1..] == [];
  }

  /** The four RNC groups: 1, 2, 5 and 1 characters. */
  function Groups(value: string): seq<string> {
    [Substring(value, 0, 1), Substring(value, 1, 3), Substring(value, 3, 8), Substring(value, 8, 9)]
  }

  /**
   * `formatRnc`: the non-empty groups joined by `-`, so a full number reads
   * `D-DD-DDDDD-D` and a partial one stops after its last present group.
   * Only the first nine characters are read.
   */
  function FormatRnc(value: string): (r: string)
    ensures r == "" <==> value == ""
  {
    if value == "" then "" else Join(NonEmpty(Groups(value)), "-")
  }

  /** `filter(Boolean)` on the four groups of `value` keeps the present ones. */
  lemma NonEmptyGroups(value: string)
    ensures NonEmpty(Groups(value)) == PresentGroups(value[..Min(|value|, MaxDigits)])
  {
    var g := Groups(value);
    var d := value[..Min(|value|, MaxDigits)];
    assert g == [g[0]] + [g[1]] + [g[2]] + [g[3]];
    NonEmptyAppend([g[0]] + [g[1]] + [g[2]], [g[3]]);
    NonEmptyAppend([g[0]] + [g[1]], [g[2]]);
    NonEmptyAppend([g[0]], [g[1]]);
    NonEmptySingleton(g[0]);
    NonEmptySingleton(g[1]);
    NonEmptySingleton(g[2]);
    NonEmptySingleton(g[3]);
    assert NonEmpty(g) == Kept(g[0]) + Kept(g[1]) + Kept(g[2]) + Kept(g[3]);
    var n := |d|;
    if n == 0 {
    } else if n == 1 {
      assert g[0] == d;
    } else if n <= 3 {
      assert g[0] == d[..1] && g[1] == d[1..];
    } else if n <= 8 {
      assert g[0] == d[..1] && g[1] == d[1..3] && g[2] == d[3..];
    } else {
      assert g[0] == d[..1] && g[1] == d[1..3] && g[2] == d[3..8] && g[3] == d[8..9];
    }
  }

  /** The mask of each length, written out. */
  lemma FormatRncCases(value: string)
    ensures |value| == 1 ==> FormatRnc(value) == value
    ensures 1 < |value| <= 3 ==> FormatRnc(value) == value[..1] + "-" + value[1..]
    ensures 3 < |value| <= 8 ==> FormatRnc(value) == value[..1] + "-" + value[1..3] + "-" + value[3..]
    ensures 8 < |value| ==>
      FormatRnc(value) == value[..1] + "-" + value[1..3] + "-" + value[3..8] + "-" + value[8..9]
  {
    FormatRncIsJoin(value);
    var d := value[..Min(|value|, MaxDigits)];
    var p := PresentGroups(d);
    var n := |value|;
    if n == 1 {
      assert d == value;
    } else if 1 < n <= 3 {
      assert d == value;
      assert Join(p, "-") == p[0] + "-" + Join(p[1..], "-");
    } else if 3 < n <= 8 {
      assert d == value;
      assert Join(p, "-") == p[0] + "-" + Join(p[1..], "-");
      assert Join(p[1..], "-") == p[1] + "-" + Join(p[1..][1..], "-");
    } else if 8 < n {
      assert d[..1] == value[..1] && d[1..3] == value[1..3] && d[3..8] == value[3..8] && d[8..9] == value[8..9];
      assert Join(p, "-") == p[0] + "-" + Join(p[1..], "-");
      assert Join(p[1..], "-") == p[1] + "-" + Join(p[1..][1..], "-");
      assert Join(p[1..][1..], "-") == p[2] + "-" + Join(p[1..][1..][1..], "-");
    }
  }

  /** The number of groups a digit string of length `n` fills. */
  function GroupCount(n: nat): nat {
    if n == 0 then 0 else if n <= 1 then 1 else if n <= 3 then 2 else if n <= 8 then 3 else 4
  }

  /** A dash-separated string: no dash at either end, no two dashes in a row. */
  predicate WellSeparated(r: string) {
    r == "" || (r[0] != '-' && r[|r| - 1] != '-'
                && forall i :: 0 <= i < |r| - 1 ==> !(r[i] == '-' && r[i + 1] == '-'))
  }

  /** The non-empty groups of a digit string, as `formatRnc` collects them. */
  function PresentGroups(d: string): (r: seq<string>)
    ensures |r| == GroupCount(Min(|d|, MaxDigits))
  {
    var n := |d|;
    if n == 0 then []
    else if n == 1 then [d]
    else if n <= 3 then [d[..1], d[1..]]
    else if n <= 8 then [d[..1], d[1..3], d[3..]]
    else [d[..1], d[1..3], d[3..8], d[8..9]]
  }

  /** `formatRnc` joins the groups present in the first nine characters. */
  lemma FormatRncIsJoin(value: string)
    ensures FormatRnc(value) == Join(PresentGroups(value[..Min(|value|, MaxDigits)]), "-")
  {
    NonEmptyGroups(value);
  }

  /** Concatenation of a list of strings. */
  function Concat(parts: seq<string>): string {
    if parts == [] then [] else parts[0] + Concat(parts[1..])
  }

  /**
   * Joining non-empty digit groups with `-` gives a well-separated string
   * with one dash fewer than groups, whose digits are the groups' digits.
   */
  lemma {:induction false} JoinDigitGroups(parts: seq<string>)
    requires forall i :: 0 <= i < |parts| ==> parts[i] != "" && AllDigits(parts[i])
    ensures WellSeparated(Join(parts, "-"))
    ensures parts != [] ==> Count(Join(parts, "-"), '-') == |parts| - 1
    ensures Digits(Join(parts, "-")) == Concat(parts)
    decreases |parts|
  {
    if parts == [] {
    } else if |parts| == 1 {
      CountInDigits(parts[0], '-');
      assert Concat(parts) == parts[0] + Concat([]);
    } else {
      var h, t := parts[0], Join(parts[1..], "-");
      JoinDigitGroups(parts[1..]);
      assert Join(parts, "-") == h + "-" + t;
      DashJoin(h, t);
    }
  }

  /** One step of `JoinDigitGroups`: a digit group, a dash, and a well-separated rest. */
  lemma DashJoin(h: string, t: string)
    requires h != "" && AllDigits(h) && t != "" && WellSeparated(t)
    ensures WellSeparated(h + "-" + t)
    ensures Count(h + "-" + t, '-') == Count(t, '-') + 1
    ensures Digits(h + "-" + t) == h + Digits(t)
  {
    DashJoinSeparated(h, t);
    assert h + "-" + t == h + ("-" + t);
    CountInDigits(h, '-');
    CountAppend(h, "-" + t, '-');
    CountAppend("-", t, '-');
    DigitsAppend(h, "-" + t);
    SeparatorThenRest(t);
  }

  lemma SeparatorThenRest(t: string)
    ensures Digits("-" + t) == Digits(t)
  {
    DigitsAppend("-", t);
    DigitsOfNonDigits("-");
  }

  lemma DashJoinSeparated(h: string, t: string)
    requires h != "" && AllDigits(h) && t != "" && WellSeparated(t)
    ensures WellSeparated(h + "-" + t)
  {
    var r := h + "-" + t;
    forall i | 0 <= i < |r| - 1
      ensures !(r[i] == '-' && r[i + 1] == '-')
    {
      if i < |h| {
        assert r[i] == h[i];
      } else if i > |h| {
        assert r[i] == t[i - |h| - 1] && r[i + 1] == t[i - |h|];
      }
    }
    assert r[0] == h[0] && r[|r| - 1] == t[|t| - 1];
  }

  /** Removing the dashes from the mask gives the digits that went in. */
  lemma FormatRncRoundTrip(d: string)
    requires AllDigits(d) && |d| <= MaxDigits
    ensures Digits(FormatRnc(d)) == d
  {
    FormatRncIsJoin(d);
    assert d[..Min(|d|, MaxDigits)] == d;
    GroupsAreDigits(d);
    JoinDigitGroups(PresentGroups(d));
    ConcatOfGroups(d);
  }

  lemma GroupsAreDigits(d: string)
    requires AllDigits(d)
    ensures forall i :: 0 <= i < |PresentGroups(d)| ==>
      PresentGroups(d)[i] != "" && AllDigits(PresentGroups(d)[i])
  {
  }

  lemma ConcatOfGroups(d: string)
    requires |d| <= MaxDigits
    ensures Concat(PresentGroups(d)) == d
  {
    var p := PresentGroups(d);
    var n := |d|;
    if n == 1 {
      assert Concat(p) == p[0] + Concat(p[1..]);
    } else if 1 < n {
      assert Concat(p) == p[0] + Concat(p[1..]);
      assert Concat(p[1..]) == p[1] + Concat(p[1..][1..]);
      if n <= 3 {
        assert d[..1] + d[1..] == d;
      } else {
        assert Concat(p[1..][1..]) == p[2] + Concat(p[1..][1..][1..]);
        if n <= 8 {
          assert d[..1] + d[1..3] + d[3..] == d;
        } else {
          assert Concat(p[1..][1..][1..]) == p[3] + Concat(p[1..][1..][1..][1..]);
          assert d[..1] + d[1..3] + d[3..8] + d[8..9] == d;
        }
      }
    }
  }

  /**
   * The separators of the mask: never `-` at either end, never `--`, and one
   * `-` fewer than there are groups.
   */
  lemma FormatRncShape(d: string)
    requires AllDigits(d)
    ensures WellSeparated(FormatRnc(d))
    ensures d != "" ==> Count(FormatRnc(d), '-') == GroupCount(Min(|d|, MaxDigits)) - 1
  {
    var v := d[..Min(|d|, MaxDigits)];
    FormatRncIsJoin(d);
    GroupsAreDigits(v);
    JoinDigitGroups(PresentGroups(v));
  }

  /** Only the first nine characters of the argument matter. */
  lemma FormatRncReadsNine(value: string)
    ensures FormatRnc(value) == FormatRnc(value[..Min(|value|, MaxDigits)])
  {
    var v := value[..Min(|value|, MaxDigits)];
    FormatRncIsJoin(value);
    FormatRncIsJoin(v);
    assert v[..Min(|v|, MaxDigits)] == v;
  }

  /** A text the directive can show or hand to the form. */
  ghost predicate IsMask(s: string) {
    |Digits(s)| <= MaxDigits && s == FormatRnc(Digits(s))
  }

  // ---- The RNC mask directive ----

  /**
   * The directive bound to one `<input>`: `display` is the element's value,
   * `emitted` lists the values passed to the form's `onChange`, in order.
   */
  class RncMaskDirective {
    var display: string
    var emitted: seq<string>

    /**
     * The displayed text, and every value handed to the form, is a mask of
     * at most nine digits.
     */
    ghost predicate Valid()
      reads this
    {
      && IsMask(display)
      && forall i :: 0 <= i < |emitted| ==> IsMask(emitted[i])
    }

    constructor ()
      ensures Valid() && display == "" && emitted == []
    {
      display := "";
      emitted := [];
    }

    /**
     * The `input` event: the first nine digits of the edited text, formatted,
     * are both shown and emitted; no digits gives `""` for both.
     */
    method OnInput(typed: string)
      modifies this
      requires Valid()
      ensures Valid()
      ensures display == FormatRnc(Substring(Digits(typed), 0, MaxDigits))
      ensures Digits(typed) == "" ==> display == ""
      ensures emitted == old(emitted) + [display]
    {
      var value := Digits(typed);
      value := Substring(value, 0, MaxDigits);
      ghost var before := emitted;
      display := FormatRnc(value);
      emitted := emitted + [FormatRnc(value)];
      FormatRncRoundTrip(value);
      assert forall i :: 0 <= i < |before| ==> emitted[i] == before[i];
    }

    /**
     * `writeValue`: a falsy value clears the field; otherwise its digits are
     * shown formatted, untruncated (the formatter reads nine of them).
     * Nothing is emitted.
     */
    method WriteValue(value: Option<string>)
      modifies this
      requires Valid()
      ensures Valid()
      ensures emitted == old(emitted)
      ensures value.None? || value == Some("") ==> display == ""
      ensures value.Some? && value.value != "" ==>
        display == FormatRnc(Digits(value.value))
        && display == FormatRnc(Digits(value.value)[..Min(|Digits(value.value)|, MaxDigits)])
    {
      if value.Some? && value.value != "" {
        var clean := Digits(value.value);
        display := FormatRnc(clean);
        FormatRncReadsNine(clean);
        FormatRncRoundTrip(clean[..Min(|clean|, MaxDigits)]);
      } else {
        display := "";
      }
    }
  }
}
