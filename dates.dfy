/** The two date spellings the components convert between: the display form
    DD-MM-YYYY, built from the fields of a parsed JavaScript `Date` with
    `('0' + n).slice(-2)` padding, and the submission form YYYY-MM-DD, built by
    splitting the display form on '-'. */
module Dates {
  import opened Text

  /** The fields read back from `new Date(text)`: `getFullYear()`,
      `getMonth()` (0 for January) and `getDate()`; an unparsable text gives an
      invalid date whose three fields are all `NaN`. */
  datatype JsDate = Valid(fullYear: int, monthIndex: nat, date: nat) | Invalid

  /** `${n}` for any integer. */
  function IntToString(n: int): (s: string)
    ensures n >= 0 ==> s == NatToString(n)
    ensures n < 0 ==> s == "-" + NatToString(-n)
  {
    if n < 0 then "-" + NatToString(-n) else NatToString(n)
  }

  /** `${day}-${month}-${year}` with two-digit day and month; for an invalid
      date the padding keeps the last two characters of "0NaN". */
  function Display(d: JsDate): string {
    match d
    case Valid(y, m, day) => Join([Pad2(day), Pad2(m + 1), IntToString(y)], "-")
    case Invalid => "aN-aN-NaN"
  }

  /** The text `aN-aN-NaN` comes from an invalid date only: a valid date's
      display starts with a digit. */
  lemma DisplayInvalidIff(d: JsDate)
    ensures Display(d) == "aN-aN-NaN" <==> d.Invalid?
  {
    if d.Valid? {
      Join3(Pad2(d.date), Pad2(d.monthIndex + 1), IntToString(d.fullYear), "-");
      assert IsDigit(Display(d)[0]);
    }
  }

  /** A display string of a valid date is always DD-MM- followed by the year,
      with day and month exactly two digits. */
  lemma DisplayShape(d: JsDate)
    requires d.Valid?
    ensures var s := Display(d);
      |s| >= 7 && s[2] == '-' && s[5] == '-'
      && AllDigits(s[..2]) && AllDigits(s[3..5])
      && s[..2] == Pad2(d.date) && s[3..5] == Pad2(d.monthIndex + 1)
      && s[6..] == IntToString(d.fullYear)
  {
    Join3(Pad2(d.date), Pad2(d.monthIndex + 1), IntToString(d.fullYear), "-");
  }

  /** A piece of `s.split('-')` taken by array destructuring: `undefined`,
      rendered as "undefined", when the split is too short. */
  function Piece(parts: seq<string>, i: nat): string {
    if i < |parts| then parts[i] else "undefined"
  }

  /** `const [day, month, year] = s.split('-'); `${year}-${month}-${day}``. */
  function ToSubmission(s: string): (r: string)
    ensures var parts := Split(s, '-');
      r == Piece(parts, 2) + "-" + Piece(parts, 1) + "-" + Piece(parts, 0)
  {
    var parts := Split(s, '-');
    Piece(parts, 2) + "-" + Piece(parts, 1) + "-" + Piece(parts, 0)
  }

  lemma NoDashInDigits(s: string)
    requires AllDigits(s)
    ensures '-' !in s
  {
    assert forall i :: 0 <= i < |s| ==> s[i] != '-';
  }

  /** The display form of a date is the join of its three pieces. */
  lemma DisplayJoin(y: int, m: nat, day: nat)
    ensures Display(Valid(y, m, day)) == Join([Pad2(day), Pad2(m + 1), IntToString(y)], "-")
  {
  }

  /** Splitting the display form of a date with a year of zero or more gives
      back its three fields. */
  lemma SplitDisplay(y: nat, m: nat, day: nat)
    ensures Split(Display(Valid(y, m, day)), '-') == [Pad2(day), Pad2(m + 1), NatToString(y)]
  {
    var a, b, c := Pad2(day), Pad2(m + 1), NatToString(y);
    DisplayJoin(y, m, day);
    NoDashInDigits(a);
    NoDashInDigits(b);
    NoDashInDigits(c);
    SplitJoin([a, b, c], '-');
  }

  /** Converting a display string for submission yields YYYY-MM-DD with the
      same year, month and day, for every year from 0 on. */
  lemma SubmissionOfDisplay(y: nat, m: nat, day: nat)
    ensures ToSubmission(Display(Valid(y, m, day)))
            == NatToString(y) + "-" + Pad2(m + 1) + "-" + Pad2(day)
  {
    SplitDisplay(y, m, day);
  }

  /** The display form determines the date: day and month below one hundred
      and a year from 0 on are read back unchanged. */
  lemma DisplayInjective(d1: JsDate, d2: JsDate)
    requires d1.Valid? && d2.Valid? && d1.fullYear >= 0 && d2.fullYear >= 0
    requires d1.date < 100 && d2.date < 100 && d1.monthIndex < 99 && d2.monthIndex < 99
    requires Display(d1) == Display(d2)
    ensures d1 == d2
  {
    var p1 := [Pad2(d1.date), Pad2(d1.monthIndex + 1), NatToString(d1.fullYear)];
    var p2 := [Pad2(d2.date), Pad2(d2.monthIndex + 1), NatToString(d2.fullYear)];
    SplitDisplay(d1.fullYear, d1.monthIndex, d1.date);
    SplitDisplay(d2.fullYear, d2.monthIndex, d2.date);
    assert p1 == p2;
    assert p1[0] == p2[0] && p1[1] == p2[1] && p1[2] == p2[2];
    Pad2Value(d1.date);
    Pad2Value(d2.date);
    Pad2Value(d1.monthIndex + 1);
    Pad2Value(d2.monthIndex + 1);
    NatToStringInjective(d1.fullYear, d2.fullYear);
  }

  /** Three dash-joined pieces whose last one starts with a dash are the
      join of four pieces, the third one empty. */
  lemma JoinWithLeadingDash(a: string, b: string, c: string)
    ensures Join([a, b, "-" + c], "-") == Join([a, b, "", c], "-")
    ensures Join([a, b, "-" + c], "-") == a + "-" + b + "--" + c
  {
    Join3(a, b, "-" + c, "-");
    var parts := [a, b, "", c];
    assert parts[1..] == [b, "", c];
    Join3(b, "", c, "-");
    assert Join(parts, "-") == a + "-" + Join([b, "", c], "-");
    assert a + "-" + b + "-" + ("-" + c) == a + "-" + (b + "-" + "" + "-" + c);
    assert a + "-" + b + "-" + ("-" + c) == a + "-" + b + "--" + c;
  }

  /** A negative year puts a third '-' into the display form: joined on
      dashes, it reads as four pieces, the third one empty. */
  lemma NegativeDisplay(n: nat, m: nat, day: nat)
    requires n > 0
    ensures Display(Valid(-(n as int), m, day)) == Pad2(day) + "-" + Pad2(m + 1) + "--" + NatToString(n)
    ensures Display(Valid(-(n as int), m, day)) == Join([Pad2(day), Pad2(m + 1), "", NatToString(n)], "-")
  {
    DisplayJoin(-(n as int), m, day);
    assert IntToString(-(n as int)) == "-" + NatToString(n);
    JoinWithLeadingDash(Pad2(day), Pad2(m + 1), NatToString(n));
  }

  /** The conversion of such a display form takes the empty piece for the
      year, so the year's digits are lost. */
  lemma SubmissionOfNegativeYear(n: nat, m: nat, day: nat)
    requires n > 0
    ensures ToSubmission(Display(Valid(-(n as int), m, day))) == "-" + Pad2(m + 1) + "-" + Pad2(day)
  {
    var a, b, c := Pad2(day), Pad2(m + 1), NatToString(n);
    var parts := [a, b, "", c];
    NegativeDisplay(n, m, day);
    NoDashInDigits(a);
    NoDashInDigits(b);
    NoDashInDigits(c);
    SplitJoin(parts, '-');
    assert Split(Display(Valid(-(n as int), m, day)), '-') == parts;
  }

  /** A string without dashes is treated as the day alone. */
  lemma SubmissionWithoutDash(s: string)
    requires '-' !in s
    ensures ToSubmission(s) == "undefined-undefined-" + s
  {
    SplitJoin([s], '-');
    assert Join([s], "-") == s;
  }
}
