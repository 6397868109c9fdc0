/** The employee form's phone formatter: whatever is typed is reduced to its digits
    and laid out as a Russian number, "+7 (999) 123-45-67", as far as the digits go. */
module PhoneFormat {
  import opened Text

  /** `replace(/\D/g, '')`: the digits, in order. */
  function Digits(s: string): (r: string)
    ensures |r| <= |s|
    ensures forall i :: 0 <= i < |r| ==> IsDigit(r[i])
  {
    if s == "" then ""
    else if IsDigit(s[0]) then [s[0]] + Digits(s[1..])
    else Digits(s[1..])
  }

  lemma {:induction false} DigitsAppend(a: string, b: string)
    ensures Digits(a + b) == Digits(a) + Digits(b)
  {
    if a == "" {
      assert a + b == b;
    } else {
      assert (a + b)[0] == a[0] && (a + b)[1..] == a[1..] + b;
      DigitsAppend(a[1..], b);
    }
  }

  /** A leading 7 or 8 (the country code or the trunk prefix) is dropped, once. */
  function NumberPart(digits: string): string {
    if |digits| > 0 && (digits[0] == '7' || digits[0] == '8') then digits[1..] else digits
  }

  /** JavaScript's substring(start, end) for start <= end: both ends clamped to the
      length. */
  function Substring(s: string, start: nat, end: nat): (r: string)
    requires start <= end
    ensures |r| <= end - start
  {
    var e := if end < |s| then end else |s|;
    var b := if start < e then start else e;
    s[b..e]
  }

  /** One group of the layout: a separator written before it, and how many digits
      it holds. */
  datatype Group = Group(sep: string, width: nat)

  /** The layout after "+7 (": (999) 123-45-67. */
  const Layout: seq<Group> := [Group("", 3), Group(") ", 3), Group("-", 2), Group("-", 2)]

  function Take(p: string, n: nat): (r: string)
    ensures |r| <= n && |r| <= |p| && r == p[..|r|]
  {
    if |p| <= n then p else p[..n]
  }

  function Drop(p: string, n: nat): string {
    if |p| <= n then "" else p[n..]
  }

  /** Filling the groups with digits, in order: a group and its separator are written
      only while digits remain; digits beyond the last group are dropped. */
  function Fill(groups: seq<Group>, p: string): string {
    if groups == [] || p == "" then ""
    else groups[0].sep + Take(p, groups[0].width) + Fill(groups[1..], Drop(p, groups[0].width))
  }

  /** How many digits the groups hold. */
  function Width(groups: seq<Group>): nat {
    if groups == [] then 0 else groups[0].width + Width(groups[1..])
  }

  /** Every group holds at least one digit and no separator holds a digit. */
  predicate WellFormed(groups: seq<Group>) {
    forall i :: 0 <= i < |groups| ==> groups[i].width > 0 && Digits(groups[i].sep) == ""
  }

  /** The formatted phone: nothing when no digit was typed, otherwise "+7 (" and the
      layout filled with the number after its leading 7 or 8. */
  function Formatted(value: string): string {
    var digits := Digits(value);
    if digits == "" then "" else "+7 (" + Fill(Layout, NumberPart(digits))
  }

  /** Where each group starts in the number part. */
  const Offsets: seq<nat> := [0, 3, 6, 8, 10]

  /** What the groups from the k-th on write for the number part p. */
  function Rest(k: nat, p: string): string
    requires k <= 4
  {
    Fill(Layout[k..], Drop(p, Offsets[k]))
  }

  /** Once the digits run out, the groups still to come write nothing. */
  lemma RestEmpty(k: nat, p: string)
    requires k <= 4 && (k == 4 || |p| <= Offsets[k])
    ensures Rest(k, p) == ""
  {
  }

  /** While digits remain, the k-th group writes its separator and JavaScript's
      substring of its digits, and the remaining groups follow. */
  lemma RestStep(k: nat, p: string)
    requires k < 4 && |p| > Offsets[k]
    ensures Rest(k, p) == Layout[k].sep + Substring(p, Offsets[k], Offsets[k + 1]) + Rest(k + 1, p)
  {
    var o := Offsets[k];
    var w := Layout[k].width;
    assert Offsets[k + 1] == o + w;
    assert Layout[k..][0] == Layout[k] && Layout[k..][1..] == Layout[k + 1..];
    var q := Drop(p, o);
    assert q == p[o..];
    assert Drop(q, w) == Drop(p, o + w) by {
      if |p| > o + w { assert p[o..][w..] == p[o + w..]; }
    }
    assert Substring(p, o, o + w) == Take(q, w);
  }

  /** What handlePhoneInputChange has written so far, followed by what the groups
      from the k-th on write, is the whole formatted value. */
  predicate Progress(k: nat, written: string, p: string, value: string)
    requires k <= 4
  {
    written + Rest(k, p) == Formatted(value)
  }

  /** The code's step for the k-th group: the group is appended while digits remain,
      and skipped once they ran out. */
  lemma Advance(k: nat, written: string, p: string, value: string)
    requires k < 4 && Progress(k, written, p, value)
    ensures var sep, from, to := Layout[k].sep, Offsets[k], Offsets[k + 1];
      && (|p| > from ==> Progress(k + 1, written + (sep + Substring(p, from, to)), p, value))
      && (|p| > from && sep == "" ==> Progress(k + 1, written + Substring(p, from, to), p, value))
      && (|p| <= from ==> Progress(k + 1, written, p, value))
  {
    var sep, from, to := Layout[k].sep, Offsets[k], Offsets[k + 1];
    if |p| > from {
      RestStep(k, p);
      assert written + (sep + Substring(p, from, to)) + Rest(k + 1, p) == Formatted(value);
      if sep == "" { assert sep + Substring(p, from, to) == Substring(p, from, to); }
    } else {
      RestEmpty(k, p);
      RestEmpty(k + 1, p);
    }
  }

  /** After the last group nothing is left to write. */
  lemma Finished(written: string, p: string, value: string)
    requires Progress(4, written, p, value)
    ensures written == Formatted(value)
  {
    RestEmpty(4, p);
    assert written + "" == written;
  }

  /** After "+7 (" come the groups, filled from the number part. */
  lemma Started(value: string, numberPart: string)
    requires Digits(value) != "" && numberPart == NumberPart(Digits(value))
    ensures Progress(0, "+7 (", numberPart, value)
  {
  }

  /** handlePhoneInputChange: the digits kept, the leading 7 or 8 dropped, and the
      groups of three, three, two and two digits appended with their separators. */
  method HandlePhoneInputChange(value: string) returns (formattedValue: string)
    ensures formattedValue == Formatted(value)
  {
    var rawValue := Digits(value);
    formattedValue := "";
    var numberPart := rawValue;
    if |numberPart| > 0 {
      if numberPart[0] == '7' || numberPart[0] == '8' {
        numberPart := numberPart[1..];
      }
      formattedValue := "+7 (";
      Started(value, numberPart);
      Advance(0, formattedValue, numberPart, value);
      if |numberPart| > 0 {
        formattedValue := formattedValue + Substring(numberPart, 0, 3);
      }
      assert Progress(1, formattedValue, numberPart, value);
      Advance(1, formattedValue, numberPart, value);
      if |numberPart| > 3 {
        formattedValue := formattedValue + (") " + Substring(numberPart, 3, 6));
      }
      assert Progress(2, formattedValue, numberPart, value);
      Advance(2, formattedValue, numberPart, value);
      if |numberPart| > 6 {
        formattedValue := formattedValue + ("-" + Substring(numberPart, 6, 8));
      }
      assert Progress(3, formattedValue, numberPart, value);
      Advance(3, formattedValue, numberPart, value);
      if |numberPart| > 8 {
        formattedValue := formattedValue + ("-" + Substring(numberPart, 8, 10));
      }
      assert Progress(4, formattedValue, numberPart, value);
      Finished(formattedValue, numberPart, value);
    }
  }


  /** Stripping the non-digits leaves a string of digits alone. */
  lemma {:induction false} DigitsOfDigits(s: string)
    requires AllDigits(s)
    ensures Digits(s) == s
  {
    if s != "" {
      DigitsOfDigits(s[1..]);
    }
  }

  /** The number part of the digits is itself digits only. */
  lemma NumberPartDigits(value: string)
    ensures AllDigits(NumberPart(Digits(value)))
  {
  }

  /** A prefix taken of the first w digits and the next ones is a prefix of the whole. */
  lemma TakeSplit(p: string, w: nat, rest: nat)
    ensures Take(p, w) + Take(Drop(p, w), rest) == Take(p, w + rest)
  {
    if |p| > w {
      if |p| <= w + rest {
        assert p[..w] + p[w..] == p;
      } else {
        assert p[..w] + p[w..][..rest] == p[..w + rest];
      }
    }
  }

  /** What follows the first group of a well-formed layout is well formed. */
  lemma WellFormedTail(groups: seq<Group>)
    requires WellFormed(groups) && groups != []
    ensures WellFormed(groups[1..])
    ensures groups[0].width > 0 && Digits(groups[0].sep) == ""
  {
    forall i | 0 <= i < |groups[1..]|
      ensures groups[1..][i].width > 0 && Digits(groups[1..][i].sep) == ""
    {
      assert groups[1..][i] == groups[i + 1];
    }
  }

  /** Prefixes and suffixes of digits are digits. */
  lemma TakeDropDigits(p: string, n: nat)
    requires AllDigits(p)
    ensures AllDigits(Take(p, n)) && AllDigits(Drop(p, n))
  {
  }

  /** A separator without digits, a group of digits and what follows. */
  lemma PieceDigits(sep: string, t: string, rest: string)
    requires Digits(sep) == "" && AllDigits(t)
    ensures Digits(sep + t + rest) == t + Digits(rest)
  {
    DigitsAppend(sep, t);
    DigitsAppend(sep + t, rest);
    DigitsOfDigits(t);
    assert "" + t == t;
  }

  /** The digits of a filled layout are its first Width digits: the separators carry
      none. */
  lemma {:induction false} FillDigits(groups: seq<Group>, p: string)
    requires WellFormed(groups) && AllDigits(p)
    ensures Digits(Fill(groups, p)) == Take(p, Width(groups))
  {
    if groups != [] && p != "" {
      var g := groups[0];
      WellFormedTail(groups);
      TakeDropDigits(p, g.width);
      FillDigits(groups[1..], Drop(p, g.width));
      PieceDigits(g.sep, Take(p, g.width), Fill(groups[1..], Drop(p, g.width)));
      TakeSplit(p, g.width, Width(groups[1..]));
    }
  }

  /** A prefix of a prefix; and what follows the first n of a prefix. */
  lemma TakeTake(p: string, n: nat, w: nat)
    requires n <= w
    ensures Take(Take(p, w), n) == Take(p, n)
    ensures Drop(Take(p, w), n) == Take(Drop(p, n), w - n)
  {
    if |p| > n && |p| > w {
      assert p[..w][n..] == p[n..][..w - n];
    }
  }

  /** Fill's first step, for a layout and a number part that are not empty. */
  lemma FillCons(groups: seq<Group>, p: string)
    requires groups != [] && p != ""
    ensures Fill(groups, p)
      == groups[0].sep + Take(p, groups[0].width) + Fill(groups[1..], Drop(p, groups[0].width))
  {
  }

  /** Only the first Width digits are ever written. */
  lemma {:induction false} FillTake(groups: seq<Group>, p: string)
    requires WellFormed(groups)
    ensures Fill(groups, Take(p, Width(groups))) == Fill(groups, p)
  {
    if groups != [] && p != "" {
      var g, tail := groups[0], groups[1..];
      WellFormedTail(groups);
      var w := Width(groups);
      assert w == g.width + Width(tail);
      var q := Take(p, w);
      assert q != "";
      TakeTake(p, g.width, w);
      FillTake(tail, Drop(p, g.width));
      calc {
        Fill(groups, q);
        { FillCons(groups, q); }
        g.sep + Take(q, g.width) + Fill(tail, Drop(q, g.width));
        g.sep + Take(p, g.width) + Fill(tail, Take(Drop(p, g.width), Width(tail)));
        g.sep + Take(p, g.width) + Fill(tail, Drop(p, g.width));
        { FillCons(groups, p); }
        Fill(groups, p);
      }
    }
  }

  /** The layout is well formed and holds ten digits. */
  lemma LayoutWellFormed()
    ensures WellFormed(Layout) && Width(Layout) == 10
  {
    assert Digits(") ") == "" by {
      assert ") "[1..] == " ";
      assert " "[1..] == "";
    }
    assert Digits("-") == "" by {
      assert "-"[1..] == "";
    }
    assert Layout[1..][1..][1..][1..] == [];
  }

  /** The digits of "+7 (". */
  lemma PrefixDigits()
    ensures Digits("+7 (") == "7"
  {
    assert "+7 ("[1..] == "7 (";
    assert "7 ("[1..] == " (";
    assert " ("[1..] == "(";
    assert "("[1..] == "";
  }

  /** The digits of a formatted phone: none when none was typed, otherwise 7 and the
      first ten digits of the number part. */
  lemma FormattedDigits(value: string)
    ensures var digits := Digits(value);
      Digits(Formatted(value)) == if digits == "" then "" else "7" + Take(NumberPart(digits), 10)
  {
    var digits := Digits(value);
    if digits != "" {
      var p := NumberPart(digits);
      NumberPartDigits(value);
      LayoutWellFormed();
      FillDigits(Layout, p);
      DigitsAppend("+7 (", Fill(Layout, p));
      PrefixDigits();
    }
  }

  /** Formatting a formatted phone changes nothing. */
  lemma FormattedIdempotent(value: string)
    ensures Formatted(Formatted(value)) == Formatted(value)
  {
    var digits := Digits(value);
    FormattedDigits(value);
    if digits != "" {
      var p := NumberPart(digits);
      var again := Digits(Formatted(value));
      assert NumberPart(again) == Take(p, 10);
      LayoutWellFormed();
      FillTake(Layout, p);
    }
  }

  /** Digits typed after a leading 7 or 8 keep their place after it. */
  lemma NumberPartAppend(digits: string, more: string)
    requires digits != ""
    ensures NumberPart(digits + more) == NumberPart(digits) + more
  {
    assert (digits + more)[0] == digits[0];
    if digits[0] == '7' || digits[0] == '8' {
      assert (digits + more)[1..] == digits[1..] + more;
    }
  }

  /** Appending to a string of n characters or more leaves its first n alone. */
  lemma TakeAppend(p: string, more: string, n: nat)
    requires |p| >= n
    ensures Take(p + more, n) == Take(p, n)
  {
    assert (p + more)[..n] == p[..n];
  }

  /** Digits past the tenth of the number part are dropped. */
  lemma FormattedKeepsTen(value: string, extra: string)
    requires |NumberPart(Digits(value))| >= 10
    ensures Formatted(value + extra) == Formatted(value)
  {
    var digits := Digits(value);
    var p := NumberPart(digits);
    var more := Digits(extra);
    DigitsAppend(value, extra);
    NumberPartAppend(digits, more);
    TakeAppend(p, more, 10);
    LayoutWellFormed();
    FillTake(Layout, p);
    FillTake(Layout, p + more);
  }

  /** No digit typed gives the empty field; a lone 7 or 8 gives just "+7 (". */
  lemma FormattedShort(value: string)
    ensures Digits(value) == "" ==> Formatted(value) == ""
    ensures Digits(value) == "7" || Digits(value) == "8" ==> Formatted(value) == "+7 ("
  {
  }

  /** JavaScript's substring inside the string is a slice. */
  lemma SubstringSlice(p: string, a: nat, b: nat)
    requires a <= b <= |p|
    ensures Substring(p, a, b) == p[a..b]
  {
  }

  /** With ten digits or more, each group from the k-th on is the next slice. */
  lemma FullFrom(k: nat, p: string)
    requires 1 <= k <= 4 && |p| >= 10
    ensures k == 4 ==> Rest(k, p) == ""
    ensures k == 3 ==> Rest(k, p) == "-" + p[8..10]
    ensures k == 2 ==> Rest(k, p) == "-" + p[6..8] + ("-" + p[8..10])
    ensures k == 1 ==> Rest(k, p) == ") " + p[3..6] + ("-" + p[6..8] + ("-" + p[8..10]))
    decreases 4 - k
  {
    if k == 4 {
      RestEmpty(4, p);
    } else {
      FullFrom(k + 1, p);
      RestStep(k, p);
      SubstringSlice(p, Offsets[k], Offsets[k + 1]);
      if k == 3 {
        var last := "-" + p[8..10];
        assert last + "" == last;
      }
    }
  }

  /** Ten digits or more fill every group: three digits, ") ", three, "-", two, "-",
      two. */
  lemma FullLayout(p: string)
    requires |p| >= 10
    ensures Fill(Layout, p) == p[..3] + (") " + p[3..6] + ("-" + p[6..8] + ("-" + p[8..10])))
  {
    var tail := ") " + p[3..6] + ("-" + p[6..8] + ("-" + p[8..10]));
    FullFrom(1, p);
    RestStep(0, p);
    SubstringSlice(p, 0, 3);
    assert Layout[0..] == Layout && Drop(p, 0) == p;
    assert Fill(Layout, p) == Rest(0, p);
    var first := "" + p[0..3];
    assert first == p[..3];
    assert Rest(0, p) == first + tail;
  }

  /** Every character of the example number is a digit. */
  lemma ExampleAllDigits()
    ensures AllDigits("89991234567")
  {
  }

  /** The example number is digits only. */
  lemma ExampleDigitsKept()
    ensures Digits("89991234567") == "89991234567"
  {
    ExampleAllDigits();
    DigitsOfDigits("89991234567");
  }

  /** The example's trunk prefix 8 is dropped. */
  lemma ExampleNumberPart()
    ensures NumberPart("89991234567") == "9991234567"
  {
    assert "89991234567"[1..] == "9991234567";
  }

  /** The groups of the example number. */
  lemma ExampleGroups(p: string)
    requires p == "9991234567"
    ensures p[..3] == "999" && p[3..6] == "123" && p[6..8] == "45" && p[8..10] == "67"
  {
  }

  /** The example's groups joined with their separators. */
  lemma ExampleJoined()
    ensures "+7 (" + ("999" + (") " + "123" + ("-" + "45" + ("-" + "67")))) == "+7 (999) 123-45-67"
  {
  }

  /** A full number typed with its trunk prefix gets the complete layout. */
  lemma CompleteNumber()
    ensures Formatted("89991234567") == "+7 (999) 123-45-67"
  {
    var p := "9991234567";
    ExampleDigitsKept();
    ExampleNumberPart();
    FullLayout(p);
    ExampleGroups(p);
    ExampleJoined();
  }
}
