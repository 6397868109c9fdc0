/** The Russian amount in words printed on an invoice: "Сто двадцать один рубль 05
    копеек". Numbers are first spelled as a list of words (the digit group a word
    stands for), which is then printed with single spaces. */
module AmountWords {
  import opened Text
  import opened Spacing

  const To19: seq<string> := ["ноль", "один", "два", "три", "четыре", "пять", "шесть", "семь",
    "восемь", "девять", "десять", "одиннадцать", "двенадцать", "тринадцать", "четырнадцать",
    "пятнадцать", "шестнадцать", "семнадцать", "восемнадцать", "девятнадцать"]
  const To99: seq<string> := ["", "десять", "двадцать", "тридцать", "сорок", "пятьдесят",
    "шестьдесят", "семьдесят", "восемьдесят", "девяносто"]
  const To999: seq<string> := ["", "сто", "двести", "триста", "четыреста", "пятьсот",
    "шестьсот", "семьсот", "восемьсот", "девятьсот"]
  const KopeckForms: seq<string> := ["копейка", "копейки", "копеек"]
  const RubleForms: seq<string> := ["рубль", "рубля", "рублей"]
  const ThousandForms: seq<string> := ["тысяча", "тысячи", "тысяч"]

  /** Grammatical gender of the counted noun: рубль is masculine, тысяча feminine. */
  datatype Gender = Male | Female

  /** One spelled word: a unit or teen (1-19), a ten (20-90), a hundred, or the word
      for thousand in one of its three forms. */
  datatype Word = Unit(d: nat, gender: Gender) | Tens(d: nat) | Hundreds(d: nat) | Thousands(form: nat)

  predicate ValidWord(w: Word) {
    match w
    case Unit(d, _) => 1 <= d <= 19
    case Tens(d) => 2 <= d <= 9
    case Hundreds(d) => 1 <= d <= 9
    case Thousands(f) => f < 3
  }

  predicate AllValid(ws: seq<Word>) {
    forall i :: 0 <= i < |ws| ==> ValidWord(ws[i])
  }

  /** declension's table position: the form of a noun after the number n. */
  function DeclensionIndex(n: nat): (r: nat)
    ensures r < 3
  {
    var cases := [2, 0, 1, 1, 1, 2];
    if n % 100 > 4 && n % 100 < 20 then 2
    else cases[if n % 10 < 5 then n % 10 else 5]
  }

  /** The Russian rule: singular after 1, 21, 31 ... but not 11; paucal after 2-4,
      22-24 ... but not 12-14; genitive plural otherwise. */
  lemma DeclensionRule(n: nat)
    ensures DeclensionIndex(n) == 0 <==> n % 10 == 1 && n % 100 != 11
    ensures DeclensionIndex(n) == 1 <==> 2 <= n % 10 <= 4 && !(12 <= n % 100 <= 14)
    ensures DeclensionIndex(n) == 2 <==> !(n % 10 == 1 && n % 100 != 11) && !(2 <= n % 10 <= 4 && !(12 <= n % 100 <= 14))
  {
    assert n % 100 % 10 == n % 10;
  }

  /** JavaScript's %: the remainder keeps the sign of the dividend. */
  function JsRem(a: int, b: int): (r: int)
    requires b > 0
    ensures a >= 0 ==> r == a % b
    ensures a < 0 ==> -b < r <= 0
  {
    if a >= 0 then a % b else -((-a) % b)
  }

  /** The JavaScript remainder by ten is 0 exactly for the multiples of ten, negative ones included. */
  lemma JsRemTens(n: int)
    ensures JsRem(n, 10) == 0 <==> n % 10 == 0
  {
  }

  /** declension as JavaScript evaluates it on any whole number. For a negative n both
      remainders are at most 0, so the teen test fails and the table is read at
      Math.min(n % 10, 5), a negative position with no entry (read as undefined, which
      prints as "undefined") unless n is a multiple of ten. */
  function Declension(n: int, titles: seq<string>): (r: string)
    requires |titles| == 3
    ensures n >= 0 ==> r == titles[DeclensionIndex(n)]
    ensures n < 0 ==> r == if n % 10 == 0 then titles[2] else "undefined"
  {
    var cases := [2, 0, 1, 1, 1, 2];
    var tens := JsRem(n, 100);
    var unit := JsRem(n, 10);
    assert unit == 0 <==> n % 10 == 0 by { JsRemTens(n); }
    var at := if unit < 5 then unit else 5;
    if tens > 4 && tens < 20 then titles[2]
    else if at >= 0 then titles[cases[at]]
    else "undefined"
  }

  /** How a word is written; feminine one and two are "одна" and "две". */
  function Spell(w: Word): string
    requires ValidWord(w)
  {
    match w
    case Unit(d, g) =>
      if g == Female && d == 1 then "одна"
      else if g == Female && d == 2 then "две"
      else To19[d]
    case Tens(d) => To99[d]
    case Hundreds(d) => To999[d]
    case Thousands(f) => ThousandForms[f]
  }

  function SpellAll(ws: seq<Word>): (r: seq<string>)
    requires AllValid(ws)
    ensures |r| == |ws|
  {
    if ws == [] then [] else [Spell(ws[0])] + SpellAll(ws[1..])
  }

  /** The words printed with single spaces. */
  function Spelled(ws: seq<Word>): string
    requires AllValid(ws)
  {
    JoinWords(SpellAll(ws))
  }

  /** The hundred of a number below a thousand, when it has one. */
  function HundredWord(m: nat): (r: seq<Word>)
    requires m < 1000
    ensures AllValid(r) && |r| <= 1
  {
    if m > 99 then [Hundreds(m / 100)] else []
  }

  /** The ten of a number below a hundred, when it exceeds 19. */
  function TenWord(m: nat): (r: seq<Word>)
    requires m < 100
    ensures AllValid(r) && |r| <= 1
  {
    if m > 19 then [Tens(m / 10)] else []
  }

  /** The unit of a digit, when it is not zero. */
  function UnitWord(m: nat, g: Gender): (r: seq<Word>)
    requires m < 10
    ensures AllValid(r) && |r| <= 1
  {
    if m > 0 then [Unit(m, g)] else []
  }

  /** The words for a number below a thousand as numToWords emits them: a hundred
      when there is one, a ten when the last two digits exceed 19, then the last
      digit when it is not zero. */
  function SmallAsWritten(m: nat, g: Gender): (r: seq<Word>)
    requires m < 1000
    ensures AllValid(r)
  {
    HundredWord(m) + TenWord(m % 100) + UnitWord(m % 10, g)
  }

  /** numToWords as written: the thousands spelled in the feminine followed by the
      word for thousand, then the last three digits. */
  function AsWrittenWords(n: nat, g: Gender): (r: seq<Word>)
    ensures AllValid(r)
  {
    (if n > 999 then AsWrittenWords(n / 1000, Female) + [Thousands(DeclensionIndex(n / 1000))] else [])
    + SmallAsWritten(n % 1000, g)
  }

  /** The words for a number below a thousand with the teens spelled: the last two
      digits in 10..19 are one word. */
  function Small(m: nat, g: Gender): (r: seq<Word>)
    requires m < 1000
    ensures AllValid(r)
  {
    (if m > 99 then [Hundreds(m / 100)] else [])
    + (if m % 100 > 19 then [Tens(m % 100 / 10)] + (if m % 10 > 0 then [Unit(m % 10, g)] else [])
       else if m % 100 > 0 then [Unit(m % 100, g)]
       else [])
  }

  /** numToWords with the teens spelled. */
  function Words(n: nat, g: Gender): (r: seq<Word>)
    ensures AllValid(r)
  {
    (if n > 999 then Words(n / 1000, Female) + [Thousands(DeclensionIndex(n / 1000))] else [])
    + Small(n % 1000, g)
  }

  /** What a word other than thousand adds to the number being read. */
  function WordValue(w: Word): nat {
    match w
    case Unit(d, _) => d
    case Tens(d) => 10 * d
    case Hundreds(d) => 100 * d
    case Thousands(_) => 0
  }

  /** Reading one word: a word for thousand multiplies what was read so far by a
      thousand, any other word adds its value. */
  function Step(v: nat, w: Word): nat {
    if w.Thousands? then v * 1000 else v + WordValue(w)
  }

  /** Reading words back to a number, left to right. */
  function ReadFrom(v: nat, ws: seq<Word>): nat
    decreases |ws|
  {
    if ws == [] then v else ReadFrom(Step(v, ws[0]), ws[1..])
  }

  function Read(ws: seq<Word>): nat {
    ReadFrom(0, ws)
  }

  lemma {:induction false} ReadFromAppend(v: nat, a: seq<Word>, b: seq<Word>)
    decreases |a|
    ensures ReadFrom(v, a + b) == ReadFrom(ReadFrom(v, a), b)
  {
    if a != [] {
      assert (a + b)[0] == a[0] && (a + b)[1..] == a[1..] + b;
      ReadFromAppend(Step(v, a[0]), a[1..], b);
    } else {
      assert a + b == b;
    }
  }

  lemma ReadOne(v: nat, w: Word)
    ensures ReadFrom(v, [w]) == Step(v, w)
  {
    assert [w][1..] == [];
  }

  /** Reading at most one word. */
  function ReadOpt(v: nat, ws: seq<Word>): nat
    requires |ws| <= 1
  {
    if ws == [] then v else Step(v, ws[0])
  }

  /** Reading three optional words in a row. */
  lemma ReadThree(v: nat, a: seq<Word>, b: seq<Word>, c: seq<Word>)
    requires |a| <= 1 && |b| <= 1 && |c| <= 1
    ensures ReadFrom(v, a + (b + c)) == ReadOpt(ReadOpt(ReadOpt(v, a), b), c)
  {
    ReadFromAppend(v, a, b + c);
    ReadFromAppend(ReadFrom(v, a), b, c);
    if a != [] { ReadOne(v, a[0]); }
    if b != [] { ReadOne(ReadFrom(v, a), b[0]); }
    if c != [] { ReadOne(ReadFrom(ReadFrom(v, a), b), c[0]); }
  }

  /** The digits of a number below a thousand. */
  lemma Digits(m: nat)
    requires m < 1000
    ensures m == 100 * (m / 100) + m % 100 && m / 100 < 10
    ensures m % 100 == 10 * (m % 100 / 10) + m % 10 && m % 100 % 10 == m % 10
  {
  }

  lemma SmallRead(v: nat, m: nat, g: Gender)
    requires m < 1000
    ensures ReadFrom(v, Small(m, g)) == v + m
  {
    Digits(m);
    var a, r, c := m / 100, m % 100, m % 10;
    var h := if m > 99 then [Hundreds(a)] else [];
    assert ReadOpt(v, h) == v + 100 * a;
    if r > 19 {
      var t := [Tens(r / 10)];
      var u := if c > 0 then [Unit(c, g)] else [];
      assert Small(m, g) == h + (t + u);
      ReadThree(v, h, t, u);
      assert ReadOpt(v + 100 * a, t) == v + 100 * a + 10 * (r / 10);
    } else {
      var t := if r > 0 then [Unit(r, g)] else [];
      assert Small(m, g) == h + (t + []);
      ReadThree(v, h, t, []);
      assert ReadOpt(v + 100 * a, t) == v + 100 * a + r;
    }
  }

  /** The spelled words read back to the number: no digit group is lost. */
  lemma {:induction false} WordsRoundTrip(n: nat, g: Gender)
    ensures Read(Words(n, g)) == n
  {
    var small := Small(n % 1000, g);
    if n > 999 {
      var high := Words(n / 1000, Female);
      var th := [Thousands(DeclensionIndex(n / 1000))];
      assert Words(n, g) == high + (th + small);
      WordsRoundTrip(n / 1000, Female);
      ReadFromAppend(0, high, th + small);
      ReadFromAppend(n / 1000, th, small);
      ReadOne(n / 1000, th[0]);
      SmallRead(n / 1000 * 1000, n % 1000, g);
    } else {
      assert Words(n, g) == small;
      SmallRead(0, n % 1000, g);
    }
  }

  /** What numToWords as written loses: ten in every group of three digits whose last
      two digits are 10..19, scaled by the group's position. */
  function Lost(n: nat): nat {
    (if n > 999 then 1000 * Lost(n / 1000) else 0) + (if 10 <= n % 100 <= 19 then 10 else 0)
  }

  lemma SmallAsWrittenRead(v: nat, m: nat, g: Gender)
    requires m < 1000
    ensures ReadFrom(v, SmallAsWritten(m, g)) + (if 10 <= m % 100 <= 19 then 10 else 0) == v + m
  {
    Digits(m);
    var h, t, u := HundredWord(m), TenWord(m % 100), UnitWord(m % 10, g);
    assert SmallAsWritten(m, g) == h + (t + u);
    ReadThree(v, h, t, u);
    var vh := ReadOpt(v, h);
    assert vh == v + 100 * (m / 100);
    var vt := ReadOpt(vh, t);
    assert vt == vh + (if m % 100 > 19 then 10 * (m % 100 / 10) else 0);
    assert ReadOpt(vt, u) == vt + m % 10;
  }

  /** Putting the thousands and the last three digits back together. */
  lemma Regroup(n: nat, r: nat, l: nat, read: nat, teen: nat)
    requires n > 999 && r + l == n / 1000 && read + teen == r * 1000 + n % 1000
    ensures read + (1000 * l + teen) == n
  {
    calc {
      read + (1000 * l + teen);
      r * 1000 + n % 1000 + 1000 * l;
      (r + l) * 1000 + n % 1000;
      n / 1000 * 1000 + n % 1000;
    }
  }

  /** Reading the thousands, their noun and the last three digits. */
  lemma ReadThousands(high: seq<Word>, th: Word, small: seq<Word>)
    requires th.Thousands?
    ensures Read(high + ([th] + small)) == ReadFrom(Read(high) * 1000, small)
  {
    ReadFromAppend(0, high, [th] + small);
    ReadFromAppend(Read(high), [th], small);
    ReadOne(Read(high), th);
  }

  /** numToWords as written reads back short by exactly what Lost counts. */
  lemma {:induction false} AsWrittenRead(n: nat, g: Gender)
    ensures Read(AsWrittenWords(n, g)) + Lost(n) == n
  {
    ModDigits(n);
    var teen := if 10 <= n % 100 <= 19 then 10 else 0;
    var small := SmallAsWritten(n % 1000, g);
    if n > 999 {
      AsWrittenUnfold(n, g);
      var high := AsWrittenWords(n / 1000, Female);
      AsWrittenRead(n / 1000, Female);
      ReadThousands(high, Thousands(DeclensionIndex(n / 1000)), small);
      var r := Read(high);
      SmallAsWrittenRead(r * 1000, n % 1000, g);
      Regroup(n, r, Lost(n / 1000), ReadFrom(r * 1000, small), teen);
    } else {
      assert n % 1000 == n;
      assert AsWrittenWords(n, g) == small;
      assert Read(AsWrittenWords(n, g)) == ReadFrom(0, small);
      assert Lost(n) == teen;
      SmallAsWrittenRead(0, n % 1000, g);
    }
  }

  /** One step of numToWords as written, and of what it loses, above a thousand. */
  lemma AsWrittenUnfold(n: nat, g: Gender)
    requires n > 999
    ensures AsWrittenWords(n, g)
      == AsWrittenWords(n / 1000, Female) + ([Thousands(DeclensionIndex(n / 1000))] + SmallAsWritten(n % 1000, g))
    ensures Lost(n) == 1000 * Lost(n / 1000) + (if 10 <= n % 100 <= 19 then 10 else 0)
  {
  }

  lemma SmallAgrees(m: nat, g: Gender)
    requires m < 1000 && !(10 <= m % 100 <= 19)
    ensures SmallAsWritten(m, g) == Small(m, g)
  {
    assert m % 100 % 10 == m % 10;
    if m % 100 > 19 {
      assert SmallAsWritten(m, g) == HundredWord(m) + ([Tens(m % 100 / 10)] + UnitWord(m % 10, g));
    } else if m % 100 > 0 {
      assert m % 100 == m % 10;
    }
  }

  /** Where no group of three digits ends in 10..19, numToWords as written is right. */
  lemma {:induction false} AsWrittenAgrees(n: nat, g: Gender)
    requires Lost(n) == 0
    ensures AsWrittenWords(n, g) == Words(n, g)
  {
    ModDigits(n);
    SmallAgrees(n % 1000, g);
    if n > 999 {
      AsWrittenUnfold(n, g);
      assert Lost(n / 1000) == 0;
      AsWrittenAgrees(n / 1000, Female);
      assert Words(n, g) == Words(n / 1000, Female) + [Thousands(DeclensionIndex(n / 1000))] + Small(n % 1000, g);
    } else {
      assert AsWrittenWords(n, g) == SmallAsWritten(n % 1000, g);
      assert Words(n, g) == Small(n % 1000, g);
    }
  }

  /** Fifteen is spelled as five, and numbers differing only in a teen coincide. */
  lemma FifteenSpelledAsFive()
    ensures AsWrittenWords(15, Male) == AsWrittenWords(5, Male) == [Unit(5, Male)]
    ensures Spelled(AsWrittenWords(15, Male)) == "пять"
    ensures Spelled(Words(15, Male)) == "пятнадцать"
  {
    FifteenAsWritten();
    FifteenSpelled();
    SpelledUnit(5);
    SpelledUnit(15);
  }

  lemma FifteenAsWritten()
    ensures AsWrittenWords(15, Male) == [Unit(5, Male)]
    ensures AsWrittenWords(5, Male) == [Unit(5, Male)]
  {
    assert AsWrittenWords(15, Male) == [] + SmallAsWritten(15, Male);
    assert AsWrittenWords(5, Male) == [] + SmallAsWritten(5, Male);
  }

  lemma FifteenSpelled()
    ensures Words(15, Male) == [Unit(15, Male)]
  {
    assert Words(15, Male) == [] + Small(15, Male);
  }

  /** One masculine unit word is printed as itself. */
  lemma SpelledUnit(d: nat)
    requires 1 <= d < 20
    ensures Spelled([Unit(d, Male)]) == To19[d]
  {
    SpellOne(Unit(d, Male));
  }

  lemma SpellTidy(w: Word)
    requires ValidWord(w)
    ensures Tidy(Spell(w))
  {
    match w
    case Unit(d, g) =>
      assert forall i :: 1 <= i < 20 ==> Tidy(To19[i]);
    case Tens(d) =>
      assert forall i :: 2 <= i < 10 ==> Tidy(To99[i]);
    case Hundreds(d) =>
      assert forall i :: 1 <= i < 10 ==> Tidy(To999[i]);
    case Thousands(f) =>
      assert forall i :: 0 <= i < 3 ==> Tidy(ThousandForms[i]);
  }

  lemma {:induction false} SpellAllTidy(ws: seq<Word>)
    requires AllValid(ws)
    ensures AllTidy(SpellAll(ws))
  {
    if ws != [] {
      SpellTidy(ws[0]);
      SpellAllTidy(ws[1..]);
    }
  }

  lemma SpellOne(w: Word)
    requires ValidWord(w)
    ensures SpellAll([w]) == [Spell(w)]
  {
    assert [w][1..] == [];
  }

  lemma {:induction false} SpellAllAppend(a: seq<Word>, b: seq<Word>)
    requires AllValid(a) && AllValid(b)
    ensures AllValid(a + b) && SpellAll(a + b) == SpellAll(a) + SpellAll(b)
  {
    if a == [] {
      assert a + b == b;
    } else {
      assert (a + b)[0] == a[0] && (a + b)[1..] == a[1..] + b;
      SpellAllAppend(a[1..], b);
    }
  }

  lemma ModDigits(n: nat)
    ensures n % 1000 % 100 == n % 100 && n % 100 % 10 == n % 10 && n % 1000 % 10 == n % 10
  {
    ThousandsToHundreds(n);
    HundredsToTens(n);
    ThousandsToTens(n);
  }

  lemma ThousandsToHundreds(n: nat)
    ensures n % 1000 % 100 == n % 100
  {
    var q, r := n / 1000, n % 1000;
    var h, t := r / 100, r % 100;
    assert n == 1000 * q + r && r == 100 * h + t;
    Remainder100(10 * q + h, t);
  }

  lemma HundredsToTens(n: nat)
    ensures n % 100 % 10 == n % 10
  {
    var q, r := n / 100, n % 100;
    var h, t := r / 10, r % 10;
    assert n == 100 * q + r && r == 10 * h + t;
    Remainder10(10 * q + h, t);
  }

  lemma ThousandsToTens(n: nat)
    ensures n % 1000 % 10 == n % 10
  {
    var q, r := n / 1000, n % 1000;
    var h, t := r / 10, r % 10;
    assert n == 1000 * q + r && r == 10 * h + t;
    Remainder10(100 * q + h, t);
  }

  lemma Remainder100(a: nat, b: nat)
    requires b < 100
    ensures (100 * a + b) % 100 == b
  {
  }

  lemma Remainder10(a: nat, b: nat)
    requires b < 10
    ensures (10 * a + b) % 10 == b
  {
  }

  /** numToWords: the thousands (recursively, in the feminine) and their noun, then
      the hundred, the ten and the unit, each followed by a space except the unit,
      and the whole trimmed. */
  method NumToWords(n: int, gender: Gender) returns (s: string)
    decreases if n < 0 then 0 else n
    ensures n >= 0 ==> s == Spelled(AsWrittenWords(n, gender))
    ensures n < 0 ==> s == ""
  {
    var str := "";
    var m := n;
    ghost var lead := "";
    ghost var toks: seq<Word> := [];
    if m > 999 {
      var w := NumToWords(m / 1000, Female);
      str := str + w + " " + Declension(m / 1000, ThousandForms) + " ";
      lead := ThousandsBuilt(AsWrittenWords(n / 1000, Female), DeclensionIndex(n / 1000), w, str);
      toks := AsWrittenWords(n / 1000, Female) + [Thousands(DeclensionIndex(n / 1000))];
    }
    m := JsRem(m, 1000);
    if n >= 0 {
      s := SayBelowThousand(str, m, gender, lead, toks);
      AsWrittenShape(n, gender);
    } else {
      // Below zero every remainder is at most 0 and passes none of the three tests
      // that follow in the code: only the trim is left.
      s := Trim(str);
    }
  }

  /** The rest of numToWords once the thousands are written: the hundred, the ten and
      the unit of the number below a thousand, then the trim. */
  method SayBelowThousand(built: string, below: nat, gender: Gender, ghost lead: string, ghost toks: seq<Word>)
    returns (s: string)
    requires below < 1000
    requires lead == "" || lead == " "
    requires AllValid(toks) && built == lead + Spaced(SpellAll(toks))
    ensures s == Spelled(toks + HundredWord(below) + TenWord(below % 100) + UnitWord(below % 100 % 10, gender))
  {
    Digits(below);
    var str := built;
    var m := below;
    ghost var words := toks;
    ghost var before := str;
    if m > 99 {
      str := str + To999[m / 100] + " ";
    }
    AppendWord(lead, words, HundredWord(m), before, str);
    words := words + HundredWord(m);
    m := m % 100;
    before := str;
    if m > 19 {
      str := str + To99[m / 10] + " ";
    }
    AppendWord(lead, words, TenWord(m), before, str);
    words := words + TenWord(m);
    m := m % 10;
    before := str;
    if m > 0 {
      if gender == Female && (m == 1 || m == 2) {
        str := str + (if m == 1 then "одна" else "две");
      } else {
        str := str + To19[m];
      }
    }
    LastWord(lead, words, UnitWord(m, gender), before, str);
    s := Trim(str);
  }

  /** numToWords as written, piece by piece in the order the code appends them, with
      the remainders the code computes. */
  lemma AsWrittenShape(n: nat, g: Gender)
    ensures var m := n % 1000;
      AsWrittenWords(n, g)
      == (if n > 999 then AsWrittenWords(n / 1000, Female) + [Thousands(DeclensionIndex(n / 1000))] else [])
         + HundredWord(m) + TenWord(m % 100) + UnitWord(m % 100 % 10, g)
  {
    var m := n % 1000;
    HundredsToTens(m);
    var high := if n > 999 then AsWrittenWords(n / 1000, Female) + [Thousands(DeclensionIndex(n / 1000))] else [];
    assert AsWrittenWords(n, g) == high + SmallAsWritten(m, g);
    Associative(high, HundredWord(m), TenWord(m % 100), UnitWord(m % 10, g));
  }

  lemma Associative<T>(a: seq<T>, b: seq<T>, c: seq<T>, d: seq<T>)
    ensures a + (b + c + d) == a + b + c + d
  {
  }

  /** The thousands part as numToWords builds it: the blank left in front when the
      thousands spell as nothing, then the words each followed by a blank. */
  lemma ThousandsBuilt(high: seq<Word>, form: nat, w: string, str: string) returns (lead: string)
    requires AllValid(high) && form < 3 && w == Spelled(high)
    requires str == "" + w + " " + ThousandForms[form] + " "
    ensures lead == "" || lead == " "
    ensures AllValid(high + [Thousands(form)])
    ensures str == lead + Spaced(SpellAll(high + [Thousands(form)]))
  {
    var th := Thousands(form);
    SpellAllAppend(high, [th]);
    SpellOne(th);
    ThousandsPiece(SpellAll(high), ThousandForms[form]);
    lead := if SpellAll(high) == [] then " " else "";
    assert str == w + " " + ThousandForms[form] + " ";
  }

  /** A hundred or a ten, when there is one, appended with its blank. */
  lemma AppendWord(lead: string, toks: seq<Word>, more: seq<Word>, built: string, str: string)
    requires AllValid(toks) && AllValid(more) && |more| <= 1
    requires built == lead + Spaced(SpellAll(toks))
    requires str == if more == [] then built else built + Spell(more[0]) + " "
    ensures AllValid(toks + more)
    ensures str == lead + Spaced(SpellAll(toks + more))
  {
    SpellAllAppend(toks, more);
    if more == [] {
      assert toks + more == toks;
    } else {
      SpellOne(more[0]);
      AppendPiece(lead, SpellAll(toks), Spell(more[0]));
    }
  }

  /** The unit, written with no blank after it, and the trimmed result. */
  lemma LastWord(lead: string, toks: seq<Word>, unit: seq<Word>, built: string, str: string)
    requires lead == "" || lead == " "
    requires AllValid(toks) && AllValid(unit) && |unit| <= 1
    requires built == lead + Spaced(SpellAll(toks))
    requires str == if unit == [] then built else built + Spell(unit[0])
    ensures AllValid(toks + unit) && Trim(str) == Spelled(toks + unit)
  {
    var u := if unit == [] then "" else Spell(unit[0]);
    SpellAllAppend(toks, unit);
    SpellAllTidy(toks);
    if unit != [] { SpellTidy(unit[0]); SpellOne(unit[0]); }
    TrimBuilt(lead, SpellAll(toks), u);
    assert SpellAll(toks + unit) == SpellAll(toks) + (if u == "" then [] else [u]);
    assert str == lead + Spaced(SpellAll(toks)) + u;
  }

  /** The first letter upper-cased, the rest as is. */
  function Capitalized(s: string): (r: string)
    ensures |r| == |s| && (s != "" ==> r[0] == UpperChar(s[0]) && r[1..] == s[1..])
  {
    if s == "" then "" else [UpperChar(s[0])] + s[1..]
  }

  /** The kopecks as printed: a leading zero below ten. */
  function Kopecks(kop: nat): string {
    (if kop < 10 then "0" else "") + Decimal(kop)
  }

  /** Below a hundred the kopecks are always two digits, tens first. */
  lemma KopecksTwoDigits(kop: nat)
    requires kop < 100
    ensures Kopecks(kop) == [Digit(kop / 10), Digit(kop % 10)]
  {
    if kop >= 10 {
      assert Decimal(kop) == Decimal(kop / 10) + [Digit(kop % 10)];
    }
  }

  /** Math.round((num - rub) * 100): the fraction of a ruble rounded half up to
      kopecks, which reaches 100 just below a whole ruble. The fraction is taken above
      the floor, so it is never negative, whatever the sign of num. */
  function KopecksOf(num: real): (kop: nat)
    ensures kop <= 100
  {
    var f := num - num.Floor as real;
    assert 0.0 <= f < 1.0;
    (f * 100.0 + 0.5).Floor
  }

  /** numberToWords: the whole rubles spelled and capitalised with their noun, then
      the kopecks in figures with theirs. Below zero numToWords writes nothing and
      declension finds no form unless the rubles are a multiple of ten, so the text
      starts with a blank and the ruble noun is рублей or "undefined". */
  method NumberToWords(num: real) returns (result: string)
    ensures var rub := num.Floor;
      var kop := KopecksOf(num);
      var kopecks := " " + Kopecks(kop) + " " + KopeckForms[DeclensionIndex(kop)];
      && (rub >= 0 ==> result == Capitalized(Spelled(AsWrittenWords(rub, Male)) + " " + RubleForms[DeclensionIndex(rub)]) + kopecks)
      && (rub < 0 ==> result == " " + (if rub % 10 == 0 then RubleForms[2] else "undefined") + kopecks)
  {
    var rub := num.Floor;
    var kop := KopecksOf(num);
    var words := NumToWords(rub, Male);
    var noun := Declension(rub, RubleForms);
    result := words + " " + noun;
    result := Capitalized(result);
    var tail := " " + Kopecks(kop) + " " + Declension(kop, KopeckForms);
    assert tail == " " + Kopecks(kop) + " " + KopeckForms[DeclensionIndex(kop)];
    if rub < 0 {
      assert words + " " + noun == " " + noun;
      assert result == " " + noun;
    }
    result := result + tail;
  }

  /** A negative total of five rubles: no words, no ruble noun, no kopecks. */
  method NegativeTotal() returns (text: string)
    ensures text == " undefined 00 копеек"
  {
    assert KopecksOf(-5.0) == 0;
    text := NumberToWords(-5.0);
    assert Kopecks(0) == "00";
  }

  /** A negative multiple of ten finds the genitive plural and nothing else. */
  method NegativeTens() returns (text: string)
    ensures text == " рублей 50 копеек"
  {
    assert (-9.5).Floor == -10 && KopecksOf(-9.5) == 50;
    text := NumberToWords(-9.5);
    assert Kopecks(50) == "50" by { KopecksTwoDigits(50); }
  }
}
