/** Licence-plate normalisation: Cyrillic letters that look like Latin ones are
    transliterated, everything is upper-cased, and only A-Z and 0-9 are kept. */
module Plates {
  import opened Wrappers
  import opened Text

  /** The twelve Cyrillic look-alikes, capital and small, and their Latin capitals. */
  function CyrillicToLatin(c: char): (r: Option<char>)
    ensures r.Some? ==> 'A' <= r.value <= 'Z'
  {
    match c
    case 'А' => Some('A') case 'В' => Some('B') case 'Е' => Some('E') case 'К' => Some('K')
    case 'М' => Some('M') case 'Н' => Some('H') case 'О' => Some('O') case 'Р' => Some('P')
    case 'С' => Some('C') case 'Т' => Some('T') case 'У' => Some('Y') case 'Х' => Some('X')
    case 'а' => Some('A') case 'в' => Some('B') case 'е' => Some('E') case 'к' => Some('K')
    case 'м' => Some('M') case 'н' => Some('H') case 'о' => Some('O') case 'р' => Some('P')
    case 'с' => Some('C') case 'т' => Some('T') case 'у' => Some('Y') case 'х' => Some('X')
    case _ => None
  }

  /** `cyrillicToLatinMap[char] || char`. */
  function Transliterated(c: char): char {
    CyrillicToLatin(c).GetOr(c)
  }

  /** The loop's result: every character transliterated. */
  function TransliteratedAll(s: string): (r: string)
    ensures |r| == |s|
    ensures forall i :: 0 <= i < |s| ==> r[i] == Transliterated(s[i])
  {
    if s == "" then "" else [Transliterated(s[0])] + TransliteratedAll(s[1..])
  }

  predicate PlateChar(c: char) {
    'A' <= c <= 'Z' || '0' <= c <= '9'
  }

  /** `replace(/[^A-Z0-9]/g, '')`. */
  function KeepPlateChars(s: string): (r: string)
    ensures forall i :: 0 <= i < |r| ==> PlateChar(r[i])
  {
    if s == "" then ""
    else if PlateChar(s[0]) then [s[0]] + KeepPlateChars(s[1..])
    else KeepPlateChars(s[1..])
  }

  /** The filter works piece by piece. */
  lemma {:induction false} KeepAppend(a: string, b: string)
    ensures KeepPlateChars(a + b) == KeepPlateChars(a) + KeepPlateChars(b)
  {
    if a == "" {
      assert a + b == b;
    } else {
      assert (a + b)[0] == a[0] && (a + b)[1..] == a[1..] + b;
      KeepAppend(a[1..], b);
    }
  }

  /** The filter keeps a text of Latin capitals and digits whole. */
  lemma {:induction false} KeepPlateText(s: string)
    requires forall i :: 0 <= i < |s| ==> PlateChar(s[i])
    ensures KeepPlateChars(s) == s
  {
    if s != "" {
      KeepPlateText(s[1..]);
    }
  }

  /** What one input character becomes: the Latin capitals and digits of its upper-case
      image, at most three (the ligature ﬃ gives FFI). */
  function CharImage(c: char): (r: string)
    ensures |r| <= 3
  {
    KeepShorter(UpperImage(Transliterated(c)));
    KeepPlateChars(UpperImage(Transliterated(c)))
  }

  /** The filter never lengthens a text. */
  lemma {:induction false} KeepShorter(s: string)
    ensures |KeepPlateChars(s)| <= |s|
  {
    if s != "" {
      KeepShorter(s[1..]);
    }
  }

  /** The normalised plate, character by character. */
  function Normalized(plate: string): string {
    if plate == "" then "" else CharImage(plate[0]) + Normalized(plate[1..])
  }

  /** normalizeLicensePlate: the transliterating loop, then one upper-case and one
      filter over the whole string. */
  method NormalizeLicensePlate(plate: string) returns (r: string)
    ensures r == Normalized(plate)
    ensures plate == "" ==> r == ""
  {
    if plate == "" {
      return "";
    }
    var normalized := "";
    for i := 0 to |plate|
      invariant |normalized| == i
      invariant forall j :: 0 <= j < i ==> normalized[j] == Transliterated(plate[j])
    {
      normalized := normalized + [Transliterated(plate[i])];
    }
    assert normalized == TransliteratedAll(plate);
    r := KeepPlateChars(Upper(normalized));
    PipelineIsPerChar(plate);
  }

  /** Transliterating, upper-casing and filtering the whole string is mapping each
      character to its image. */
  lemma {:induction false} PipelineIsPerChar(plate: string)
    ensures KeepPlateChars(Upper(TransliteratedAll(plate))) == Normalized(plate)
  {
    if plate != "" {
      PipelineIsPerChar(plate[1..]);
      var u := Upper(TransliteratedAll(plate));
      assert u == UpperImage(Transliterated(plate[0])) + Upper(TransliteratedAll(plate[1..]));
      KeepAppend(UpperImage(Transliterated(plate[0])), Upper(TransliteratedAll(plate[1..])));
    }
  }

  /** The result holds only Latin capitals and digits. */
  lemma {:induction false} NormalizedChars(plate: string)
    ensures forall i :: 0 <= i < |Normalized(plate)| ==> PlateChar(Normalized(plate)[i])
  {
    if plate != "" {
      NormalizedChars(plate[1..]);
      var head := CharImage(plate[0]);
      var n := Normalized(plate);
      forall i | 0 <= i < |n| ensures PlateChar(n[i]) {
        if i >= |head| { assert n[i] == Normalized(plate[1..])[i - |head|]; }
      }
    }
  }

  /** Plates normalise piece by piece: order is kept and nothing crosses a boundary. */
  lemma {:induction false} NormalizedAppend(a: string, b: string)
    ensures Normalized(a + b) == Normalized(a) + Normalized(b)
  {
    if a == "" {
      assert a + b == b;
    } else {
      assert (a + b)[0] == a[0] && (a + b)[1..] == a[1..] + b;
      NormalizedAppend(a[1..], b);
    }
  }

  /** A Latin capital or a digit is its own image. */
  lemma PlateCharFixed(c: char)
    requires PlateChar(c)
    ensures CharImage(c) == [c]
  {
    assert UpperImage(c) == [c];
    KeepPlateText([c]);
  }

  /** A normalised text is left as it is by normalising. */
  lemma {:induction false} PlateTextFixed(s: string)
    requires forall i :: 0 <= i < |s| ==> PlateChar(s[i])
    ensures Normalized(s) == s
  {
    if s != "" {
      PlateCharFixed(s[0]);
      PlateTextFixed(s[1..]);
    }
  }

  /** Normalising twice is normalising once. */
  lemma {:induction false} NormalizedIdempotent(plate: string)
    ensures Normalized(Normalized(plate)) == Normalized(plate)
  {
    if plate != "" {
      var head := CharImage(plate[0]);
      NormalizedAppend(head, Normalized(plate[1..]));
      NormalizedIdempotent(plate[1..]);
      PlateTextFixed(head);
    }
  }

  /** A one-character plate is that character's image. */
  lemma NormalizedChar(c: char)
    ensures Normalized([c]) == CharImage(c)
  {
    assert [c][1..] == "";
  }

  /** Images of the characters the examples below use. */
  lemma ExampleImages()
    ensures CharImage('С') == "C" && CharImage('Е') == "E" && CharImage('А') == "A"
    ensures CharImage('0') == "0" && CharImage('3') == "3"
  {
    LookAlikeImage('С'); LookAlikeImage('Е'); LookAlikeImage('А');
    PlateCharFixed('0'); PlateCharFixed('3');
  }

  /** A Cyrillic look-alike becomes its Latin capital. */
  lemma LookAlikeImage(c: char)
    requires CyrillicToLatin(c).Some?
    ensures CharImage(c) == [CyrillicToLatin(c).value]
  {
    var u := CyrillicToLatin(c).value;
    assert UpperImage(u) == [u];
    KeepPlateText([u]);
  }

  /** One more character normalises to one more image. */
  lemma NormalizedSnoc(a: string, c: char)
    ensures Normalized(a + [c]) == Normalized(a) + CharImage(c)
  {
    NormalizedAppend(a, [c]);
    NormalizedChar(c);
  }

  /** A plate typed in Cyrillic comes out in Latin capitals, digits kept. */
  lemma NormalizedExample()
    ensures Normalized("С003ЕА") == "C003EA"
  {
    ExampleImages();
    NormalizedThree('С', '0', '0');
    NormalizedThree('3', 'Е', 'А');
    assert "С003ЕА" == ['С', '0', '0'] + ['3', 'Е', 'А'];
    NormalizedAppend(['С', '0', '0'], ['3', 'Е', 'А']);
  }

  /** Three characters normalise to their three images. */
  lemma NormalizedThree(a: char, b: char, c: char)
    ensures Normalized([a, b, c]) == CharImage(a) + CharImage(b) + CharImage(c)
  {
    NormalizedChar(a);
    NormalizedSnoc([a], b);
    assert [a] + [b] == [a, b];
    NormalizedSnoc([a, b], c);
    assert [a, b] + [c] == [a, b, c];
  }

  /** Letters whose upper case is two Latin capitals: ß and the ligature ﬁ. */
  lemma NormalizedSpecialCasing()
    ensures Normalized("ß1") == "SS1"
    ensures Normalized("ﬁ") == "FI"
  {
    SpecialImages();
    PlateCharFixed('1');
    var p1 := ['ß'];
    assert "ß1" == p1 + ['1'];
    NormalizedChar('ß');
    NormalizedSnoc(p1, '1');
    NormalizedChar('ﬁ');
  }

  /** The images of ß and ﬁ. */
  lemma SpecialImages()
    ensures CharImage('ß') == "SS" && CharImage('ﬁ') == "FI"
  {
    assert UpperImage(Transliterated('ß')) == "SS";
    assert UpperImage(Transliterated('ﬁ')) == "FI";
    KeepPlateText("SS");
    KeepPlateText("FI");
  }

  /** Small letters and spaces: the Cyrillic small letter a is A, a space is dropped. */
  lemma NormalizedSmallAndSpace()
    ensures Normalized("а 7") == "A7"
  {
    LookAlikeImage('а');
    PlateCharFixed('7');
    assert CharImage(' ') == "" by {
      assert Transliterated(' ') == ' ' && UpperImage(' ') == [' '];
      assert [' '][1..] == "";
    }
    assert "а 7" == ['а', ' ', '7'];
    NormalizedThree('а', ' ', '7');
  }
}
