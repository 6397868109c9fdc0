/** Texts built from words separated by single blanks, and what trimming them gives. */
module Spacing {
  import opened Text

  /** A piece of text with no white space at either end. */
  predicate Tidy(w: string) {
    w != "" && !IsSpace(w[0]) && !IsSpace(w[|w| - 1])
  }

  predicate AllTidy(ws: seq<string>) {
    forall i :: 0 <= i < |ws| ==> Tidy(ws[i])
  }

  /** The text numToWords builds: every piece followed by one space. */
  function Spaced(ps: seq<string>): string {
    if ps == [] then "" else ps[0] + " " + Spaced(ps[1..])
  }

  lemma {:induction false} SpacedAppend(a: seq<string>, b: seq<string>)
    ensures Spaced(a + b) == Spaced(a) + Spaced(b)
  {
    if a == [] {
      assert a + b == b;
    } else {
      assert (a + b)[0] == a[0] && (a + b)[1..] == a[1..] + b;
      SpacedAppend(a[1..], b);
    }
  }

  lemma {:induction false} SpacedIsJoined(ps: seq<string>)
    requires ps != []
    ensures Spaced(ps) == JoinWords(ps) + " "
  {
    if |ps| > 1 {
      SpacedIsJoined(ps[1..]);
    } else {
      assert ps[1..] == [];
    }
  }

  lemma {:induction false} JoinAppend(a: seq<string>, b: seq<string>)
    requires a != [] && b != []
    ensures JoinWords(a + b) == JoinWords(a) + " " + JoinWords(b)
  {
    assert (a + b)[0] == a[0] && (a + b)[1..] == a[1..] + b;
    if |a| > 1 {
      JoinAppend(a[1..], b);
    } else {
      assert a[1..] + b == b;
    }
  }

  /** Joined tidy words form a tidy text. */
  lemma {:induction false} JoinTidy(ws: seq<string>)
    requires ws != [] && AllTidy(ws)
    ensures Tidy(JoinWords(ws))
  {
    if |ws| > 1 {
      JoinTidy(ws[1..]);
      var rest := JoinWords(ws[1..]);
      assert JoinWords(ws) == ws[0] + " " + rest;
      assert JoinWords(ws)[|JoinWords(ws)| - 1] == rest[|rest| - 1];
    }
  }

  lemma TrimStartSpace(x: string)
    ensures TrimStart(" " + x) == TrimStart(x)
  {
    assert (" " + x)[1..] == x;
  }

  lemma TrimEndSpace(x: string)
    ensures TrimEnd(x + " ") == TrimEnd(x)
  {
    assert (x + " ")[..|x|] == x;
  }

  lemma TrimStartTidy(x: string)
    requires x == "" || !IsSpace(x[0])
    ensures TrimStart(x) == x
  {
  }

  lemma TrimEndTidy(x: string)
    requires x == "" || !IsSpace(x[|x| - 1])
    ensures TrimEnd(x) == x
  {
  }

  /** A tidy text, with or without one blank before and after, trims to itself. */
  lemma TrimTidy(x: string)
    requires x == "" || Tidy(x)
    ensures Trim(x) == x && Trim(" " + x) == x && Trim(x + " ") == x && Trim(" " + x + " ") == x
  {
    TrimStartTidy(x);
    TrimEndTidy(x);
    TrimStartSpace(x);
    if x == "" {
      assert x + " " == " " + x;
    } else {
      TrimStartTidy(x + " ");
      TrimEndSpace(x);
    }
    assert " " + x + " " == " " + (x + " ");
    TrimStartSpace(x + " ");
  }

  lemma TrimBlank(lead: string)
    requires lead == "" || lead == " "
    ensures Trim(lead) == ""
  {
    TrimTidy("");
    assert " " + "" == " ";
  }

  lemma TrimSpacedNonEmpty(ws: seq<string>)
    requires ws != [] && AllTidy(ws)
    ensures Trim(Spaced(ws)) == JoinWords(ws) && Trim(" " + Spaced(ws)) == JoinWords(ws)
  {
    SpacedIsJoined(ws);
    JoinTidy(ws);
    TrimPadded(JoinWords(ws), Spaced(ws));
  }

  /** A tidy text followed by one blank trims to itself, with or without a blank in front. */
  lemma TrimPadded(x: string, sp: string)
    requires Tidy(x) && sp == x + " "
    ensures Trim(sp) == x && Trim(" " + sp) == x
  {
    assert sp[0] == x[0];
    TrimStartTidy(sp);
    TrimStartSpace(sp);
    TrimEndSpace(x);
    TrimEndTidy(x);
  }

  /** Trimming pieces that are each followed by a blank: the blank in front of an
      empty first part and the one after the last piece go. */
  lemma TrimSpaced(lead: string, ws: seq<string>)
    requires lead == "" || lead == " "
    requires AllTidy(ws)
    ensures Trim(lead + Spaced(ws)) == JoinWords(ws)
  {
    if ws == [] {
      assert lead + Spaced(ws) == lead;
      TrimBlank(lead);
    } else if lead == "" {
      assert lead + Spaced(ws) == Spaced(ws);
      TrimSpacedNonEmpty(ws);
    } else {
      TrimSpacedNonEmpty(ws);
    }
  }

  /** The same with a last piece that has no blank after it. */
  lemma TrimSpacedLast(lead: string, ws: seq<string>, u: string)
    requires lead == "" || lead == " "
    requires AllTidy(ws) && Tidy(u)
    ensures Trim(lead + Spaced(ws) + u) == JoinWords(ws + [u])
  {
    var all := ws + [u];
    var x := JoinWords(all);
    var built := lead + Spaced(ws) + u;
    if ws == [] {
      assert all == [u];
      assert x == u;
      assert built == lead + x;
    } else {
      SpacedIsJoined(ws);
      JoinAppend(ws, [u]);
      assert built == lead + x;
    }
    TidyAppend(ws, u);
    JoinTidy(all);
    TrimTidy(x);
    if lead == "" {
      assert lead + x == x;
    }
  }

  lemma TidyAppend(ws: seq<string>, u: string)
    requires AllTidy(ws) && Tidy(u)
    ensures AllTidy(ws + [u])
  {
  }

  /** Trimming what numToWords builds: leading blanks of an empty thousands part go,
      the trailing blank after the last piece goes, and single spaces remain. */
  lemma TrimBuilt(lead: string, ws: seq<string>, u: string)
    requires lead == "" || lead == " "
    requires AllTidy(ws) && (u == "" || Tidy(u))
    ensures Trim(lead + Spaced(ws) + u) == JoinWords(ws + (if u == "" then [] else [u]))
  {
    var built := lead + Spaced(ws);
    var last: seq<string> := if u == "" then [] else [u];
    if u == "" {
      TrimSpaced(lead, ws);
      assert built + u == built;
      assert ws + last == ws;
    } else {
      TrimSpacedLast(lead, ws, u);
      assert ws + last == ws + [u];
    }
  }

  /** Appending one piece and its blank to what numToWords has built so far. */
  lemma AppendPiece(lead: string, ws: seq<string>, p: string)
    ensures lead + Spaced(ws) + p + " " == lead + Spaced(ws + [p])
  {
    SpacedAppend(ws, [p]);
    assert Spaced([p]) == p + " " by { assert [p][1..] == []; }
  }

  /** The thousands part: its words, a blank, the noun, a blank; a blank is left in
      front when the thousands spell as nothing. */
  lemma ThousandsPiece(high: seq<string>, noun: string)
    ensures JoinWords(high) + " " + noun + " " == (if high == [] then " " else "") + Spaced(high + [noun])
  {
    AppendPiece("", high, noun);
    if high != [] {
      SpacedIsJoined(high);
      assert "" + Spaced(high) + noun + " " == JoinWords(high) + " " + noun + " ";
    } else {
      assert "" + Spaced(high) + noun + " " == JoinWords(high) + noun + " ";
    }
  }
}
