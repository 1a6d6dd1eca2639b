/**
 * The string rewritings the two frontend payment pages apply to what the
 * user types: keep only the digits (`replace(/\D/g, '')`), group them by
 * four, punctuate a CPF, cut to a length (`slice(0, n)`) and JavaScript's
 * `trim()`. Each regular-expression replacement is modelled as the
 * leftmost match it makes, written out as a search.
 */
module Masks {
  import opened Common

  /** `s.replace(/\D/g, '')`: the digits of `s`, in order. */
  function OnlyDigits(s: string): (d: string)
    ensures AllDigits(d) && |d| <= |s|
  {
    if |s| == 0 then ""
    else (if IsDigit(s[0]) then [s[0]] else []) + OnlyDigits(s[1..])
  }

  /** Digits are kept and everything else dropped, piece by piece. */
  lemma {:induction false} OnlyDigitsAppend(a: string, b: string)
    ensures OnlyDigits(a + b) == OnlyDigits(a) + OnlyDigits(b)
    decreases |a|
  {
    if |a| > 0 {
      assert (a + b)[1..] == a[1..] + b;
      OnlyDigitsAppend(a[1..], b);
    } else {
      assert a + b == b;
    }
  }

  /** A string of digits is its own digits. */
  lemma {:induction false} OnlyDigitsOfDigits(s: string)
    requires AllDigits(s)
    ensures OnlyDigits(s) == s
    decreases |s|
  {
    if |s| > 0 {
      OnlyDigitsOfDigits(s[1..]);
    }
  }

  /** A punctuation mark put between two pieces is dropped again by `OnlyDigits`. */
  lemma OnlyDigitsSkipsMark(a: string, c: char, b: string)
    requires !IsDigit(c)
    ensures OnlyDigits(a + [c] + b) == OnlyDigits(a) + OnlyDigits(b)
  {
    OnlyDigitsAppend(a + [c], b);
    OnlyDigitsAppend(a, [c]);
    assert OnlyDigits([c]) == [] by {
      assert [c][1..] == [];
    }
  }

  /** `s.slice(0, n)`: the first `n` characters, or all of them. */
  function Take(s: string, n: nat): (t: string)
    ensures |t| <= n && |t| <= |s|
    ensures |s| <= n ==> t == s
    ensures t <= s
  {
    if |s| <= n then s else s[..n]
  }

  /** The white space `trim()` removes (ASCII space and controls, NBSP, BOM and the Unicode space separators). */
  predicate IsJsSpace(c: char)
  {
    c == ' ' || c == '\t' || c == '\n' || c == '\r' || c == '\U{B}' || c == '\U{C}' ||
    c == '\U{A0}' || c == '\U{FEFF}' || c == '\U{1680}' || ('\U{2000}' <= c <= '\U{200A}') ||
    c == '\U{2028}' || c == '\U{2029}' || c == '\U{202F}' || c == '\U{205F}' || c == '\U{3000}'
  }

  /** The string without its leading white space: its first character, if any, is not white space. */
  function TrimStart(s: string): (t: string)
    ensures |t| <= |s|
    ensures |t| > 0 ==> !IsJsSpace(t[0])
    decreases |s|
  {
    if |s| > 0 && IsJsSpace(s[0]) then TrimStart(s[1..]) else s
  }

  /** The string without its trailing white space: its last character, if any, is not white space. */
  function TrimEnd(s: string): (t: string)
    ensures |t| <= |s|
    ensures |t| > 0 ==> !IsJsSpace(t[|t| - 1])
    decreases |s|
  {
    if |s| > 0 && IsJsSpace(s[|s| - 1]) then TrimEnd(s[..|s| - 1]) else s
  }

  /** `s.trim()`: no white space is left at either end. */
  function Trim(s: string): (t: string)
    ensures |t| <= |s|
    ensures |t| > 0 ==> !IsJsSpace(t[0]) && !IsJsSpace(t[|t| - 1])
  {
    TrimEndDropsOnlySpace(TrimStart(s));
    TrimEnd(TrimStart(s))
  }

  /** `trimStart` drops white space only: what is left is a suffix. */
  lemma {:induction false} TrimStartDropsOnlySpace(s: string)
    ensures TrimStart(s) == s[|s| - |TrimStart(s)|..]
    ensures forall i :: 0 <= i < |s| - |TrimStart(s)| ==> IsJsSpace(s[i])
    decreases |s|
  {
    if |s| > 0 && IsJsSpace(s[0]) {
      TrimStartDropsOnlySpace(s[1..]);
    }
  }

  /** `trimEnd` drops white space only: what is left is a prefix. */
  lemma {:induction false} TrimEndDropsOnlySpace(s: string)
    ensures TrimEnd(s) == s[..|TrimEnd(s)|]
    ensures forall i :: |TrimEnd(s)| <= i < |s| ==> IsJsSpace(s[i])
    decreases |s|
  {
    if |s| > 0 && IsJsSpace(s[|s| - 1]) {
      TrimEndDropsOnlySpace(s[..|s| - 1]);
    }
  }

  /** `trim()` leaves nothing exactly when there is nothing but white space. */
  lemma TrimEmptyIffAllSpace(s: string)
    ensures Trim(s) == "" <==> forall i :: 0 <= i < |s| ==> IsJsSpace(s[i])
  {
    TrimStartDropsOnlySpace(s);
    TrimEndDropsOnlySpace(TrimStart(s));
  }

  /** `d.replace(/(.{4})/g, '$1 ')` on digits: a space after every complete block of four. */
  function Blocks(d: string): (b: string)
    decreases |d|
  {
    if |d| >= 4 then d[..4] + " " + Blocks(d[4..]) else d
  }

  /** Digits in blocks of four, one space between blocks and none at the end. */
  function Grouped(d: string): (g: string)
    decreases |d|
  {
    if |d| > 4 then d[..4] + " " + Grouped(d[4..]) else d
  }

  /** The blocks are the grouping, with one trailing space when the last block is complete. */
  lemma {:induction false} BlocksIsGroupedPlusSpace(d: string)
    ensures Blocks(d) == Grouped(d) + (if |d| > 0 && |d| % 4 == 0 then " " else "")
    decreases |d|
  {
    if |d| > 4 {
      var e := d[4..];
      BlocksIsGroupedPlusSpace(e);
      assert |e| % 4 == |d| % 4 by { assert |d| == |e| + 4; }
      assert Blocks(d) == d[..4] + " " + Blocks(e);
      assert Grouped(d) == d[..4] + " " + Grouped(e);
    } else if |d| == 4 {
      assert d[4..] == "";
    }
  }

  /** Digits grouped by four start and end with a digit. */
  lemma {:induction false} GroupedEnds(d: string)
    requires AllDigits(d) && |d| > 0
    ensures |Grouped(d)| > 0 && IsDigit(Grouped(d)[0]) && IsDigit(Grouped(d)[|Grouped(d)| - 1])
    decreases |d|
  {
    if |d| > 4 {
      GroupedEnds(d[4..]);
    }
  }

  /** `trim()` leaves a string alone that starts and ends with something other than white space. */
  lemma TrimKeepsSolidEnds(s: string)
    requires |s| > 0 && !IsJsSpace(s[0]) && !IsJsSpace(s[|s| - 1])
    ensures Trim(s) == s
  {
  }

  /** `trim()` drops one trailing space after such a string. */
  lemma TrimDropsTrailingSpace(s: string)
    requires |s| > 0 && !IsJsSpace(s[0]) && !IsJsSpace(s[|s| - 1])
    ensures Trim(s + " ") == s
  {
    var t := s + " ";
    assert TrimStart(t) == t;
    assert t[..|t| - 1] == s;
    assert TrimEnd(s) == s;
  }

  /** `d.replace(/(.{4})/g, '$1 ').trim()` on digits is the grouping by four. */
  lemma TrimmedBlocks(d: string)
    requires AllDigits(d)
    ensures Trim(Blocks(d)) == Grouped(d)
  {
    BlocksIsGroupedPlusSpace(d);
    if |d| > 0 {
      GroupedEnds(d);
      if |d| % 4 == 0 {
        TrimDropsTrailingSpace(Grouped(d));
      } else {
        TrimKeepsSolidEnds(Grouped(d));
      }
    }
  }

  /** In the grouping a space sits exactly at every fifth position, and removing the spaces gives the digits back. */
  lemma {:induction false} GroupedShape(d: string)
    requires AllDigits(d)
    ensures |d| > 0 ==> |Grouped(d)| == |d| + (|d| - 1) / 4
    ensures forall i :: 0 <= i < |Grouped(d)| ==> (Grouped(d)[i] == ' ' <==> i % 5 == 4)
    ensures OnlyDigits(Grouped(d)) == d
    decreases |d|
  {
    if |d| > 4 {
      var rest := Grouped(d[4..]);
      GroupedShape(d[4..]);
      var g := d[..4] + " " + rest;
      assert Grouped(d) == g;
      forall i | 0 <= i < |g|
        ensures g[i] == ' ' <==> i % 5 == 4
      {
        if i >= 5 {
          assert g[i] == rest[i - 5];
        }
      }
      OnlyDigitsSkipsMark(d[..4], ' ', rest);
      OnlyDigitsOfDigits(d[..4]);
      assert d[..4] + d[4..] == d;
    } else {
      OnlyDigitsOfDigits(d);
    }
  }

  /** Four digits start at `j`. */
  predicate RunOfFourAt(s: string, j: nat)
  {
    j + 4 <= |s| && AllDigits(s[j..j + 4])
  }

  /** `.replace(/(\d{3})(\d)/, '$1.$2')`: a dot after the first three of the leftmost run of four digits, searching from `i`. */
  function DotInFirstRunOfFour(s: string, i: nat): (r: string)
    ensures r == s <==> forall j :: i <= j ==> !RunOfFourAt(s, j)
    ensures r != s ==> |r| == |s| + 1
    decreases |s| - i
  {
    if i + 4 > |s| then s
    else if RunOfFourAt(s, i) then s[..i + 3] + "." + s[i + 3..]
    else DotInFirstRunOfFour(s, i + 1)
  }

  /**
   * `.replace(/(\d{3})(\d{1,2})$/, '$1-$2')`: the leftmost match ends the
   * string with five digits if it can (the dash before the last two), else
   * with four (the dash before the last one).
   */
  function DashBeforeLast(s: string): (r: string)
    ensures if |s| >= 4 && AllDigits(s[|s| - 4..]) then |r| == |s| + 1 else r == s
    ensures |s| >= 5 && IsDigit(s[|s| - 5]) && AllDigits(s[|s| - 4..]) ==>
      r[..|s| - 2] == s[..|s| - 2] && r[|s| - 2] == '-' && r[|s| - 1..] == s[|s| - 2..]
    ensures |s| >= 4 && AllDigits(s[|s| - 4..]) && !(|s| >= 5 && IsDigit(s[|s| - 5])) ==>
      r[..|s| - 1] == s[..|s| - 1] && r[|s| - 1] == '-' && r[|s|..] == s[|s| - 1..]
  {
    if |s| >= 5 && IsDigit(s[|s| - 5]) && AllDigits(s[|s| - 4..]) then s[..|s| - 2] + "-" + s[|s| - 2..]
    else if |s| >= 4 && AllDigits(s[|s| - 4..]) then s[..|s| - 1] + "-" + s[|s| - 1..]
    else s
  }

  /** The three CPF replacements both pages apply to the digits. */
  function CpfPunctuated(d: string): (r: string)
    ensures |d| <= |r| <= |d| + 3
  {
    DashBeforeLast(DotInFirstRunOfFour(DotInFirstRunOfFour(d, 0), 0))
  }

  /** Each replacement only inserts a mark, so the digits are kept. */
  lemma {:induction false} DotKeepsDigits(s: string, i: nat)
    ensures OnlyDigits(DotInFirstRunOfFour(s, i)) == OnlyDigits(s)
    decreases |s| - i
  {
    if i + 4 <= |s| {
      if AllDigits(s[i..i + 4]) {
        OnlyDigitsSkipsMark(s[..i + 3], '.', s[i + 3..]);
        OnlyDigitsAppend(s[..i + 3], s[i + 3..]);
        assert s[..i + 3] + s[i + 3..] == s;
      } else {
        DotKeepsDigits(s, i + 1);
      }
    }
  }

  lemma DashKeepsDigits(s: string)
    ensures OnlyDigits(DashBeforeLast(s)) == OnlyDigits(s)
  {
    if |s| >= 5 && IsDigit(s[|s| - 5]) && AllDigits(s[|s| - 4..]) {
      OnlyDigitsSkipsMark(s[..|s| - 2], '-', s[|s| - 2..]);
      OnlyDigitsAppend(s[..|s| - 2], s[|s| - 2..]);
      assert s[..|s| - 2] + s[|s| - 2..] == s;
    } else if |s| >= 4 && AllDigits(s[|s| - 4..]) {
      OnlyDigitsSkipsMark(s[..|s| - 1], '-', s[|s| - 1..]);
      OnlyDigitsAppend(s[..|s| - 1], s[|s| - 1..]);
      assert s[..|s| - 1] + s[|s| - 1..] == s;
    }
  }

  /** The CPF punctuation keeps every digit, in order. */
  lemma CpfKeepsDigits(d: string)
    ensures OnlyDigits(CpfPunctuated(d)) == OnlyDigits(d)
  {
    var s1 := DotInFirstRunOfFour(d, 0);
    var s2 := DotInFirstRunOfFour(s1, 0);
    DotKeepsDigits(d, 0);
    DotKeepsDigits(s1, 0);
    DashKeepsDigits(s2);
  }

  /** On eleven digits the first dot goes after the third digit. */
  lemma FirstDotOfEleven(d: string)
    requires |d| == 11 && AllDigits(d)
    ensures DotInFirstRunOfFour(d, 0) == d[..3] + "." + d[3..]
  {
    assert AllDigits(d[0..4]);
  }

  /** After the first dot, the second goes after the sixth digit. */
  lemma SecondDotOfEleven(d: string)
    requires |d| == 11 && AllDigits(d)
    ensures DotInFirstRunOfFour(d[..3] + "." + d[3..], 0) == d[..3] + "." + d[3..6] + "." + d[6..]
  {
    var s1 := d[..3] + "." + d[3..];
    var s2 := d[..3] + "." + d[3..6] + "." + d[6..];
    assert s1[3] == '.';
    assert !AllDigits(s1[0..4]) by { assert s1[0..4][3] == '.'; }
    assert !AllDigits(s1[1..5]) by { assert s1[1..5][2] == '.'; }
    assert !AllDigits(s1[2..6]) by { assert s1[2..6][1] == '.'; }
    assert !AllDigits(s1[3..7]) by { assert s1[3..7][0] == '.'; }
    assert AllDigits(s1[4..8]) by { assert s1[4..8] == d[3..7]; }
    assert s1[..7] == d[..3] + "." + d[3..6];
    assert s1[7..] == d[6..];
    assert s1[..7] + "." + s1[7..] == s2;
    assert DotInFirstRunOfFour(s1, 4) == s2;
    assert DotInFirstRunOfFour(s1, 0) == DotInFirstRunOfFour(s1, 1) == DotInFirstRunOfFour(s1, 2)
        == DotInFirstRunOfFour(s1, 3) == DotInFirstRunOfFour(s1, 4);
  }

  /** After both dots, the dash goes before the last two digits. */
  lemma DashOfEleven(d: string)
    requires |d| == 11 && AllDigits(d)
    ensures DashBeforeLast(d[..3] + "." + d[3..6] + "." + d[6..]) == d[..3] + "." + d[3..6] + "." + d[6..9] + "-" + d[9..]
  {
    var s2 := d[..3] + "." + d[3..6] + "." + d[6..];
    assert s2[|s2| - 5..] == d[6..];
    assert s2[..|s2| - 2] == d[..3] + "." + d[3..6] + "." + d[6..9];
    assert s2[|s2| - 2..] == d[9..];
  }

  /** Eleven digits come out as `ddd.ddd.ddd-dd`. */
  lemma CpfOfElevenDigits(d: string)
    requires |d| == 11 && AllDigits(d)
    ensures CpfPunctuated(d) == d[..3] + "." + d[3..6] + "." + d[6..9] + "-" + d[9..]
    ensures |CpfPunctuated(d)| == 14
  {
    FirstDotOfEleven(d);
    SecondDotOfEleven(d);
    DashOfEleven(d);
  }
}
