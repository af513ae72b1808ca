/** The natural sort key: a name split into text and numbers, compared piece by piece. The split goes by the decimal
    digits of Unicode, the conversion by the wider class of digits, which also holds superscripts and the like. */
module NaturalSort {
  import opened Schema

  /** What is used of the character tables: decimal digits (`\d`) with their values, all digits (`isdigit`), and how a
      character folds. */
  datatype Unicode = Unicode(decimal: char -> bool, digit: char -> bool, value: char -> nat, fold: char -> string)

  /** Decimal digits are digits, and those of ASCII have their usual values. */
  ghost predicate SoundTables(u: Unicode) {
    && (forall c: char | u.decimal(c) :: u.digit(c) && u.value(c) < 10)
    && forall c: char | '0' <= c <= '9' :: u.decimal(c) && u.value(c) == c as int - '0' as int
  }

  /** A piece of a key: a number compared as a number, or text compared as case-folded text. */
  datatype Piece = Text(text: string) | Number(n: nat)

  predicate IsDecimal(u: Unicode, c: char) {
    u.decimal(c)
  }

  predicate AllDecimals(u: Unicode, s: string) {
    s != [] && forall k | 0 <= k < |s| :: IsDecimal(u, s[k])
  }

  predicate NoDecimals(u: Unicode, s: string) {
    forall k | 0 <= k < |s| :: !IsDecimal(u, s[k])
  }

  /** `chunk.isdigit()`: the empty string is not a number. */
  predicate AllDigits(u: Unicode, s: string) {
    s != [] && forall k | 0 <= k < |s| :: u.digit(s[k])
  }

  /** The length of the longest prefix of digits, or of non-digits. */
  function Span(u: Unicode, s: string, digits: bool): (k: nat)
    ensures k <= |s|
    ensures k < |s| ==> IsDecimal(u, s[k]) != digits
  {
    if s == [] || IsDecimal(u, s[0]) != digits then 0 else 1 + Span(u, s[1..], digits)
  }

  lemma {:induction false} SpanIsRun(u: Unicode, s: string, digits: bool)
    ensures forall j | 0 <= j < Span(u, s, digits) :: IsDecimal(u, s[j]) == digits
  {
    if s != [] && IsDecimal(u, s[0]) == digits {
      SpanIsRun(u, s[1..], digits);
    }
  }

  /** The text before the first digit, the run of digits there, and what follows it. */
  function Parts(u: Unicode, s: string): (p: (string, string, string))
    requires Span(u, s, false) < |s|
    ensures |p.2| < |s|
  {
    var k := Span(u, s, false);
    var d := Span(u, s[k..], true);
    (s[..k], s[k..][..d], s[k..][d..])
  }

  lemma PartsFit(u: Unicode, s: string)
    requires Span(u, s, false) < |s|
    ensures var p := Parts(u, s);
            && s == p.0 + p.1 + p.2 && NoDecimals(u, p.0) && AllDecimals(u, p.1)
            && (p.2 != [] ==> !IsDecimal(u, p.2[0]))
  {
    var k := Span(u, s, false);
    var t := s[k..];
    CutTwice(s, k, Span(u, t, true));
    TextRun(u, s);
    NumberRun(u, t);
    hide Span, IsDecimal, NoDecimals, AllDecimals;
  }

  lemma TextRun(u: Unicode, s: string)
    ensures NoDecimals(u, s[..Span(u, s, false)])
    ensures Span(u, s, false) < |s| ==> IsDecimal(u, s[Span(u, s, false)..][0])
  {
    SpanIsRun(u, s, false);
    hide Span, IsDecimal;
  }

  lemma NumberRun(u: Unicode, s: string)
    requires s != [] && IsDecimal(u, s[0])
    ensures AllDecimals(u, s[..Span(u, s, true)])
    ensures s[Span(u, s, true)..] != [] ==> !IsDecimal(u, s[Span(u, s, true)..][0])
  {
    SpanIsRun(u, s, true);
    assert Span(u, s, true) > 0;
    hide Span, IsDecimal;
  }

  lemma CutTwice(s: string, k: nat, d: nat)
    requires k <= |s| && d <= |s[k..]|
    ensures s == s[..k] + s[k..][..d] + s[k..][d..]
    ensures d < |s[k..]| ==> s[k..][d..][0] == s[k..][d]
  {
  }

  /** `re.split` on captured digit runs: text, digits, text, ..., text. */
  function Split(u: Unicode, s: string): seq<string>
    decreases |s|
  {
    if Span(u, s, false) == |s| then [s] else
      var p := Parts(u, s);
      [p.0, p.1] + Split(u, p.2)
  }

  function CaseFold(u: Unicode, s: string): string {
    if s == [] then [] else u.fold(s[0]) + CaseFold(u, s[1..])
  }

  /** `int(chunk)` of decimal digits. */
  function Value(u: Unicode, s: string): nat {
    if s == [] then 0 else 10 * Value(u, s[..|s| - 1]) + u.value(s[|s| - 1])
  }

  /** A chunk of digits is converted, which raises a ValueError unless they are decimal; any other is folded. */
  function PieceOf(u: Unicode, chunk: string): Option<Piece> {
    if !AllDigits(u, chunk) then Some(Text(CaseFold(u, chunk)))
    else if AllDecimals(u, chunk) then Some(Number(Value(u, chunk)))
    else None
  }

  predicate Convertible(u: Unicode, chunks: seq<string>) {
    forall k | 0 <= k < |chunks| :: PieceOf(u, chunks[k]).Some?
  }

  function Key(u: Unicode, s: string): (key: Option<seq<Piece>>)
    ensures key.Some? <==> Convertible(u, Split(u, s))
    ensures key.Some? ==> |key.value| == |Split(u, s)|
    ensures key.Some? ==> forall k | 0 <= k < |key.value| :: Some(key.value[k]) == PieceOf(u, Split(u, s)[k])
  {
    var chunks := Split(u, s);
    if !Convertible(u, chunks) then None
    else Some(seq(|chunks|, k requires 0 <= k < |chunks| && PieceOf(u, chunks[k]).Some? => PieceOf(u, chunks[k]).value))
  }

  // ---------------------------------------------------------------- the split

  function Joined(chunks: seq<string>): string {
    if chunks == [] then [] else chunks[0] + Joined(chunks[1..])
  }

  /** Text at even places, digits at odd places. */
  ghost predicate Alternates(u: Unicode, chunks: seq<string>) {
    forall k | 0 <= k < |chunks| :: if k % 2 == 0 then NoDecimals(u, chunks[k]) else AllDecimals(u, chunks[k])
  }

  lemma TwoMore(u: Unicode, a: string, b: string, chunks: seq<string>)
    requires NoDecimals(u, a) && AllDecimals(u, b) && Alternates(u, chunks)
    ensures Joined([a, b] + chunks) == a + b + Joined(chunks) && Alternates(u, [a, b] + chunks)
  {
    hide NoDecimals, AllDecimals;
    var all := [a, b] + chunks;
    assert all[1..] == [b] + chunks;
    assert ([b] + chunks)[1..] == chunks;
    forall k | 2 <= k < |all| ensures if k % 2 == 0 then NoDecimals(u, all[k]) else AllDecimals(u, all[k]) {
      assert all[k] == chunks[k - 2];
    }
  }

  /** Nothing is lost, and text and digits alternate. */
  lemma {:induction false} SplitAlternates(u: Unicode, s: string)
    ensures Joined(Split(u, s)) == s && Alternates(u, Split(u, s)) && |Split(u, s)| % 2 == 1
    decreases |s|
  {
    hide Split, Parts, Span, NoDecimals, AllDecimals, Alternates;
    if Span(u, s, false) < |s| {
      var p := Parts(u, s);
      PartsFit(u, s);
      SplitStep(u, s);
      SplitAlternates(u, p.2);
      TwoMore(u, p.0, p.1, Split(u, p.2));
    } else {
      SplitOfText(u, s);
    }
  }

  lemma SplitOfText(u: Unicode, s: string)
    requires Span(u, s, false) == |s|
    ensures Joined(Split(u, s)) == s && Alternates(u, Split(u, s)) && |Split(u, s)| == 1
  {
    SpanIsRun(u, s, false);
    assert [s][1..] == [];
  }

  lemma SplitStep(u: Unicode, s: string)
    requires Span(u, s, false) < |s|
    ensures Split(u, s) == [Parts(u, s).0, Parts(u, s).1] + Split(u, Parts(u, s).2)
  {
  }

  // ---------------------------------------------------------------- when there is a key

  /** The conversion fails exactly on text that consists of digits alone, none of them decimal. */
  lemma TextFails(u: Unicode, chunk: string)
    requires NoDecimals(u, chunk)
    ensures PieceOf(u, chunk).None? <==> AllDigits(u, chunk)
  {
  }

  lemma NumberConverts(u: Unicode, chunk: string)
    requires SoundTables(u) && AllDecimals(u, chunk)
    ensures PieceOf(u, chunk) == Some(Number(Value(u, chunk)))
  {
    forall k | 0 <= k < |chunk| ensures u.digit(chunk[k]) { assert IsDecimal(u, chunk[k]); }
  }

  /** s[i..j] is a stretch of digits that are not decimal, with the end of the name or a decimal digit on either
      side. */
  predicate BareDigits(u: Unicode, s: string, i: int, j: int) {
    && 0 <= i < j <= |s|
    && (forall k | i <= k < j :: u.digit(s[k]) && !IsDecimal(u, s[k]))
    && (i == 0 || IsDecimal(u, s[i - 1])) && (j == |s| || IsDecimal(u, s[j]))
  }

  /** A name has a key if and only if it has no such stretch: a superscript beside a letter is harmless, a text
      of nothing else is not. */
  lemma {:induction false} KeyExists(u: Unicode, s: string)
    requires SoundTables(u)
    ensures Key(u, s).Some? <==> forall i, j :: !BareDigits(u, s, i, j)
    decreases |s|
  {
    hide Split, Parts, Span, BareDigits, Convertible, PieceOf;
    if Span(u, s, false) < |s| {
      var p := Parts(u, s);
      PartsFit(u, s);
      SplitStep(u, s);
      KeyExists(u, p.2);
      TextFails(u, p.0);
      NumberConverts(u, p.1);
      ConvertibleRest(u, p.0, p.1, Split(u, p.2));
      StretchesOf(u, p.0, p.1, p.2);
    } else {
      TextRun(u, s);
      assert s[..|s|] == s;
      SplitIsText(u, s);
      TextFails(u, s);
      OnlyStretch(u, s);
      OneChunk(u, s);
    }
  }

  lemma SplitIsText(u: Unicode, s: string)
    requires Span(u, s, false) == |s|
    ensures Split(u, s) == [s]
  {
  }

  lemma OneChunk(u: Unicode, s: string)
    ensures Convertible(u, [s]) <==> PieceOf(u, s).Some?
  {
    assert [s][0] == s;
  }

  lemma ConvertibleRest(u: Unicode, a: string, b: string, rest: seq<string>)
    requires PieceOf(u, b).Some?
    ensures Convertible(u, [a, b] + rest) <==> PieceOf(u, a).Some? && Convertible(u, rest)
  {
    hide PieceOf;
    var all := [a, b] + rest;
    assert all[0] == a && all[1] == b;
    assert forall k | 0 <= k < |rest| :: all[k + 2] == rest[k];
    if PieceOf(u, a).Some? && Convertible(u, rest) {
      forall k | 0 <= k < |all| ensures PieceOf(u, all[k]).Some? {
        if k >= 2 { assert all[k] == rest[k - 2]; }
      }
    }
  }

  /** Text without decimal digits is one stretch or has none. */
  lemma OnlyStretch(u: Unicode, s: string)
    requires NoDecimals(u, s)
    ensures AllDigits(u, s) <==> exists i, j :: BareDigits(u, s, i, j)
  {
    if AllDigits(u, s) { assert BareDigits(u, s, 0, |s|); }
  }

  /** The stretches of a name are those of its first text, as a whole, and those after its first number. */
  lemma StretchesOf(u: Unicode, a: string, b: string, c: string)
    requires NoDecimals(u, a) && AllDecimals(u, b)
    ensures (exists i, j :: BareDigits(u, a + b + c, i, j)) <==>
            AllDigits(u, a) || exists i, j :: BareDigits(u, c, i, j)
  {
    var s, n := a + b + c, |a| + |b|;
    if AllDigits(u, a) { FirstStretch(u, a, b, c); }
    if i, j :| BareDigits(u, c, i, j) { LaterStretch(u, a, b, c, i, j); }
    if i, j :| BareDigits(u, s, i, j) { EitherStretch(u, a, b, c, i, j); }
  }

  lemma FirstStretch(u: Unicode, a: string, b: string, c: string)
    requires NoDecimals(u, a) && AllDecimals(u, b) && AllDigits(u, a)
    ensures BareDigits(u, a + b + c, 0, |a|)
  {
    var s := a + b + c;
    assert s[|a|] == b[0];
    assert forall k | 0 <= k < |a| :: s[k] == a[k];
  }

  lemma LaterStretch(u: Unicode, a: string, b: string, c: string, i: int, j: int)
    requires AllDecimals(u, b) && BareDigits(u, c, i, j)
    ensures BareDigits(u, a + b + c, |a| + |b| + i, |a| + |b| + j)
  {
    var s, n := a + b + c, |a| + |b|;
    assert s[n - 1] == b[|b| - 1];
    forall k | 0 <= k < |c| ensures s[n + k] == c[k] { assert s == (a + b) + c; }
    LaterWhole(u, s, c, n, i, j);
  }

  lemma LaterWhole(u: Unicode, s: string, c: string, n: int, i: int, j: int)
    requires 0 < n && |s| == n + |c| && IsDecimal(u, s[n - 1]) && BareDigits(u, c, i, j)
    requires forall k | 0 <= k < |c| :: s[n + k] == c[k]
    ensures BareDigits(u, s, n + i, n + j)
  {
    assert i > 0 ==> s[n + (i - 1)] == c[i - 1];
    assert j < |c| ==> s[n + j] == c[j];
    forall k | n + i <= k < n + j ensures u.digit(s[k]) && !IsDecimal(u, s[k]) { assert s[n + (k - n)] == c[k - n]; }
  }

  lemma EitherStretch(u: Unicode, a: string, b: string, c: string, i: int, j: int)
    requires NoDecimals(u, a) && AllDecimals(u, b) && BareDigits(u, a + b + c, i, j)
    ensures AllDigits(u, a) || exists x, y :: BareDigits(u, c, x, y)
  {
    var s, n := a + b + c, |a| + |b|;
    assert forall k | 0 <= k < |a| :: s[k] == a[k];
    assert forall k | |a| <= k < n :: s[k] == b[k - |a|];
    assert forall k | 0 <= k < |c| :: s[n + k] == c[k];
    assert forall k | 0 <= k < |a| :: !IsDecimal(u, s[k]);
    assert forall k | |a| <= k < n :: IsDecimal(u, s[k]);
    if i < |a| {
      assert IsDecimal(u, s[|a|]);
      assert i == 0 && j == |a|;
      forall k | 0 <= k < |a| ensures u.digit(a[k]) { assert s[k] == a[k]; }
    } else {
      assert !IsDecimal(u, s[i]);
      assert n <= i;
      LaterPart(u, s, c, n, i, j);
    }
  }

  lemma LaterPart(u: Unicode, s: string, c: string, n: int, i: int, j: int)
    requires 0 <= n <= i && |s| == n + |c| && s[n..] == c && BareDigits(u, s, i, j)
    ensures BareDigits(u, c, i - n, j - n)
  {
    assert forall k | 0 <= k < |c| :: s[n..][k] == s[n + k];
    forall k | i - n <= k < j - n ensures u.digit(c[k]) && !IsDecimal(u, c[k]) { assert s[n + k] == c[k]; }
    assert i > n ==> s[i - 1] == c[i - n - 1];
    assert j < |s| ==> s[j] == c[j - n];
  }

  /** ASCII digits are the decimal ones, and the superscripts two and three are digits besides. */
  const SUPERSCRIPTS :=
    Unicode(c => '0' <= c <= '9', c => '0' <= c <= '9' || '\U{00b2}' <= c <= '\U{00b3}',
            c => if '0' <= c <= '9' then c as int - '0' as int else 0, c => [c])

  /** A one with a superscript two has no key: sorting by it raises. */
  lemma SuperscriptRaises()
    ensures SoundTables(SUPERSCRIPTS) && Key(SUPERSCRIPTS, "1\U{00b2}") == None
  {
    KeyExists(SUPERSCRIPTS, "1\U{00b2}");
    assert BareDigits(SUPERSCRIPTS, "1\U{00b2}", 1, 2);
  }

  // ---------------------------------------------------------------- the order

  /** Folding goes character by character. */
  lemma {:induction false} FoldJoins(u: Unicode, a: string, b: string)
    ensures CaseFold(u, a + b) == CaseFold(u, a) + CaseFold(u, b)
    ensures forall c :: CaseFold(u, [c]) == u.fold(c)
  {
    forall c ensures CaseFold(u, [c]) == u.fold(c) { assert [c][1..] == []; }
    if a == [] {
      assert a + b == b;
    } else {
      assert (a + b)[1..] == a[1..] + b;
      FoldJoins(u, a[1..], b);
    }
  }

  /** How strings compare: by code point, a prefix first. */
  predicate TextLess(a: string, b: string) {
    if a == [] || b == [] then b != [] && a == []
    else a[0] < b[0] || (a[0] == b[0] && TextLess(a[1..], b[1..]))
  }

  /** Text against text and number against number; anything else is a TypeError. */
  predicate SameKind(a: Piece, b: Piece) {
    a.Text? == b.Text?
  }

  predicate PieceLess(a: Piece, b: Piece)
    requires SameKind(a, b)
  {
    if a.Text? then TextLess(a.text, b.text) else a.n < b.n
  }

  /** Two tuples can be compared when their pieces are of the same kinds as far as both reach. */
  predicate Comparable(a: seq<Piece>, b: seq<Piece>) {
    forall k | 0 <= k < |a| && k < |b| :: SameKind(a[k], b[k])
  }

  /** How tuples compare: by the first place where they differ, else the shorter first. */
  predicate KeyLess(a: seq<Piece>, b: seq<Piece>)
    requires Comparable(a, b)
  {
    if a == [] || b == [] then b != [] && a == []
    else
      assert Comparable(a[1..], b[1..]) by {
        forall k | 0 <= k < |a[1..]| && k < |b[1..]|
          ensures SameKind(a[1..][k], b[1..][k]) { assert SameKind(a[k + 1], b[k + 1]); }
      }
      if a[0] == b[0] then KeyLess(a[1..], b[1..]) else PieceLess(a[0], b[0])
  }

  /** Keys can always be compared: a place holds text in every key or a number in every key. */
  lemma KeysAreComparable(u: Unicode, s: string, t: string)
    requires SoundTables(u) && Key(u, s).Some? && Key(u, t).Some?
    ensures Comparable(Key(u, s).value, Key(u, t).value)
  {
    var x, y := Key(u, s).value, Key(u, t).value;
    forall k | 0 <= k < |x| && k < |y| ensures SameKind(x[k], y[k]) {
      KindOfPlace(u, s, k);
      KindOfPlace(u, t, k);
    }
  }

  lemma KindOfPlace(u: Unicode, s: string, k: nat)
    requires SoundTables(u) && Key(u, s).Some? && k < |Key(u, s).value|
    ensures Key(u, s).value[k].Text? <==> k % 2 == 0
  {
    hide Split, NoDecimals, AllDecimals, PieceOf;
    SplitAlternates(u, s);
    var chunk := Split(u, s)[k];
    assert Some(Key(u, s).value[k]) == PieceOf(u, chunk);
    if k % 2 == 0 { TextIsText(u, chunk); } else { NumberConverts(u, chunk); }
  }

  lemma TextIsText(u: Unicode, chunk: string)
    requires NoDecimals(u, chunk) && PieceOf(u, chunk).Some?
    ensures PieceOf(u, chunk).value.Text?
  {
  }

  /** Names without decimal digits compare as folded text, whatever the case of their letters. */
  lemma TextsCompareFolded(u: Unicode, a: string, b: string)
    requires NoDecimals(u, a) && NoDecimals(u, b) && Key(u, a).Some? && Key(u, b).Some?
    ensures Comparable(Key(u, a).value, Key(u, b).value)
    ensures KeyLess(Key(u, a).value, Key(u, b).value) <==> TextLess(CaseFold(u, a), CaseFold(u, b))
  {
    TextKey(u, a);
    TextKey(u, b);
    TextOrder(CaseFold(u, a), CaseFold(u, a), CaseFold(u, a));
    hide CaseFold, TextLess;
  }

  lemma TextKey(u: Unicode, a: string)
    requires NoDecimals(u, a) && Key(u, a).Some?
    ensures Key(u, a).value == [Text(CaseFold(u, a))]
  {
    hide CaseFold;
    WholeSpan(u, a);
    assert Split(u, a) == [a];
    assert PieceOf(u, Split(u, a)[0]).Some?;
    assert !AllDigits(u, a) by { TextIsFolded(u, a); }
  }

  lemma TextIsFolded(u: Unicode, a: string)
    requires NoDecimals(u, a) && PieceOf(u, a).Some?
    ensures !AllDigits(u, a)
  {
  }

  lemma {:induction false} WholeSpan(u: Unicode, a: string)
    requires NoDecimals(u, a)
    ensures Span(u, a, false) == |a|
  {
    if a != [] { WholeSpan(u, a[1..]); }
  }

  lemma {:induction false} TextOrder(a: string, b: string, c: string)
    ensures !TextLess(a, a)
    ensures TextLess(a, b) || TextLess(b, a) || a == b
    ensures TextLess(a, b) && TextLess(b, c) ==> TextLess(a, c)
  {
    if a != [] {
      var a', b', c' := a[1..], if b == [] then [] else b[1..], if c == [] then [] else c[1..];
      TextOrder(a', b', c');
      assert b != [] && a[0] == b[0] && a' == b' ==> a == [a[0]] + a' && b == [b[0]] + b';
    }
  }

  lemma PieceOrder(a: Piece, b: Piece, c: Piece)
    requires SameKind(a, b) && SameKind(b, c)
    ensures !PieceLess(a, a)
    ensures PieceLess(a, b) || PieceLess(b, a) || a == b
    ensures PieceLess(a, b) && PieceLess(b, c) ==> PieceLess(a, c)
  {
    if a.Text? { TextOrder(a.text, b.text, c.text); }
  }

  lemma ComparableTails(a: seq<Piece>, b: seq<Piece>)
    requires Comparable(a, b) && a != [] && b != []
    ensures Comparable(a[1..], b[1..]) && SameKind(a[0], b[0])
  {
    forall k | 0 <= k < |a[1..]| && k < |b[1..]|
      ensures SameKind(a[1..][k], b[1..][k]) { assert SameKind(a[k + 1], b[k + 1]); }
  }

  /** On keys the comparison is a strict total order. */
  lemma {:induction false} KeyOrder(a: seq<Piece>, b: seq<Piece>, c: seq<Piece>)
    requires Comparable(a, b) && Comparable(b, c) && Comparable(a, c) && Comparable(a, a) && Comparable(b, a)
    ensures !KeyLess(a, a)
    ensures KeyLess(a, b) || KeyLess(b, a) || a == b
    ensures KeyLess(a, b) && KeyLess(b, c) ==> KeyLess(a, c)
    decreases |a|
  {
    if a != [] {
      ComparableTails(a, a);
      if b != [] {
        ComparableTails(a, b);
        ComparableTails(b, a);
        if c != [] {
          ComparableTails(b, c);
          ComparableTails(a, c);
          PieceOrder(a[0], b[0], c[0]);
          KeyOrder(a[1..], b[1..], c[1..]);
        } else {
          PieceOrder(a[0], b[0], a[0]);
          KeyOrder(a[1..], b[1..], []);
        }
        assert a[0] == b[0] && a[1..] == b[1..] ==> a == [a[0]] + a[1..] && b == [b[0]] + b[1..];
      } else {
        KeyOrder(a[1..], [], []);
      }
    }
  }

  /** Names that have keys are totally preordered by them: any two compare, and the order is transitive. Names
      differing in case or in leading zeros may tie. */
  lemma NamesArePreordered(u: Unicode, s: string, t: string, w: string)
    requires SoundTables(u) && Key(u, s).Some? && Key(u, t).Some? && Key(u, w).Some?
    ensures var a, b, c := Key(u, s).value, Key(u, t).value, Key(u, w).value;
            && Comparable(a, b) && Comparable(b, a) && Comparable(b, c) && Comparable(a, c)
            && (KeyLess(a, b) || KeyLess(b, a) || a == b)
            && !(KeyLess(a, b) && KeyLess(b, a))
            && (KeyLess(a, b) && KeyLess(b, c) ==> KeyLess(a, c))
  {
    hide Key;
    KeysAreComparable(u, s, t);
    KeysAreComparable(u, t, s);
    KeysAreComparable(u, t, w);
    KeysAreComparable(u, s, w);
    KeysAreComparable(u, s, s);
    KeyOrder(Key(u, s).value, Key(u, t).value, Key(u, w).value);
    KeyOrder(Key(u, s).value, Key(u, t).value, Key(u, s).value);
  }

  // ---------------------------------------------------------------- numbers inside names

  /** The decimal numeral of n. */
  function Numeral(n: nat): (s: string)
    ensures s != [] && forall k | 0 <= k < |s| :: '0' <= s[k] <= '9'
  {
    var last := '0' + (n % 10) as char;
    if n < 10 then [last] else Numeral(n / 10) + [last]
  }

  lemma {:induction false} NumeralValue(u: Unicode, n: nat)
    requires SoundTables(u)
    ensures AllDecimals(u, Numeral(n)) && Value(u, Numeral(n)) == n
  {
    var s, last := Numeral(n), '0' + (n % 10) as char;
    forall k | 0 <= k < |s| ensures IsDecimal(u, s[k]) {}
    assert u.value(last) == n % 10;
    if n < 10 {
      assert s[..0] == [];
    } else {
      NumeralValue(u, n / 10);
      assert s[..|s| - 1] == Numeral(n / 10);
    }
  }

  lemma {:induction false} SpanOfRun(u: Unicode, run: string, rest: string, digits: bool)
    requires forall k | 0 <= k < |run| :: IsDecimal(u, run[k]) == digits
    requires rest != [] ==> IsDecimal(u, rest[0]) != digits
    ensures Span(u, run + rest, digits) == |run|
  {
    if run == [] {
      assert run + rest == rest;
    } else {
      assert (run + rest)[1..] == run[1..] + rest;
      SpanOfRun(u, run[1..], rest, digits);
    }
  }

  lemma PartsAre(u: Unicode, text: string, digits: string, rest: string)
    requires NoDecimals(u, text) && AllDecimals(u, digits) && (rest != [] ==> !IsDecimal(u, rest[0]))
    ensures var s := text + digits + rest; Span(u, s, false) == |text| < |s| && Parts(u, s) == (text, digits, rest)
  {
    var s := text + digits + rest;
    assert s == text + (digits + rest);
    SpanOfRun(u, text, digits + rest, false);
    assert s[..|text|] == text && s[|text|..] == digits + rest;
    SpanOfRun(u, digits, rest, true);
    assert (digits + rest)[..|digits|] == digits && (digits + rest)[|digits|..] == rest;
  }

  /** A name that does not end in a digit, followed by digits: the split of the name, with the digits and
      an empty text behind it. */
  lemma {:induction false} SplitBeforeNumber(u: Unicode, s: string, digits: string)
    requires AllDecimals(u, digits) && (s != [] ==> !IsDecimal(u, s[|s| - 1]))
    ensures Split(u, s + digits) == Split(u, s) + [digits, ""]
    decreases |s|
  {
    hide AllDecimals, NoDecimals, Split, Parts, Span;
    if Span(u, s, false) == |s| {
      SplitText(u, s, digits);
    } else {
      var p := Parts(u, s);
      PartsFit(u, s);
      SplitStep(u, s);
      LastIsInRest(u, p.0, p.1, p.2);
      assert s + digits == p.0 + p.1 + (p.2 + digits);
      FirstOfSum(p.2, digits);
      PartsAre(u, p.0, p.1, p.2 + digits);
      SplitStep(u, s + digits);
      SplitBeforeNumber(u, p.2, digits);
      assert [p.0, p.1] + (Split(u, p.2) + [digits, ""]) == [p.0, p.1] + Split(u, p.2) + [digits, ""];
    }
  }

  lemma FirstOfSum(a: string, b: string)
    requires a != []
    ensures (a + b)[0] == a[0]
  {
  }

  lemma SplitText(u: Unicode, text: string, digits: string)
    requires AllDecimals(u, digits) && Span(u, text, false) == |text|
    ensures Split(u, text + digits) == Split(u, text) + [digits, ""]
  {
    SpanIsRun(u, text, false);
    assert text + digits + [] == text + digits;
    PartsAre(u, text, digits, []);
    assert Split(u, []) == [[]];
  }

  lemma LastIsInRest(u: Unicode, text: string, digits: string, rest: string)
    requires AllDecimals(u, digits)
    ensures var s := text + digits + rest;
            !IsDecimal(u, s[|s| - 1]) ==> rest != [] && rest[|rest| - 1] == s[|s| - 1]
  {
  }

  lemma SameHead(x: seq<Piece>, y: seq<Piece>, head: Piece)
    requires Comparable(x, y)
    ensures Comparable([head] + x, [head] + y) && (KeyLess([head] + x, [head] + y) <==> KeyLess(x, y))
  {
    assert ([head] + x)[1..] == x && ([head] + y)[1..] == y;
  }

  lemma {:induction false} CommonPrefixDecides(common: seq<Piece>, a: nat, b: nat)
    requires a < b
    ensures var x, y := common + [Number(a), Text("")], common + [Number(b), Text("")];
            Comparable(x, y) && KeyLess(x, y)
  {
    if common == [] {
      assert [] + [Number(a), Text("")] == [Number(a), Text("")] && [] + [Number(b), Text("")] == [Number(b), Text("")];
    } else {
      hide KeyLess, Comparable;
      CommonPrefixDecides(common[1..], a, b);
      var x, y := common[1..] + [Number(a), Text("")], common[1..] + [Number(b), Text("")];
      SameHead(x, y, common[0]);
      assert [common[0]] + x == common + [Number(a), Text("")] && [common[0]] + y == common + [Number(b), Text("")];
    }
  }

  lemma KeyBeforeNumber(u: Unicode, s: string, n: nat)
    requires SoundTables(u) && (s != [] ==> !IsDecimal(u, s[|s| - 1]))
    ensures Key(u, s + Numeral(n)).Some? <==> Key(u, s).Some?
    ensures Key(u, s).Some? ==> Key(u, s + Numeral(n)).value == Key(u, s).value + [Number(n), Text("")]
  {
    hide Split, AllDecimals, PieceOf, Convertible;
    NumeralValue(u, n);
    SplitBeforeNumber(u, s, Numeral(n));
    NumberConverts(u, Numeral(n));
    EmptyConverts(u);
    TwoMoreConvert(u, Split(u, s), Numeral(n));
    if Key(u, s).Some? {
      var x, y := Key(u, s + Numeral(n)).value, Key(u, s).value + [Number(n), Text("")];
      forall k | 0 <= k < |x| ensures x[k] == y[k] {}
      assert x == y;
    }
  }

  lemma EmptyConverts(u: Unicode)
    ensures PieceOf(u, "") == Some(Text(""))
  {
  }

  lemma TwoMoreConvert(u: Unicode, chunks: seq<string>, digits: string)
    requires PieceOf(u, digits).Some? && PieceOf(u, "").Some?
    ensures Convertible(u, chunks + [digits, ""]) <==> Convertible(u, chunks)
  {
    hide PieceOf;
    var all := chunks + [digits, ""];
    assert forall k | 0 <= k < |chunks| :: all[k] == chunks[k];
  }

  /** Numbered names sort by their numbers: c2 comes before c10. */
  lemma NumbersSortNumerically(u: Unicode, prefix: string, a: nat, b: nat)
    requires SoundTables(u) && Key(u, prefix).Some? && (prefix != [] ==> !IsDecimal(u, prefix[|prefix| - 1])) && a < b
    ensures Key(u, prefix + Numeral(a)).Some? && Key(u, prefix + Numeral(b)).Some?
    ensures var x, y := Key(u, prefix + Numeral(a)).value, Key(u, prefix + Numeral(b)).value;
            Comparable(x, y) && KeyLess(x, y)
  {
    hide Key, KeyLess, Comparable;
    KeyBeforeNumber(u, prefix, a);
    KeyBeforeNumber(u, prefix, b);
    CommonPrefixDecides(Key(u, prefix).value, a, b);
  }
}
