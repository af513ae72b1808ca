/** The colour of a key: a string hash that wraps only its shift to 32 bits, reduced to a palette. */
module Colours {
  const WORD := 0x1_0000_0000
  const HALF_WORD := 0x8000_0000

  /** A UTF-16 code unit. */
  newtype Code = c: int | 0 <= c < 0x1_0000

  const COLOURS: seq<string> :=
    ["pink", "violet", "green", "blue", "red", "grape", "indigo", "cyan", "orange", "yellow", "teal"]

  /** The signed 32-bit integer congruent to x. */
  function ToInt32(x: int): (r: int)
    ensures -HALF_WORD <= r < HALF_WORD
    ensures exists q :: r == x + q * WORD
  {
    var r := (x + HALF_WORD) % WORD - HALF_WORD;
    assert r == x + (-((x + HALF_WORD) / WORD)) * WORD;
    r
  }

  /** `hash << 5`. */
  function ShiftLeft5(x: int): int {
    ToInt32(ToInt32(x) * 32)
  }

  function Hash(input: seq<Code>): int {
    if input == [] then 0 else
      var hash := Hash(input[..|input| - 1]);
      input[|input| - 1] as int + (ShiftLeft5(hash) - hash)
  }

  function Abs(x: int): nat {
    if x < 0 then -x else x
  }

  function ColourOf(input: seq<Code>): (colour: string)
    ensures colour in COLOURS
  {
    COLOURS[Abs(Hash(input)) % |COLOURS|]
  }

  /** Which colour: the one at the remainder of the hash's magnitude. */
  lemma ColourAt(input: seq<Code>, k: nat, q: nat)
    requires k < |COLOURS| && (Hash(input) == q * |COLOURS| + k || -Hash(input) == q * |COLOURS| + k)
    ensures ColourOf(input) == COLOURS[k]
    ensures forall x | 0 <= x < |COLOURS| && COLOURS[x] == ColourOf(input) :: x == k
  {
    assert Abs(Hash(input)) == q * 11 + k;
    RemainderIs(q, k);
    ColoursDiffer();
  }

  lemma RemainderIs(q: nat, k: nat)
    requires k < 11
    ensures (q * 11 + k) % 11 == k
  {
  }

  lemma ColoursDiffer()
    ensures forall x, y | 0 <= x < y < |COLOURS| :: COLOURS[x] != COLOURS[y]
  {
  }

  method StringToColour(input: seq<Code>) returns (colour: string)
    ensures colour == ColourOf(input) && colour in COLOURS
  {
    var hash := 0;
    for i := 0 to |input|
      invariant hash == Hash(input[..i])
    {
      assert input[..i + 1][..i] == input[..i];
      hash := input[i] as int + (ShiftLeft5(hash) - hash);
    }
    assert input[..|input|] == input;
    return COLOURS[Abs(hash) % |COLOURS|];
  }

  /** The textbook hash: the code units as digits in base 31. */
  function Polynomial(input: seq<Code>): int {
    if input == [] then 0 else 31 * Polynomial(input[..|input| - 1]) + input[|input| - 1] as int
  }

  predicate Congruent(x: int, y: int) {
    (x - y) % WORD == 0
  }

  lemma MultipleIsCongruent(x: int, y: int, q: int)
    requires x == y + q * WORD
    ensures Congruent(x, y)
  {
    assert (q * WORD) % WORD == 0;
  }

  lemma CongruentIsMultiple(x: int, y: int) returns (q: int)
    requires Congruent(x, y)
    ensures x == y + q * WORD
  {
    q := (x - y) / WORD;
  }

  lemma ShiftMultiplies(x: int) returns (q: int)
    ensures ShiftLeft5(x) == 32 * x + q * WORD
  {
    var a :| ToInt32(x) == x + a * WORD;
    var b :| ShiftLeft5(x) == ToInt32(x) * 32 + b * WORD;
    q := 32 * a + b;
  }

  /** Although only the shift wraps, the hash is the polynomial modulo 2^32. */
  lemma {:induction false} HashIsPolynomial(input: seq<Code>)
    ensures Congruent(Hash(input), Polynomial(input))
  {
    if input != [] {
      var init := input[..|input| - 1];
      HashIsPolynomial(init);
      var p := CongruentIsMultiple(Hash(init), Polynomial(init));
      var q := ShiftMultiplies(Hash(init));
      MultipleIsCongruent(Hash(input), Polynomial(input), 31 * p + q);
    }
  }

  /** One character more: the shifted hash, and nothing else, is cut to a signed word. */
  lemma HashStep(input: seq<Code>, c: Code)
    ensures var shifted := Hash(input + [c]) - c as int + Hash(input);
            && -HALF_WORD <= shifted < HALF_WORD && Congruent(shifted, 32 * Hash(input))
  {
    assert (input + [c])[..|input|] == input;
    var q := ShiftMultiplies(Hash(input));
    MultipleIsCongruent(ShiftLeft5(Hash(input)), 32 * Hash(input), q);
  }

  /** Because the subtraction does not wrap, the hash can grow, but only by a word per character. */
  lemma {:induction false} HashIsBounded(input: seq<Code>)
    ensures Abs(Hash(input)) <= |input| * (HALF_WORD + 0xFFFF)
  {
    if input != [] {
      HashIsBounded(input[..|input| - 1]);
    }
  }

  /** Integers up to this size are exact as double-precision numbers. */
  const MAX_EXACT := 0x20_0000_0000_0000

  /** Up to four million characters every intermediate value is exact, so the arithmetic of the program,
      which is floating point, is the integer arithmetic of this model. */
  lemma HashIsExact(input: seq<Code>, k: nat)
    requires k < |input| <= 4194176
    ensures Abs(Hash(input[..k])) <= MAX_EXACT && Abs(ShiftLeft5(Hash(input[..k])) - Hash(input[..k])) <= MAX_EXACT
    ensures Abs(Hash(input[..k + 1])) <= MAX_EXACT
  {
    HashIsBounded(input[..k]);
    HashIsBounded(input[..k + 1]);
    assert input[..k + 1][..k] == input[..k];
  }
}
