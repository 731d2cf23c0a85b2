/** `generateShortId`: a string of independent draws from a 36-symbol alphabet.

    `Math.random()` is replaced by an oracle `draw`, where `draw(k)` is the value
    the k-th call returns. Everything else is as the code computes it: the index is
    `floor(r * 36)` and the character is `charAt` of that index. */
module ShortId {

  import Wrappers

  /** Lower-case letters, then digits. */
  const Alphabet: string := "abcdefghijklmnopqrstuvwxyz0123456789"

  /** The length used when the caller passes none. */
  const DefaultLength: nat := 5

  /** A value `Math.random()` can return. */
  type Draw = r: real | 0.0 <= r < 1.0

  /** `Math.floor(r * chars.length)`: always a position of the alphabet. */
  function DrawIndex(r: Draw): (i: int)
    ensures 0 <= i < |Alphabet|
  {
    (r * (|Alphabet| as real)).Floor
  }

  /** JavaScript's `s.charAt(i)`: the one-character string at `i`, or "" outside. */
  function CharAt(s: string, i: int): string
  {
    if 0 <= i < |s| then [s[i]] else ""
  }

  /** `Array.from({ length }, () => chars.charAt(...)).join("")`. */
  function GenerateShortId(length: nat, draw: nat -> Draw): (id: string)
    ensures |id| == length
    ensures forall k :: 0 <= k < length ==> id[k] == Alphabet[DrawIndex(draw(k))]
    ensures forall c :: c in id ==> c in Alphabet
  {
    if length == 0 then ""
    else GenerateShortId(length - 1, draw) + CharAt(Alphabet, DrawIndex(draw(length - 1)))
  }

  /** The alphabet is the 26 letters followed by the 10 digits, in code-point order. */
  lemma AlphabetLayout()
    ensures |Alphabet| == 36
    ensures forall i :: 0 <= i < 26 ==> Alphabet[i] as int == 'a' as int + i
    ensures forall i :: 26 <= i < 36 ==> Alphabet[i] as int == '0' as int + (i - 26)
  {
  }

  /** The 36 positions hold 36 different symbols, so each symbol is chosen by
      exactly one index. */
  lemma AlphabetDistinct()
    ensures |Alphabet| == 36
    ensures forall i, j :: 0 <= i < j < |Alphabet| ==> Alphabet[i] != Alphabet[j]
  {
  }

  /** The position of a symbol of the alphabet. */
  function SymbolIndex(c: char): (i: nat)
    requires c in Alphabet
    ensures i < |Alphabet| && Alphabet[i] == c
  {
    match Wrappers.IndexOf(Alphabet, c)
    case Some(i) => i
  }

  /** A draw that selects position `i`. */
  function DrawFor(i: nat): (r: Draw)
    requires i < |Alphabet|
    ensures DrawIndex(r) == i
  {
    (i as real) / (|Alphabet| as real)
  }

  /** The draw at position k that spells `s`: the one selecting `s[k]`. */
  function SpellingDraw(s: string, k: nat): (r: Draw)
    requires forall c :: c in s ==> c in Alphabet
    ensures k < |s| ==> Alphabet[DrawIndex(r)] == s[k]
  {
    if k < |s| then DrawFor(SymbolIndex(s[k])) else 0.0
  }

  /** Draws that select the symbols of `s`, in order, spell `s`. */
  lemma ShortIdSpells(s: string, draw: nat -> Draw)
    requires forall k :: 0 <= k < |s| ==> Alphabet[DrawIndex(draw(k))] == s[k]
    ensures GenerateShortId(|s|, draw) == s
  {
  }

  /** Every string over the alphabet is an identifier some oracle yields: nothing in
      the alphabet is unreachable, at any position, for any length. The result is
      such an oracle. */
  function SpellingOracle(s: string): (draw: nat -> Draw)
    requires forall c :: c in s ==> c in Alphabet
    ensures GenerateShortId(|s|, draw) == s
  {
    var draw: nat -> Draw := (k: nat) => SpellingDraw(s, k);
    assert forall k :: 0 <= k < |s| ==> Alphabet[DrawIndex(draw(k))] == s[k] by {
      forall k | 0 <= k < |s|
        ensures Alphabet[DrawIndex(draw(k))] == s[k]
      {
        assert draw(k) == SpellingDraw(s, k);
      }
    }
    ShortIdSpells(s, draw);
    draw
  }

  /** Character k depends on the k-th draw only: not on the other draws, and not on
      how many characters are requested. */
  lemma DrawsIndependent(m: nat, n: nat, d1: nat -> Draw, d2: nat -> Draw, k: nat)
    requires k < m && k < n
    requires d1(k) == d2(k)
    ensures GenerateShortId(m, d1)[k] == GenerateShortId(n, d2)[k]
  {
  }

  /** A shorter identifier is a prefix of a longer one built from the same draws. */
  lemma ShortIdPrefix(m: nat, n: nat, draw: nat -> Draw)
    requires m <= n
    ensures GenerateShortId(m, draw) == GenerateShortId(n, draw)[..m]
  {
  }
}
