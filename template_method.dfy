/**
 * Template method demo: a letter is assembled as header, content and footer,
 * then delivered. The fancy letter's header and footer are the same
 * decoration, `*~*` written ten times.
 *
 * Delivery prints the letter; here each `createLetter` returns the letters it
 * handed to `deliver`, in order.
 */
module TemplateMethod {

  const DECORATION_UNIT: string := "*~*"
  const DECORATION_REPEATS: nat := 10

  /** `s` written `n` times in a row. */
  function Repeat(s: string, n: nat): string
  {
    if n == 0 then "" else Repeat(s, n - 1) + s
  }

  lemma {:induction false} RepeatLength(s: string, n: nat)
    ensures |Repeat(s, n)| == n * |s|
  {
    if n > 0 {
      RepeatLength(s, n - 1);
    }
  }

  /** The copies before copy `n - 1` end where copy `n - 1` begins. */
  lemma {:induction false} EarlierCopy(k: nat, n: nat, len: nat, j: nat)
    requires k + 1 < n && j < len
    ensures k * len + j < (n - 1) * len
  {
    if k + 2 < n {
      EarlierCopy(k, n - 1, len, j);
    }
  }

  /** Copy `k` of `s` inside a repetition holds the characters of `s`. */
  lemma {:induction false} RepeatAt(s: string, n: nat, k: nat, j: nat)
    requires k < n && j < |s|
    ensures |Repeat(s, n)| == n * |s| && Repeat(s, n)[k * |s| + j] == s[j]
  {
    RepeatLength(s, n);
    RepeatLength(s, n - 1);
    var prev := Repeat(s, n - 1);
    assert Repeat(s, n) == prev + s;
    if k + 1 < n {
      RepeatAt(s, n - 1, k, j);
      EarlierCopy(k, n, |s|, j);
    } else {
      assert k * |s| + j == |prev| + j;
    }
  }

  /** The fancy letter's decoration. */
  function Decoration(): string
  {
    Repeat(DECORATION_UNIT, DECORATION_REPEATS)
  }

  /** The decoration is 30 characters of `*~*` over and over. */
  lemma DecorationShape()
    ensures |Decoration()| == 30
    ensures forall i :: 0 <= i < 30 ==> Decoration()[i] == DECORATION_UNIT[i % 3]
  {
    RepeatLength(DECORATION_UNIT, DECORATION_REPEATS);
    forall i | 0 <= i < 30
      ensures Decoration()[i] == DECORATION_UNIT[i % 3]
    {
      RepeatAt(DECORATION_UNIT, DECORATION_REPEATS, i / 3, i % 3);
    }
  }

  /** The letter that `createLetter(content)` hands to `deliver` for a fancy letter. */
  function FancyLetter(content: string): (letter: string)
    ensures |letter| == |content| + 60
    ensures letter[..30] == letter[30 + |content|..] == Decoration()
    ensures letter[30..30 + |content|] == content
  {
    DecorationShape();
    var letter := Decoration() + content + Decoration();
    assert letter[30..30 + |content|] == content;
    letter
  }

  /** `doCreateDecoration`: appends the unit ten times to an empty buffer. */
  method DoCreateDecoration() returns (decoration: string)
    ensures decoration == Decoration() && |decoration| == 30
  {
    decoration := "";
    for i := 0 to DECORATION_REPEATS
      invariant decoration == Repeat(DECORATION_UNIT, i)
    {
      decoration := decoration + DECORATION_UNIT;
    }
    DecorationShape();
  }

  method AddHeader() returns (header: string)
    ensures header == Decoration()
  {
    header := DoCreateDecoration();
  }

  method AddFooter() returns (footer: string)
    ensures footer == Decoration()
  {
    footer := DoCreateDecoration();
  }

  /**
   * The template method: appends header, content and footer, then delivers
   * the result once.
   */
  method CreateLetter(content: string) returns (delivered: seq<string>)
    ensures |delivered| == 1
    ensures delivered[0] == FancyLetter(content)
  {
    var sb := AddHeader();
    sb := sb + content;
    var footer := AddFooter();
    sb := sb + footer;
    delivered := [sb];
  }
}
