/** The alphabet a password is drawn from: four fixed character classes,
    concatenated in a fixed order according to four flags. */
module CharacterClasses {

  const Uppercase: string := "ABCDEFGHIJKLMNOPQRSTUVWXYZ"
  const Lowercase: string := "abcdefghijklmnopqrstuvwxyz"
  const Digits: string := "0123456789"
  const Symbols: string := "!@#$%^&*()_+~`|}{[]:;?><,./-="

  /** 1 when the flag is set, 0 otherwise. */
  function Indicator(b: bool): nat {
    if b then 1 else 0
  }

  /** `acc` followed by the class `cls` when it is enabled, `acc` alone otherwise. */
  function WithClass(acc: string, enabled: bool, cls: string): string {
    if enabled then acc + cls else acc
  }

  /** The alphabet for the given flags: starting from the empty string, the
      enabled classes appended uppercase first, then lowercase, digits and
      symbols. Nothing is deduplicated. */
  function Charset(upper: bool, lower: bool, digits: bool, symbols: bool): (r: string)
    ensures |r| == 26 * Indicator(upper) + 26 * Indicator(lower)
                 + 10 * Indicator(digits) + 29 * Indicator(symbols)
  {
    WithClass(WithClass(WithClass(WithClass("", upper, Uppercase), lower, Lowercase),
                        digits, Digits), symbols, Symbols)
  }

  /** The alphabet is empty exactly when no class is enabled. */
  lemma CharsetEmpty(upper: bool, lower: bool, digits: bool, symbols: bool)
    ensures Charset(upper, lower, digits, symbols) == [] <==> !upper && !lower && !digits && !symbols
  {
  }

  /** Reference definition of a class of consecutive code points:
      the `n` characters starting at `first`, in increasing order. */
  function Span(first: char, n: nat): (r: string)
    requires first as int + n < 0xD800
    ensures |r| == n
    decreases n
  {
    if n == 0 then [] else [first] + Span((first as int + 1) as char, n - 1)
  }

  lemma {:induction false} SpanAt(first: char, n: nat, k: nat)
    requires first as int + n < 0xD800
    requires k < n
    ensures Span(first, n)[k] as int == first as int + k
    decreases n
  {
    if k > 0 {
      SpanAt((first as int + 1) as char, n - 1, k - 1);
    }
  }

  lemma {:induction false} SpanMembership(first: char, n: nat, c: char)
    requires first as int + n < 0xD800
    ensures c in Span(first, n) <==> first as int <= c as int < first as int + n
    decreases n
  {
    if n > 0 {
      SpanMembership((first as int + 1) as char, n - 1, c);
    }
  }

  /** A string whose k-th character is `first + k` at every position is a span. */
  lemma SpanCharacterisation(s: string, first: char)
    requires first as int + |s| < 0xD800
    requires forall k | 0 <= k < |s| :: s[k] as int == first as int + k
    ensures s == Span(first, |s|)
  {
    forall k | 0 <= k < |s| ensures s[k] == Span(first, |s|)[k] {
      SpanAt(first, |s|, k);
    }
  }

  /** The uppercase class is the range A-Z, in order. */
  lemma UppercaseIsRange()
    ensures Uppercase == Span('A', 26)
  {
    assert forall k | 0 <= k < 26 :: Uppercase[k] as int == 'A' as int + k;
    SpanCharacterisation(Uppercase, 'A');
  }

  /** The lowercase class is the range a-z, in order. */
  lemma LowercaseIsRange()
    ensures Lowercase == Span('a', 26)
  {
    assert forall k | 0 <= k < 26 :: Lowercase[k] as int == 'a' as int + k;
    SpanCharacterisation(Lowercase, 'a');
  }

  /** The digit class is the range 0-9, in order. */
  lemma DigitsIsRange()
    ensures Digits == Span('0', 10)
  {
    assert forall k | 0 <= k < 10 :: Digits[k] as int == '0' as int + k;
    SpanCharacterisation(Digits, '0');
  }

  /** The 29 symbols are all distinct from the letters and the digits. */
  lemma SymbolsAreNotAlphanumeric(c: char)
    requires c in Symbols
    ensures !('A' <= c <= 'Z') && !('a' <= c <= 'z') && !('0' <= c <= '9')
  {
  }

  /** A character belongs to the alphabet exactly when it belongs to an enabled class.
      The proof goes through the range lemmas above, which tie the class
      literals to A-Z, a-z and 0-9. */
  lemma CharsetMembership(upper: bool, lower: bool, digits: bool, symbols: bool, c: char)
    ensures c in Charset(upper, lower, digits, symbols) <==>
      (upper && 'A' <= c <= 'Z') || (lower && 'a' <= c <= 'z')
      || (digits && '0' <= c <= '9') || (symbols && c in Symbols)
  {
    UppercaseIsRange();
    LowercaseIsRange();
    DigitsIsRange();
    SpanMembership('A', 26, c);
    SpanMembership('a', 26, c);
    SpanMembership('0', 10, c);
  }
}
