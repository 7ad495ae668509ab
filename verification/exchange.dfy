/**
 * The text transform applied to every broadcast body: each case-insensitive "you"
 * gets its middle letter replaced by the look-alike Cyrillic letter O, so that
 * clients do not highlight the word.
 */
module Transform {

  /** CYRILLIC SMALL LETTER O, used for a lower-case 'o'. */
  const SmallO: char := '\U{043E}'
  /** CYRILLIC CAPITAL LETTER O, used for everything else (an 'O'). */
  const CapitalO: char := '\U{041E}'

  // Case-insensitive matching of the pattern "you". No other character folds to
  // y, o or u, so each letter has exactly its two ASCII cases.
  predicate IsY(c: char) { c == 'y' || c == 'Y' }
  predicate IsO(c: char) { c == 'o' || c == 'O' }
  predicate IsU(c: char) { c == 'u' || c == 'U' }

  /** A case-insensitive "you" starts at offset k of s. */
  predicate YouAt(s: string, k: int) {
    0 <= k && k + 3 <= |s| && IsY(s[k]) && IsO(s[k + 1]) && IsU(s[k + 2])
  }

  /** The look-alike that takes the place of the middle letter of a match. */
  function Replacement(c: char): char {
    if c == 'o' then SmallO else CapitalO
  }

  /** The reference definition: offset i is replaced exactly when a match starts at i - 1. */
  function Exchanged(s: string): string {
    seq(|s|, i requires 0 <= i < |s| => if YouAt(s, i - 1) then Replacement(s[i]) else s[i])
  }

  /**
   * `exchange`: walk the matches left to right as `finditer` does (a match resumes the
   * scan after its three letters) and rebuild the string at each match start + 1.
   */
  method Exchange(s: string) returns (r: string)
    ensures |r| == |s|
    ensures r == Exchanged(s)
  {
    r := s;
    var pos := 0;
    while pos + 3 <= |s|
      invariant 0 <= pos <= |s|
      invariant |r| == |s|
      invariant 0 < pos ==> !YouAt(s, pos - 1)
      invariant forall i :: 0 <= i < |s| ==>
        r[i] == (if i < pos && YouAt(s, i - 1) then Replacement(s[i]) else s[i])
    {
      if YouAt(s, pos) {
        var location := pos + 1;
        var ch := Replacement(r[location]);
        r := r[..location] + [ch] + r[location + 1..];
        pos := pos + 3;
      } else {
        pos := pos + 1;
      }
    }
  }

  /** The purpose of the rewrite: no case-insensitive "you" is left. */
  lemma ExchangedHasNoYou(s: string)
    ensures forall k :: !YouAt(Exchanged(s), k)
  {
  }

  /** Applying the rewrite twice is the same as applying it once. */
  lemma ExchangeIdempotent(s: string)
    ensures Exchanged(Exchanged(s)) == Exchanged(s)
  {
    ExchangedHasNoYou(s);
    NoYouUnchanged(Exchanged(s));
  }

  /** A string is left as it is exactly when it holds no "you". */
  lemma NoYouUnchanged(s: string)
    ensures Exchanged(s) == s <==> forall k :: !YouAt(s, k)
  {
    if forall k :: !YouAt(s, k) {
      assert forall i :: 0 <= i < |s| ==> Exchanged(s)[i] == s[i];
    } else {
      var k :| YouAt(s, k);
      assert Exchanged(s)[k + 1] != s[k + 1];
    }
  }
}
