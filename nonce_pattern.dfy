/** The regular expression `^[a-zA-Z0-9]*$` as used through Java's `String.matches`,
    which succeeds only when the pattern matches the WHOLE string. The pattern is a
    starred character class between anchors; the class is a list of inclusive ranges. */
module NoncePattern {

  /** One range `lo-hi` inside a bracketed character class. */
  datatype CharRange = CharRange(lo: char, hi: char) {
    predicate Contains(c: char) { lo <= c <= hi }
  }

  /** The class `[a-zA-Z0-9]`, range by range as written in the pattern. */
  const NonceClass: seq<CharRange> := [CharRange('a', 'z'), CharRange('A', 'Z'), CharRange('0', '9')]

  /** A character matches a bracketed class when some range of it contains the character. */
  predicate InClass(cls: seq<CharRange>, c: char)
  {
    |cls| > 0 && (cls[0].Contains(c) || InClass(cls[1..], c))
  }

  /** Whole-string match of `^[cls]*$`: the star consumes the string one class
      character at a time, and the anchors leave nothing unconsumed. The star
      admits the empty string, and it never consumes a character outside the class. */
  predicate FullMatchStar(cls: seq<CharRange>, s: string): (b: bool)
    ensures s == [] ==> b
    ensures b ==> forall i | 0 <= i < |s| :: InClass(cls, s[i])
  {
    s == [] || (InClass(cls, s[0]) && FullMatchStar(cls, s[1..]))
  }

  /** The reference definition of a nonce character: an ASCII letter or an ASCII digit. */
  predicate IsNonceChar(c: char)
  {
    ('a' <= c <= 'z') || ('A' <= c <= 'Z') || ('0' <= c <= '9')
  }

  /** The class written in the pattern is exactly the set of ASCII letters and digits. */
  lemma NonceClassIsAlphanumeric(c: char)
    ensures InClass(NonceClass, c) <==> IsNonceChar(c)
  {
    var upper, digits := NonceClass[1..], NonceClass[1..][1..];
    assert upper == [CharRange('A', 'Z'), CharRange('0', '9')];
    assert digits == [CharRange('0', '9')];
    assert !InClass(digits[1..], c);
    assert InClass(digits, c) <==> '0' <= c <= '9';
    assert InClass(upper, c) <==> ('A' <= c <= 'Z') || ('0' <= c <= '9');
  }

  /** A starred class matches a whole string exactly when every character of the
      string is in the class. */
  lemma {:induction false} FullMatchStarIffAll(cls: seq<CharRange>, s: string)
    ensures FullMatchStar(cls, s) <==> forall i | 0 <= i < |s| :: InClass(cls, s[i])
  {
    if s != [] {
      FullMatchStarIffAll(cls, s[1..]);
      assert forall i | 1 <= i < |s| :: s[i] == s[1..][i - 1];
    }
  }

  /** `^[a-zA-Z0-9]*$` matches a whole string exactly when every character is an
      ASCII letter or digit; the empty string included, because of the star. */
  lemma NonceMatchIffAlphanumeric(s: string)
    ensures FullMatchStar(NonceClass, s) <==> forall i | 0 <= i < |s| :: IsNonceChar(s[i])
  {
    FullMatchStarIffAll(NonceClass, s);
    forall i | 0 <= i < |s| ensures InClass(NonceClass, s[i]) <==> IsNonceChar(s[i]) {
      NonceClassIsAlphanumeric(s[i]);
    }
  }
}
