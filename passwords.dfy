/** The password rule of registration and reset:
    `Password::min(8)->letters()->mixedCase()->numbers()->symbols()->uncompromised()`.
    Each character class is one of the rule's regular expressions
    (`\pL`, `\p{Ll}`, `\p{Lu}`, `\pN`, `\p{Z}|\p{S}|\p{P}`) restricted to
    ASCII; the breach lookup is an input verdict. */
module Passwords {

  predicate IsLower(c: char) { 'a' <= c <= 'z' }
  predicate IsUpper(c: char) { 'A' <= c <= 'Z' }
  predicate IsLetter(c: char) { IsLower(c) || IsUpper(c) }
  predicate IsDigit(c: char) { '0' <= c <= '9' }

  /** Printable ASCII that is neither a letter nor a digit: the space
      separator, symbols and punctuation. */
  predicate IsSymbol(c: char) { ' ' <= c <= '~' && !IsLetter(c) && !IsDigit(c) }

  datatype CharClass = Letter | Lower | Upper | Digit | Symbol

  predicate InClass(c: char, k: CharClass) {
    match k
    case Letter => IsLetter(c)
    case Lower => IsLower(c)
    case Upper => IsUpper(c)
    case Digit => IsDigit(c)
    case Symbol => IsSymbol(c)
  }

  /** `preg_match` of the class's pattern: some character of `s` is in it. */
  function Contains(s: string, k: CharClass): (b: bool)
    ensures b <==> exists i :: 0 <= i < |s| && InClass(s[i], k)
  {
    if s == [] then false
    else if InClass(s[0], k) then true
    else
      var b := Contains(s[1..], k);
      assert forall i :: 1 <= i < |s| ==> s[i] == s[1..][i - 1];
      b
  }

  const MinLength: nat := 8

  /** Whether the rule accepts `p`; `uncompromised` is the verdict of the
      breached-password lookup. */
  function Accepts(p: string, uncompromised: bool): (ok: bool)
    ensures ok <==>
      && |p| >= MinLength
      && (exists i :: 0 <= i < |p| && IsLetter(p[i]))
      && (exists i :: 0 <= i < |p| && IsLower(p[i]))
      && (exists i :: 0 <= i < |p| && IsUpper(p[i]))
      && (exists i :: 0 <= i < |p| && IsDigit(p[i]))
      && (exists i :: 0 <= i < |p| && IsSymbol(p[i]))
      && uncompromised
  {
    && |p| >= MinLength
    && Contains(p, Letter)
    && Contains(p, Lower)
    && Contains(p, Upper)
    && Contains(p, Digit)
    && Contains(p, Symbol)
    && uncompromised
  }

  /** Having both cases implies having a letter, so `letters()` never
      refuses what `mixedCase()` accepts. */
  lemma MixedCaseImpliesLetter(p: string)
    requires Contains(p, Lower) && Contains(p, Upper)
    ensures Contains(p, Letter)
  {
    var i :| 0 <= i < |p| && IsLower(p[i]);
    assert InClass(p[i], Letter);
  }

  /** The weak password of the feature tests is refused for its length. */
  lemma ShortPasswordRefused()
    ensures !Accepts("123", true)
  {
  }

  /** The strong passwords of the feature tests are accepted when the
      breach lookup clears them. */
  lemma RegisterTestPasswordAccepted()
    ensures Accepts("passwordCreate12!", true)
  {
    var p := "passwordCreate12!";
    assert IsLower(p[0]) && IsUpper(p[8]) && IsDigit(p[14]) && IsSymbol(p[16]);
    MixedCaseImpliesLetter(p);
  }

  lemma ResetTestPasswordAccepted()
    ensures Accepts("novaSenha123!", true)
  {
    var p := "novaSenha123!";
    assert IsLower(p[0]) && IsUpper(p[4]) && IsDigit(p[9]) && IsSymbol(p[12]);
    MixedCaseImpliesLetter(p);
  }
}
