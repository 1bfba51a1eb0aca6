/**
 * The password strength rule applied at signup (`is_strong_password`,
 * app/api_routes.py:43-53): at least eight characters, and at least one
 * upper-case ASCII letter, one lower-case ASCII letter, one ASCII digit and one
 * special character.
 */
module Passwords {

  const MIN_PASSWORD_LENGTH: nat := 8

  /**
   * The members of the regular-expression class `[!@#$%^&*(),.?\":{}|<>]`.
   * Inside the class `\"` is an escaped double quote, so the backslash itself
   * is not a member: twenty characters in all.
   */
  const SPECIAL_CHARACTERS: string := "!@#$%^&*(),.?\":{}|<>"

  /** The four character classes the rule searches for. */
  datatype CharClass = Upper | Lower | Digit | Special

  /**
   * Membership of one class. Every class holds only visible ASCII characters,
   * and no special character is a letter or a digit.
   */
  function InClass(c: char, cls: CharClass): (inside: bool)
    ensures inside ==> '!' <= c <= '~'
    ensures inside && cls == Special ==> !('A' <= c <= 'Z' || 'a' <= c <= 'z' || '0' <= c <= '9')
  {
    match cls
    case Upper => 'A' <= c <= 'Z'
    case Lower => 'a' <= c <= 'z'
    case Digit => '0' <= c <= '9'
    case Special => c in SPECIAL_CHARACTERS
  }

  /** `re.search` for a one-character class: does some character of `s` belong to `cls`? */
  function Search(s: string, cls: CharClass): (found: bool)
    ensures found <==> exists i :: 0 <= i < |s| && InClass(s[i], cls)
  {
    if s == [] then false
    else if InClass(s[0], cls) then true
    else
      assert forall i :: 1 <= i < |s| ==> s[i] == s[1..][i - 1];
      Search(s[1..], cls)
  }

  /** The signup rule: false as soon as one of the five tests fails. */
  function IsStrongPassword(password: string): (strong: bool)
    ensures strong <==>
      && |password| >= MIN_PASSWORD_LENGTH
      && (exists i :: 0 <= i < |password| && 'A' <= password[i] <= 'Z')
      && (exists i :: 0 <= i < |password| && 'a' <= password[i] <= 'z')
      && (exists i :: 0 <= i < |password| && '0' <= password[i] <= '9')
      && (exists i :: 0 <= i < |password| && password[i] in SPECIAL_CHARACTERS)
  {
    if || |password| < MIN_PASSWORD_LENGTH
       || !Search(password, Upper)
       || !Search(password, Lower)
       || !Search(password, Digit)
       || !Search(password, Special)
    then false
    else true
  }

  /** A password with all four kinds of character and nine characters passes. */
  lemma StrongExample()
    ensures IsStrongPassword("Secret#42")
  {
    var p := "Secret#42";
    assert 'A' <= p[0] <= 'Z' && 'a' <= p[1] <= 'z' && '0' <= p[7] <= '9';
    assert p[6] in SPECIAL_CHARACTERS;
  }

  /** A backslash does not count as the special character. */
  lemma BackslashIsNotSpecial()
    ensures !IsStrongPassword("Secret\\42")
  {
    var p := "Secret\\42";
    var used := {'S', 'e', 'c', 'r', 't', '\\', '4', '2'};
    assert forall i :: 0 <= i < |p| ==> p[i] in used;
    assert forall c :: c in used ==> c !in SPECIAL_CHARACTERS;
  }
}
