/** Character classes used by the password rules and the form sanitisers,
    and the single-class regular-expression test `/[…]/.test(s)`. Strings are
    sequences of characters; case mapping is ASCII only. */
module Chars {

  /** The bracket expressions that appear in the source's regular expressions. */
  datatype CharClass =
    | Upper      // [A-Z]
    | Lower      // [a-z]
    | Digit      // [0-9] and \d
    | NonAlnum   // [^A-Za-z0-9]
    | Listed     // [!@#$%^&*(),.?":{}|<>]

  /** The punctuation accepted by the symbol rule of the backend's password report. */
  const ListedSymbols: string := "!@#$%^&*(),.?\":{}|<>"

  predicate IsUpper(c: char) { 'A' <= c <= 'Z' }
  predicate IsLower(c: char) { 'a' <= c <= 'z' }
  predicate IsDigit(c: char) { '0' <= c <= '9' }
  predicate IsAlnum(c: char) { IsUpper(c) || IsLower(c) || IsDigit(c) }

  /** The whitespace matched by `\s`, restricted to ASCII. */
  predicate IsSpace(c: char)
  {
    c == ' ' || c == '\t' || c == '\n' || c == '\r' || c == '\U{C}' || c == '\U{B}'
  }

  predicate InClass(k: CharClass, c: char)
  {
    match k
    case Upper => IsUpper(c)
    case Lower => IsLower(c)
    case Digit => IsDigit(c)
    case NonAlnum => !IsAlnum(c)
    case Listed => c in ListedSymbols
  }

  /** `/[k]/.test(s)`: a left-to-right scan for one character of the class. */
  function Test(k: CharClass, s: string): bool
  {
    if s == [] then false else InClass(k, s[0]) || Test(k, s[1..])
  }

  /** Some character of `s` is in the class. */
  ghost predicate Has(k: CharClass, s: string)
  {
    exists i :: 0 <= i < |s| && InClass(k, s[i])
  }

  /** The scan finds a character of the class exactly when there is one. */
  lemma {:induction false} TestIsSearch(k: CharClass, s: string)
    ensures Test(k, s) <==> Has(k, s)
  {
    if s != [] {
      TestIsSearch(k, s[1..]);
      if Has(k, s[1..]) {
        var i :| 0 <= i < |s[1..]| && InClass(k, s[1..][i]);
        assert InClass(k, s[i + 1]);
      }
      if Has(k, s) && !InClass(k, s[0]) {
        var i :| 0 <= i < |s| && InClass(k, s[i]);
        assert i > 0 && InClass(k, s[1..][i - 1]);
      }
    }
  }

  /** Every listed symbol is outside [A-Za-z0-9], so the symbol rule of the
      report is stricter than the `[^A-Za-z0-9]` rule of the other policies. */
  lemma ListedIsNonAlnum(c: char)
    ensures InClass(Listed, c) ==> InClass(NonAlnum, c)
  {
  }

  /** `ch.toLowerCase()` on ASCII letters. */
  function ToLower(c: char): (r: char)
    ensures IsUpper(c) ==> IsLower(r)
    ensures !IsUpper(c) ==> r == c
  {
    if IsUpper(c) then (c as int + 32) as char else c
  }
}
