/**
 * The e-mail recogniser of the registration form:
 *   ^[a-zA-Z0-9._%+-]+@[a-zA-Z0-9.-]+\.[a-zA-Z]{2,}$
 * `IsEmail` states the pattern as the regular expression reads: SOME split of the
 * string into local part, '@', domain, '.', top-level domain. `Matches` is a
 * scanner that needs no search: it splits at the first '@' and the last '.'.
 * `MatchesIffIsEmail` shows that the two agree on every string.
 */
module EmailSyntax {
  import opened Wrappers
  import opened Strings

  predicate IsAsciiLetter(c: char) { 'a' <= c <= 'z' || 'A' <= c <= 'Z' }

  predicate IsAsciiDigit(c: char) { '0' <= c <= '9' }

  /** The class [a-zA-Z0-9._%+-] of the local part. */
  predicate IsLocalChar(c: char) {
    IsAsciiLetter(c) || IsAsciiDigit(c) || c == '.' || c == '_' || c == '%' || c == '+' || c == '-'
  }

  /** The class [a-zA-Z0-9.-] of the domain. */
  predicate IsDomainChar(c: char) {
    IsAsciiLetter(c) || IsAsciiDigit(c) || c == '.' || c == '-'
  }

  predicate AllLocal(s: string) { forall i :: 0 <= i < |s| ==> IsLocalChar(s[i]) }

  predicate AllDomain(s: string) { forall i :: 0 <= i < |s| ==> IsDomainChar(s[i]) }

  predicate AllLetters(s: string) { forall i :: 0 <= i < |s| ==> IsAsciiLetter(s[i]) }

  /**
   * `s` splits as s[..at] (local part, one or more), s[at] == '@', s[at+1..dot]
   * (domain, one or more), s[dot] == '.', s[dot+1..] (two or more letters, to the end).
   */
  ghost predicate IsEmailSplit(s: string, at: int, dot: int) {
    && 0 < at && at + 1 < dot && dot + 3 <= |s|
    && s[at] == '@' && s[dot] == '.'
    && AllLocal(s[..at])
    && AllDomain(s[at + 1..dot])
    && AllLetters(s[dot + 1..])
  }

  /** The regular expression, as a specification: some split exists. */
  ghost predicate IsEmail(s: string) {
    exists at: int, dot: int :: IsEmailSplit(s, at, dot)
  }

  /** The scanning recogniser: split at the first '@' and at the last '.'. */
  function Matches(s: string): bool {
    match (FirstIndex(s, '@'), LastIndex(s, '.'))
    case (Some(at), Some(dot)) =>
      && 0 < at && at + 1 < dot && dot + 3 <= |s|
      && AllLocal(s[..at])
      && AllDomain(s[at + 1..dot])
      && AllLetters(s[dot + 1..])
    case _ => false
  }

  /** The scanner accepts exactly the strings the regular expression accepts. */
  lemma MatchesIffIsEmail(s: string)
    ensures Matches(s) <==> IsEmail(s)
  {
    if Matches(s) {
      var at := FirstIndex(s, '@').value;
      var dot := LastIndex(s, '.').value;
      assert IsEmailSplit(s, at, dot);
    }
    if IsEmail(s) {
      var at, dot :| IsEmailSplit(s, at, dot);
      // Neither class admits '@', and the top-level domain admits no '.',
      // so the split is the one the scanner finds.
      assert FirstIndex(s, '@') == Some(at);
      assert LastIndex(s, '.') == Some(dot);
    }
  }

  /** No character class of the pattern admits '@', so an accepted address has exactly one. */
  lemma ExactlyOneAt(s: string)
    requires IsEmail(s)
    ensures multiset(s)['@'] == 1
  {
    var at, dot :| IsEmailSplit(s, at, dot);
    var local, domain, tld := s[..at], s[at + 1..dot], s[dot + 1..];
    assert s == local + ['@'] + domain + ['.'] + tld;
    assert multiset(s) == multiset(local) + multiset{'@'} + multiset(domain) + multiset{'.'} + multiset(tld);
  }

  /** `user@example.com` is accepted. */
  lemma AcceptsUserAtExampleCom()
    ensures IsEmail("user@example.com") && Matches("user@example.com")
  {
    var s := "user@example.com";
    assert s[..4] == "user";
    assert s[5..12] == "example";
    assert s[13..] == "com";
    assert IsEmailSplit(s, 4, 12);
    MatchesIffIsEmail(s);
  }

  /** `user@`, `user.com` and the empty string are rejected. */
  lemma RejectsSamples()
    ensures !IsEmail("user@") && !Matches("user@")
    ensures !IsEmail("user.com") && !Matches("user.com")
    ensures !IsEmail("") && !Matches("")
  {
    MatchesIffIsEmail("user@");
    MatchesIffIsEmail("user.com");
    MatchesIffIsEmail("");
  }
}
