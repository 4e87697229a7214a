/**
 * The two string formats the schemas check: an e-mail address and a cuid identifier.
 * They stand in for the validating library's own patterns (see README, "Left out").
 */
module Formats {
  import opened Wrappers

  predicate IsLetter(c: char) { 'a' <= c <= 'z' || 'A' <= c <= 'Z' }

  predicate IsDigit(c: char) { '0' <= c <= '9' }

  predicate IsAlnum(c: char) { IsLetter(c) || IsDigit(c) }

  /** The first position of `c` in `s`, if any. */
  function IndexOf(s: string, c: char): (r: Option<nat>)
    ensures r.Some? ==> r.value < |s| && s[r.value] == c && c !in s[..r.value]
    ensures r.None? ==> c !in s
  {
    if s == [] then None
    else if s[0] == c then Some(0)
    else match IndexOf(s[1..], c)
      case None => None
      case Some(i) => Some(i + 1)
  }

  /** `s` cut at every `sep`; the pieces never contain `sep` and there is always at least one. */
  function SplitOn(s: string, sep: char): (pieces: seq<string>)
    ensures |pieces| >= 1
    ensures forall k :: 0 <= k < |pieces| ==> sep !in pieces[k]
    decreases |s|
  {
    match IndexOf(s, sep)
    case None => [s]
    case Some(i) => [s[..i]] + SplitOn(s[i + 1..], sep)
  }

  predicate IsLocalChar(c: char) { IsAlnum(c) || c == '_' || c == '+' || c == '-' || c == '.' }

  /** The part before '@': allowed characters only, no leading, trailing or doubled dot. */
  predicate IsLocalPart(l: string)
  {
    && |l| >= 1
    && l[0] != '.'
    && l[|l| - 1] != '.'
    && (forall k :: 0 <= k < |l| ==> IsLocalChar(l[k]))
    && (forall k :: 0 <= k < |l| - 1 ==> !(l[k] == '.' && l[k + 1] == '.'))
  }

  /** A domain label: starts with a letter or digit, then letters, digits and hyphens. */
  predicate IsLabel(l: string)
  {
    |l| >= 1 && IsAlnum(l[0]) && forall k :: 1 <= k < |l| ==> IsAlnum(l[k]) || l[k] == '-'
  }

  /** The last label: two or more letters. */
  predicate IsTopLevel(t: string)
  {
    |t| >= 2 && forall k :: 0 <= k < |t| ==> IsLetter(t[k])
  }

  predicate IsDomain(d: string)
  {
    var labels := SplitOn(d, '.');
    && |labels| >= 2
    && IsTopLevel(labels[|labels| - 1])
    && (forall k :: 0 <= k < |labels| - 1 ==> IsLabel(labels[k]))
  }

  /** local@label.….tld, letters compared without regard to case. */
  predicate IsEmail(s: string)
  {
    match IndexOf(s, '@')
    case None => false
    case Some(i) => IsLocalPart(s[..i]) && IsDomain(s[i + 1..])
  }

  /** The characters JavaScript's `\s` class matches. */
  predicate IsSpace(c: char)
  {
    || c == ' '
    || '\t' <= c <= '\r'
    || c == '\U{00A0}' || c == '\U{1680}'
    || '\U{2000}' <= c <= '\U{200A}'
    || c == '\U{2028}' || c == '\U{2029}' || c == '\U{202F}' || c == '\U{205F}'
    || c == '\U{3000}' || c == '\U{FEFF}'
  }

  /** A cuid: 'c' (either case) followed by at least eight characters, none blank or '-'. */
  predicate IsCuid(s: string)
  {
    && |s| >= 9
    && (s[0] == 'c' || s[0] == 'C')
    && forall k :: 1 <= k < |s| ==> !IsSpace(s[k]) && s[k] != '-'
  }

  /** An address that ends in '@' has an empty domain and is not an e-mail address. */
  lemma {:induction false} TrailingAtRejected(s: string)
    requires '@' !in s
    ensures !IsEmail(s + "@")
  {
    var t := s + "@";
    assert t[|s|] == '@' && t[..|s|] == s;
    assert IndexOf(t, '@') == Some(|s|);
    assert t[|s| + 1..] == "";
    assert IndexOf("", '.') == None;
    assert SplitOn("", '.') == [""];
  }

  /** The malformed address from the signup and signin tests is refused. */
  lemma WrongEmailRejected()
    ensures !IsEmail("wrong.email.com@")
  {
    TrailingAtRejected("wrong.email.com");
    assert "wrong.email.com" + "@" == "wrong.email.com@";
  }
}
