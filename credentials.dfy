/** The shape check every signup and login request passes first. */
module Credentials {
  import opened Wrappers
  import opened Http

  /** The shortest trimmed password the check accepts (its message speaks of eight). */
  const MinPasswordLength: nat := 7

  const InvalidCredentialsMessage :=
    "이메일 혹은 패스워드 입력값이 유효하지 않습니다. (이메일 형식이어야만 하며, 비밀번호는 8자리 이상이어야합니다."

  /** The characters JavaScript's `trim` removes: WhiteSpace (with the Zs category) and LineTerminator. */
  predicate IsWhiteSpace(c: char)
  {
    || '\t' <= c <= '\r'   // tab, line feed, vertical tab, form feed, carriage return
    || c == ' ' || c == '\U{A0}' || c == '\U{1680}'
    || '\U{2000}' <= c <= '\U{200A}'
    || c == '\U{2028}' || c == '\U{2029}'
    || c == '\U{202F}' || c == '\U{205F}' || c == '\U{3000}' || c == '\U{FEFF}'
  }

  /** `s` without its leading white space. */
  function TrimStart(s: string): string
  {
    if |s| > 0 && IsWhiteSpace(s[0]) then TrimStart(s[1..]) else s
  }

  /** `s` without its trailing white space. */
  function TrimEnd(s: string): string
  {
    if |s| > 0 && IsWhiteSpace(s[|s| - 1]) then TrimEnd(s[..|s| - 1]) else s
  }

  /** TrimStart removes a prefix of white space, and exactly as much of it as there is. */
  lemma {:induction false} TrimStartRemovesLeadingWhiteSpace(s: string)
    ensures var r := TrimStart(s);
      && |r| <= |s| && r == s[|s| - |r|..]
      && (forall k :: 0 <= k < |s| - |r| ==> IsWhiteSpace(s[k]))
      && (r != [] ==> !IsWhiteSpace(r[0]))
  {
    if |s| > 0 && IsWhiteSpace(s[0]) {
      TrimStartRemovesLeadingWhiteSpace(s[1..]);
    }
  }

  /** TrimEnd removes a suffix of white space, and exactly as much of it as there is. */
  lemma {:induction false} TrimEndRemovesTrailingWhiteSpace(s: string)
    ensures var r := TrimEnd(s);
      && |r| <= |s| && r == s[..|r|]
      && (forall k :: |r| <= k < |s| ==> IsWhiteSpace(s[k]))
      && (r != [] ==> !IsWhiteSpace(r[|r| - 1]))
  {
    if |s| > 0 && IsWhiteSpace(s[|s| - 1]) {
      TrimEndRemovesTrailingWhiteSpace(s[..|s| - 1]);
    }
  }

  /** JavaScript's `String.prototype.trim`: never longer than `s`, and neither starts nor ends with white space. */
  function Trim(s: string): (r: string)
    ensures |r| <= |s|
    ensures r != [] ==> !IsWhiteSpace(r[0]) && !IsWhiteSpace(r[|r| - 1])
    ensures exists a :: TrimmedAt(s, a, r)
  {
    TrimStartRemovesLeadingWhiteSpace(s);
    TrimEndRemovesTrailingWhiteSpace(TrimStart(s));
    assert TrimmedAt(s, |s| - |TrimStart(s)|, TrimEnd(TrimStart(s)));
    TrimEnd(TrimStart(s))
  }

  /** `r` is the slice of `s` at offset `a`, and everything of `s` before and after it is white space. */
  ghost predicate TrimmedAt(s: string, a: int, r: string)
  {
    && 0 <= a && a + |r| <= |s| && r == s[a..a + |r|]
    && (forall k :: 0 <= k < a ==> IsWhiteSpace(s[k]))
    && (forall k :: a + |r| <= k < |s| ==> IsWhiteSpace(s[k]))
  }

  /**
   * `s` holds two non-white characters at least `n` positions apart, counting
   * both ends: a description of a long enough trimmed string that does not
   * mention trimming.
   */
  ghost predicate SpanAtLeast(s: string, n: nat)
  {
    exists i, j :: 0 <= i <= j < |s| && !IsWhiteSpace(s[i]) && !IsWhiteSpace(s[j]) && j - i + 1 >= n
  }

  /** The verdict of the shape check. */
  datatype Check = Pass | Reject(fault: Fault)

  /**
   * validateCredentials: a missing, empty or blank email, an email without
   * `@`, a missing or empty password, or a password shorter than seven
   * characters once trimmed, is rejected with status 422.
   */
  function ValidateCredentials(email: Option<string>, password: Option<string>): (r: Check)
    ensures r.Reject? ==> r.fault == Fault(422, InvalidCredentialsMessage)
  {
    if || email.None? || email.value == ""
       || |Trim(email.value)| == 0
       || '@' !in email.value
       || password.None? || password.value == ""
       || |Trim(password.value)| < MinPasswordLength
    then Reject(Fault(422, InvalidCredentialsMessage))
    else Pass
  }

  /** The trimmed string is at least `n` long exactly when `s` spans `n` characters between non-white ends. */
  lemma TrimmedLengthAtLeast(s: string, n: nat)
    requires n >= 1
    ensures |Trim(s)| >= n <==> SpanAtLeast(s, n)
  {
  }

  /** A string is blank, its trimmed form empty, exactly when every character is white space. */
  lemma BlankIffAllWhiteSpace(s: string)
    ensures |Trim(s)| == 0 <==> forall k :: 0 <= k < |s| ==> IsWhiteSpace(s[k])
  {
  }

  /**
   * What the check accepts, stated without trimming: the email contains `@`
   * (which already makes it present, non-empty and non-blank), and the
   * password holds at least seven characters between its first and last
   * non-white ones.
   */
  lemma ValidateCredentialsAccepts(email: Option<string>, password: Option<string>)
    ensures ValidateCredentials(email, password).Pass?
        <==> && email.Some? && '@' in email.value
             && password.Some? && SpanAtLeast(password.value, MinPasswordLength)
  {
  }

  /** A seven-character password passes, although the rejection message asks for eight. */
  lemma SevenCharacterPasswordAccepted()
    ensures ValidateCredentials(Some("a@b.com"), Some("abcdefg")) == Pass
  {
  }

  /** Six characters padded with spaces to eight are still too short: the padding is trimmed away. */
  lemma PaddedShortPasswordRejected()
    ensures ValidateCredentials(Some("a@b.com"), Some(" abcdef ")).Reject?
  {
  }
}
