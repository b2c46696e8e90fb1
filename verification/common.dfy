/** Shared vocabulary of the model: identifiers, optional values, the
    error-carrying results that stand for Java exceptions, the generic
    service response, and the few string predicates the validators use. */
module Common {

  /** A UUID or database key. Fresh values are handed in by the caller. */
  type Uuid = nat

  /** A LocalDate, counted in days. */
  type Day = int

  /** A LocalDateTime, counted in ticks. */
  type Instant = int

  /** A Java reference that may be null. */
  datatype Option<T> = None | Some(value: T)

  /** A void Java method that either returns or throws `error`. */
  datatype Outcome<E> = Pass | Fail(error: E)

  /** A Java method that either returns `value` or throws `error`. */
  datatype Result<T, E> = Ok(value: T) | Err(error: E)

  /** GenericResponse: a success flag, a message and optional data. */
  datatype Response<T> = Response(success: bool, message: string, data: Option<T>)

  /** Character.isWhitespace: the space, line and paragraph separators other
      than the non-breaking ones, and the ASCII controls TAB to CR and FS to US. */
  predicate IsWhitespace(c: char)
  {
    c == ' ' || ('\t' <= c <= '\r') || ('\U{1C}' <= c <= '\U{1F}')
    || c == '\U{1680}' || ('\U{2000}' <= c <= '\U{2006}') || ('\U{2008}' <= c <= '\U{200A}')
    || c == '\U{2028}' || c == '\U{2029}' || c == '\U{205F}' || c == '\U{3000}'
  }

  /** String.isBlank: empty or whitespace only. */
  predicate IsBlank(s: string)
  {
    forall i :: 0 <= i < |s| ==> IsWhitespace(s[i])
  }

  /** `s == null || s.isBlank()` */
  predicate NullOrBlank(s: Option<string>)
  {
    s.None? || IsBlank(s.value)
  }

  /** `s.trim().isEmpty()`: trim removes every character up to U+0020. */
  predicate TrimsToEmpty(s: string)
  {
    forall i :: 0 <= i < |s| ==> s[i] <= ' '
  }

  function LowerChar(c: char): char
  {
    if 'A' <= c <= 'Z' then (c as int + 32) as char else c
  }

  function UpperChar(c: char): char
  {
    if 'a' <= c <= 'z' then (c as int - 32) as char else c
  }

  /** String.toLowerCase, on the ASCII letters. */
  function Lower(s: string): string
  {
    seq(|s|, i requires 0 <= i < |s| => LowerChar(s[i]))
  }

  /** String.toUpperCase, on the ASCII letters. */
  function Upper(s: string): string
  {
    seq(|s|, i requires 0 <= i < |s| => UpperChar(s[i]))
  }

  /** String.contains */
  predicate ContainsSubstring(s: string, sub: string)
  {
    |sub| <= |s| && (s[..|sub|] == sub || (|s| > 0 && ContainsSubstring(s[1..], sub)))
  }
}
