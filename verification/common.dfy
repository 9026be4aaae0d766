/** Vocabulary shared by the modules of this model: optional request fields and
    the Python truthiness and whitespace tests the handlers apply to them. */
module Common {

  /** A value that may be absent; a request field that was not sent is `None`. */
  datatype Option<+T> = None | Some(value: T)

  /** Python's `bool(field)` for a request field that holds a string or is
      missing: false exactly for a missing field and for the empty string. */
  predicate Truthy(field: Option<string>)
  {
    field.Some? && field.value != ""
  }

  /** The characters for which Python's `str.isspace()` holds, which are the
      ones `str.strip()` removes. */
  predicate IsSpace(c: char)
  {
    || c == ' '
    || '\t' <= c <= '\r'
    || '\U{1C}' <= c <= '\U{1F}'
    || c == '\U{85}'
    || c == '\U{A0}'
    || c == '\U{1680}'
    || '\U{2000}' <= c <= '\U{200A}'
    || c == '\U{2028}'
    || c == '\U{2029}'
    || c == '\U{202F}'
    || c == '\U{205F}'
    || c == '\U{3000}'
  }

  /** `s.strip() == ""` in Python. */
  predicate Blank(s: string)
  {
    forall i :: 0 <= i < |s| ==> IsSpace(s[i])
  }

  /** `part in s` for Python strings. */
  predicate Contains(s: string, part: string)
  {
    exists i :: 0 <= i <= |s| && part <= s[i..]
  }
}
