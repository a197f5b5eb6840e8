/**
 * Text fields of the serializers trim their input: the blank test, the
 * length rules and the stored value all see the text with leading and
 * trailing whitespace removed, as Python's `str.strip()` removes it.
 */
module TextFields {
  import opened Options

  /** The characters `str.strip()` removes: Python's whitespace characters. */
  const Whitespace: set<char> := {
    '\t', '\n', '\U{0B}', '\U{0C}', '\r', '\U{1C}', '\U{1D}', '\U{1E}', '\U{1F}', ' ',
    '\U{85}', '\U{A0}', '\U{1680}',
    '\U{2000}', '\U{2001}', '\U{2002}', '\U{2003}', '\U{2004}', '\U{2005}',
    '\U{2006}', '\U{2007}', '\U{2008}', '\U{2009}', '\U{200A}',
    '\U{2028}', '\U{2029}', '\U{202F}', '\U{205F}', '\U{3000}'}

  predicate IsSpace(c: char)
  {
    c in Whitespace
  }

  /**
   * `str.strip()`: the text with the whitespace at both ends removed. The
   * result starts and ends with a non-space, and a text with no whitespace
   * at either end is kept as it is.
   */
  function Strip(s: string): (r: string)
    ensures |r| <= |s|
    ensures r != [] ==> !IsSpace(r[0]) && !IsSpace(r[|r| - 1])
    ensures s == [] || (!IsSpace(s[0]) && !IsSpace(s[|s| - 1])) ==> r == s
    decreases |s|
  {
    if s != [] && IsSpace(s[0]) then Strip(s[1..])
    else if s != [] && IsSpace(s[|s| - 1]) then Strip(s[..|s| - 1])
    else s
  }

  /** Trimming leaves nothing exactly when the text is all whitespace. */
  lemma {:induction false} StripBlank(s: string)
    ensures Strip(s) == [] <==> forall i :: 0 <= i < |s| ==> IsSpace(s[i])
    decreases |s|
  {
    if s != [] && IsSpace(s[0]) {
      StripBlank(s[1..]);
      assert forall i :: 1 <= i < |s| ==> s[i] == s[1..][i - 1];
    } else if s != [] && IsSpace(s[|s| - 1]) {
      StripBlank(s[..|s| - 1]);
      assert forall i :: 0 <= i < |s| - 1 ==> s[i] == s[..|s| - 1][i];
    }
  }

  /** An optional text field, trimmed when present. */
  function StripOpt(s: Option<string>): (r: Option<string>)
    ensures r.Some? <==> s.Some?
    ensures r.Some? ==> r.value == Strip(s.value)
  {
    match s
    case None => None
    case Some(t) => Some(Strip(t))
  }

  /** Trimming twice is trimming once. */
  lemma StripIdempotent(s: string)
    ensures Strip(Strip(s)) == Strip(s)
  {
  }

  /** A password of seven letters and one trailing space trims to seven characters. */
  lemma StripTrailingSpace()
    ensures Strip("abcdefg ") == "abcdefg"
  {
    var s := "abcdefg ";
    assert !IsSpace(s[0]) && IsSpace(s[7]);
    assert s[..7] == "abcdefg";
    assert !IsSpace("abcdefg"[0]) && !IsSpace("abcdefg"[6]);
  }

  /** A text of blanks only trims to the empty text. */
  lemma StripBlanks()
    ensures Strip("   ") == ""
  {
    StripBlank("   ");
  }
}
