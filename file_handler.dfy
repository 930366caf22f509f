/**
 * `read_from_file` of ServerDir/FileHandler.py. The file system is abstracted:
 * the input is the text `file.read()` returns, or None when opening or reading
 * fails (missing file or any other exception).
 */
module FileHandler {
  import opened Wrappers

  /** `s.replace(c, "")`. */
  function RemoveAll(s: string, c: char): (r: string)
    ensures c !in r
    ensures |r| <= |s|
    ensures forall d | d in r :: d in s
    ensures forall d | d != c :: multiset(r)[d] == multiset(s)[d]
  {
    if s == [] then []
    else
      var rest := RemoveAll(s[1..], c);
      assert s == [s[0]] + s[1..];
      if s[0] == c then rest else [s[0]] + rest
  }

  /** Removing a character distributes over concatenation, so the kept characters stay in order. */
  lemma {:induction false} RemoveAllAppend(a: string, b: string, c: char)
    ensures RemoveAll(a + b, c) == RemoveAll(a, c) + RemoveAll(b, c)
  {
    if a == [] {
      assert a + b == b;
    } else {
      assert (a + b)[0] == a[0] && (a + b)[1..] == a[1..] + b;
      RemoveAllAppend(a[1..], b, c);
    }
  }

  /** Text without `c` is left unchanged. */
  lemma {:induction false} RemoveAllAbsent(s: string, c: char)
    requires c !in s
    ensures RemoveAll(s, c) == s
  {
    if s != [] {
      RemoveAllAbsent(s[1..], c);
    }
  }

  /** The normalisation `content.replace(" ", "").replace("\n", "")`. */
  function StripBlanks(s: string): (r: string)
    ensures ' ' !in r && '\n' !in r
    ensures forall d | d in r :: d in s
    ensures forall d | d != ' ' && d != '\n' :: multiset(r)[d] == multiset(s)[d]
  {
    RemoveAll(RemoveAll(s, ' '), '\n')
  }

  /** Stripping works piecewise: every kept character keeps its place relative to the others. */
  lemma StripBlanksAppend(a: string, b: string)
    ensures StripBlanks(a + b) == StripBlanks(a) + StripBlanks(b)
  {
    RemoveAllAppend(a, b, ' ');
    RemoveAllAppend(RemoveAll(a, ' '), RemoveAll(b, ' '), '\n');
  }

  /** Text with no space and no newline is kept verbatim, `'\t'` and `'\r'` included. */
  lemma StripBlanksKeeps(s: string)
    requires ' ' !in s && '\n' !in s
    ensures StripBlanks(s) == s
  {
    RemoveAllAbsent(s, ' ');
    RemoveAllAbsent(s, '\n');
  }

  /**
   * `read_from_file`: None when the file cannot be read or is blank after
   * stripping (the `ValueError` the function raises and catches itself),
   * otherwise the stripped text.
   */
  function ReadFromFile(file: Option<string>): (content: Option<string>)
    ensures file.None? ==> content.None?
    ensures file.Some? && StripBlanks(file.value) != [] ==> content == Some(StripBlanks(file.value))
    ensures content.Some? ==> content.value != [] && ' ' !in content.value && '\n' !in content.value
    ensures file.Some? && (forall d | d in file.value :: d == ' ' || d == '\n') ==> content.None?
    ensures file.Some? && content.Some? ==>
              forall d | d != ' ' && d != '\n' :: multiset(content.value)[d] == multiset(file.value)[d]
  {
    match file
    case None => None
    case Some(text) =>
      var stripped := StripBlanks(text);
      assert stripped != [] ==> stripped[0] in stripped;
      if stripped == [] then None else Some(stripped)
  }
}
