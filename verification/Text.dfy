/** The parts of Go's strings package the sources rely on. */
module Text {

  /** unicode.IsSpace. */
  predicate IsSpace(c: char) {
    || '\t' <= c <= '\r'
    || c == ' '
    || c == '\U{0085}'
    || c == '\U{00A0}'
    || c == '\U{1680}'
    || '\U{2000}' <= c <= '\U{200A}'
    || c == '\U{2028}' || c == '\U{2029}' || c == '\U{202F}' || c == '\U{205F}' || c == '\U{3000}'
  }

  function TrimLeft(s: string, cut: char -> bool): string {
    if s != [] && cut(s[0]) then TrimLeft(s[1..], cut) else s
  }

  function TrimRight(s: string, cut: char -> bool): string {
    if s != [] && cut(s[|s| - 1]) then TrimRight(s[..|s| - 1], cut) else s
  }

  function Trim(s: string, cut: char -> bool): string {
    TrimRight(TrimLeft(s, cut), cut)
  }

  /** What is left of a text trimmed on the left begins with something else. */
  lemma {:induction false} TrimLeftStops(s: string, cut: char -> bool)
    ensures TrimLeft(s, cut) == [] || !cut(TrimLeft(s, cut)[0])
  {
    if s != [] && cut(s[0]) {
      TrimLeftStops(s[1..], cut);
    }
  }

  /** Nothing is cut from a text that begins and ends with something else. */
  lemma TrimNothing(s: string, cut: char -> bool)
    requires s != [] && !cut(s[0]) && !cut(s[|s| - 1])
    ensures Trim(s, cut) == s
  {
  }

  lemma TrimLeading(c: char, s: string, cut: char -> bool)
    requires cut(c)
    ensures Trim([c] + s, cut) == Trim(s, cut)
  {
    assert ([c] + s)[1..] == s;
  }

  lemma TrimTrailing(s: string, c: char, cut: char -> bool)
    requires s != [] && !cut(s[0]) && cut(c)
    ensures Trim(s + [c], cut) == Trim(s, cut)
  {
    var t := s + [c];
    assert t[0] == s[0] && t[..|s|] == s && t[|s|] == c;
    assert TrimLeft(t, cut) == t && TrimLeft(s, cut) == s;
  }

  function TrimSpace(s: string): string {
    Trim(s, IsSpace)
  }

  function TrimPrefix(s: string, prefix: string): string {
    if prefix <= s then s[|prefix|..] else s
  }

  predicate HasSuffix(s: string, suffix: string) {
    |suffix| <= |s| && s[|s| - |suffix|..] == suffix
  }

  function TrimSuffix(s: string, suffix: string): string {
    if HasSuffix(s, suffix) then s[..|s| - |suffix|] else s
  }
}
