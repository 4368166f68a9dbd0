/** Blanks at the ends of a text and joining of texts. */
module Strings {

  /** The blanks of Unicode: what strip() removes and what a regular expression's \s matches. */
  predicate IsSpace(c: char) {
    || c == ' ' || '\U{0009}' <= c <= '\U{000D}' || '\U{001C}' <= c <= '\U{001F}'
    || c == '\U{0085}' || c == '\U{00A0}' || c == '\U{1680}' || '\U{2000}' <= c <= '\U{200A}'
    || c == '\U{2028}' || c == '\U{2029}' || c == '\U{202F}' || c == '\U{205F}' || c == '\U{3000}'
  }

  function StripRight(s: string): (r: string)
    ensures |r| <= |s|
  {
    if s != "" && IsSpace(s[|s| - 1]) then StripRight(s[..|s| - 1]) else s
  }

  function StripLeft(s: string): (r: string)
    ensures |r| <= |s|
  {
    if s != "" && IsSpace(s[0]) then StripLeft(s[1..]) else s
  }

  function Strip(s: string): string {
    StripLeft(StripRight(s))
  }

  function Join(parts: seq<string>, separator: string): string {
    if parts == [] then ""
    else if |parts| == 1 then parts[0]
    else Join(parts[..|parts| - 1], separator) + separator + parts[|parts| - 1]
  }

  predicate AllSpace(s: string) {
    forall i :: 0 <= i < |s| ==> IsSpace(s[i])
  }

  lemma {:induction false} StripRightExactly(s: string) returns (cut: string)
    ensures s == StripRight(s) + cut && AllSpace(cut)
    ensures StripRight(s) != "" ==> !IsSpace(StripRight(s)[|StripRight(s)| - 1])
  {
    if s != "" && IsSpace(s[|s| - 1]) {
      var rest := StripRightExactly(s[..|s| - 1]);
      cut := rest + [s[|s| - 1]];
    } else {
      cut := "";
    }
  }

  lemma {:induction false} StripLeftExactly(s: string) returns (cut: string)
    ensures s == cut + StripLeft(s) && AllSpace(cut)
    ensures StripLeft(s) != "" ==> !IsSpace(StripLeft(s)[0])
  {
    if s != "" && IsSpace(s[0]) {
      var rest := StripLeftExactly(s[1..]);
      cut := [s[0]] + rest;
    } else {
      cut := "";
    }
  }

  /** Stripping takes away blanks at both ends, all of them, and nothing else. */
  lemma StripExactly(s: string) returns (left: string, right: string)
    ensures s == left + Strip(s) + right && AllSpace(left) && AllSpace(right)
    ensures Strip(s) != "" ==> !IsSpace(Strip(s)[0]) && !IsSpace(Strip(s)[|Strip(s)| - 1])
  {
    right := StripRightExactly(s);
    left := StripLeftExactly(StripRight(s));
    if Strip(s) != "" {
      var r := StripRight(s);
      assert Strip(s)[|Strip(s)| - 1] == r[|r| - 1];
    }
  }

  /** A joined text read from its beginning: the first part, a separator, the others joined. */
  lemma {:induction false} JoinFromFront(first: string, rest: seq<string>, separator: string)
    ensures Join([first] + rest, separator) == if rest == [] then first else first + separator + Join(rest, separator)
  {
    var parts := [first] + rest;
    if |rest| > 1 {
      var init, last := rest[..|rest| - 1], rest[|rest| - 1];
      JoinFromFront(first, init, separator);
      assert parts[..|parts| - 1] == [first] + init;
      assert first + separator + Join(init, separator) + separator + last
             == first + separator + (Join(init, separator) + separator + last);
    } else if |rest| == 1 {
      assert parts[..1] == [first];
    } else {
      assert parts == [first];
    }
  }
}
