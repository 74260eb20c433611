/** The two string operations of the browser script that reads zone IDs:
    `String.prototype.trim` and `String.prototype.split` with a one-character
    separator. */
module Text {

  /** ECMAScript WhiteSpace and LineTerminator code points, the set `trim`
      removes: tab, line feed, vertical tab, form feed, carriage return, the
      space separators of category Zs, the line and paragraph separators and
      the byte order mark. */
  predicate IsWhitespace(c: char) {
    c == '\t' || c == '\n' || c == '\U{B}' || c == '\U{C}' || c == '\r'
    || c == ' ' || c == '\U{A0}' || c == '\U{1680}'
    || ('\U{2000}' <= c <= '\U{200A}')
    || c == '\U{2028}' || c == '\U{2029}' || c == '\U{202F}' || c == '\U{205F}'
    || c == '\U{3000}' || c == '\U{FEFF}'
  }

  /** A string with no whitespace at either end. */
  predicate Trimmed(s: string) {
    s == [] || (!IsWhitespace(s[0]) && !IsWhitespace(s[|s| - 1]))
  }

  /** Removes leading whitespace: the result is a suffix of `s`, and what was
      dropped is all whitespace. */
  function TrimStart(s: string): (r: string)
    ensures |r| <= |s| && r == s[|s| - |r|..]
    ensures r == [] || !IsWhitespace(r[0])
    ensures forall k :: 0 <= k < |s| - |r| ==> IsWhitespace(s[k])
  {
    if s != [] && IsWhitespace(s[0]) then TrimStart(s[1..]) else s
  }

  /** Removes trailing whitespace: the result is a prefix of `s`, and what was
      dropped is all whitespace. */
  function TrimEnd(s: string): (r: string)
    ensures |r| <= |s| && r == s[..|r|]
    ensures r == [] || !IsWhitespace(r[|r| - 1])
    ensures forall k :: |r| <= k < |s| ==> IsWhitespace(s[k])
  {
    if s != [] && IsWhitespace(s[|s| - 1]) then TrimEnd(s[..|s| - 1]) else s
  }

  /** `s.trim()`: the infix of `s` left once its leading and trailing
      whitespace is removed; what remains has no whitespace at either end. */
  function Trim(s: string): (r: string)
    ensures Trimmed(r)
    ensures |r| <= |s|
    ensures exists i, j :: (0 <= i <= j <= |s| && r == s[i..j]
                            && (forall k :: 0 <= k < i ==> IsWhitespace(s[k]))
                            && (forall k :: j <= k < |s| ==> IsWhitespace(s[k])))
  {
    var t := TrimStart(s);
    var r := TrimEnd(t);
    StripsLeaveInfix(s, t, r);
    r
  }

  /** Removing a whitespace prefix and then a whitespace suffix leaves an
      infix with whitespace on either side. */
  lemma StripsLeaveInfix(s: string, t: string, r: string)
    requires |t| <= |s| && t == s[|s| - |t|..]
    requires forall k :: 0 <= k < |s| - |t| ==> IsWhitespace(s[k])
    requires |r| <= |t| && r == t[..|r|]
    requires forall k :: |r| <= k < |t| ==> IsWhitespace(t[k])
    ensures exists i, j :: (0 <= i <= j <= |s| && r == s[i..j]
                            && (forall k :: 0 <= k < i ==> IsWhitespace(s[k]))
                            && (forall k :: j <= k < |s| ==> IsWhitespace(s[k])))
  {
    var i := |s| - |t|;
    var j := i + |r|;
    assert r == s[i..j];
    forall k | j <= k < |s|
      ensures IsWhitespace(s[k])
    {
      assert s[k] == t[k - i];
    }
  }

  /** Trimming keeps exactly the characters between the first and the last
      non-whitespace character: it yields nothing precisely when `s` is all
      whitespace, and it never introduces a character `s` lacks. */
  lemma TrimKeepsContent(s: string)
    ensures forall c :: c in Trim(s) ==> c in s
    ensures Trim(s) == [] <==> forall k :: 0 <= k < |s| ==> IsWhitespace(s[k])
  {
  }

  /** `s.split(sep)`: the pieces between occurrences of `sep`; there is always
      at least one piece and no piece contains `sep`. */
  function Split(s: string, sep: char): (parts: seq<string>)
    ensures |parts| >= 1
    ensures forall k :: 0 <= k < |parts| ==> sep !in parts[k]
  {
    if s == [] then [""]
    else
      var rest := Split(s[1..], sep);
      if s[0] == sep then [""] + rest else [[s[0]] + rest[0]] + rest[1..]
  }

  /** `parts.join(sep)`. */
  function Join(parts: seq<string>, sep: char): string
    requires |parts| >= 1
  {
    if |parts| == 1 then parts[0] else parts[0] + [sep] + Join(parts[1..], sep)
  }

  /** Splitting loses nothing: joining the pieces with the separator gives
      back the original text. */
  lemma {:induction false} JoinSplit(s: string, sep: char)
    ensures Join(Split(s, sep), sep) == s
  {
    if s != [] {
      var rest := Split(s[1..], sep);
      JoinSplit(s[1..], sep);
      if s[0] == sep {
        assert Split(s, sep)[1..] == rest;
      } else {
        var parts := Split(s, sep);
        if |rest| == 1 {
          assert parts == [[s[0]] + rest[0]];
        } else {
          assert parts[1..] == rest[1..];
          assert Join(rest, sep) == rest[0] + [sep] + Join(rest[1..], sep);
        }
      }
    }
  }
}
