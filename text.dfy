/** String operations the core borrows from JavaScript: `toLowerCase`,
    `includes` and the blank test `!s.trim()`. */
module Text {

  /** Lower-cases one character. Only the ASCII letters are mapped; every
      other character is kept as it is. */
  function LowerChar(c: char): char {
    if 'A' <= c <= 'Z' then (c as int + 32) as char else c
  }

  /** `s.toLowerCase()`, restricted to ASCII letters. */
  function Lower(s: string): (r: string)
    ensures |r| == |s|
  {
    if s == [] then [] else [LowerChar(s[0])] + Lower(s[1..])
  }

  /** Lower-casing works character by character. */
  lemma {:induction false} LowerAt(s: string)
    ensures forall i :: 0 <= i < |s| ==> Lower(s)[i] == LowerChar(s[i])
  {
    if s != [] {
      LowerAt(s[1..]);
    }
  }

  /** A string without upper-case ASCII letters is its own lower case. */
  lemma LowerUnchanged(s: string)
    requires forall i :: 0 <= i < |s| ==> !('A' <= s[i] <= 'Z')
    ensures Lower(s) == s
  {
    LowerAt(s);
  }

  /** Lower-casing commutes with concatenation. */
  lemma LowerAppend(a: string, b: string)
    ensures Lower(a + b) == Lower(a) + Lower(b)
  {
    LowerAt(a);
    LowerAt(b);
    LowerAt(a + b);
    assert forall i :: 0 <= i < |a + b| ==> Lower(a + b)[i] == (Lower(a) + Lower(b))[i];
  }

  /** `needle` sits in `hay` starting at index `i`. */
  predicate OccursAt(hay: string, needle: string, i: int) {
    0 <= i && i + |needle| <= |hay| && hay[i..i + |needle|] == needle
  }

  /** `hay.includes(needle)`: a search from the left, where the empty needle
      occurs everywhere. `IncludesSpec` says what it computes. */
  function Includes(hay: string, needle: string): (b: bool)
    ensures needle == [] ==> b
    ensures b ==> |needle| <= |hay|
    decreases |hay|
  {
    if |needle| > |hay| then false
    else if needle <= hay then true
    else Includes(hay[1..], needle)
  }

  /** `Includes` holds exactly when the needle occurs somewhere in the hay. */
  lemma {:induction false} IncludesSpec(hay: string, needle: string)
    ensures Includes(hay, needle) <==> exists i :: OccursAt(hay, needle, i)
    decreases |hay|
  {
    if |needle| > |hay| {
    } else if needle <= hay {
      assert OccursAt(hay, needle, 0);
    } else {
      IncludesSpec(hay[1..], needle);
      if Includes(hay, needle) {
        var i :| OccursAt(hay[1..], needle, i);
        assert hay[1..][i..i + |needle|] == hay[i + 1..i + 1 + |needle|];
        assert OccursAt(hay, needle, i + 1);
      }
      if exists i :: OccursAt(hay, needle, i) {
        var i :| OccursAt(hay, needle, i);
        assert i != 0;
        assert hay[1..][i - 1..i - 1 + |needle|] == hay[i..i + |needle|];
        assert OccursAt(hay[1..], needle, i - 1);
      }
    }
  }

  /** A needle found in `a` is found in any string that contains `a`. */
  lemma IncludesWithin(pre: string, a: string, post: string, needle: string)
    requires Includes(a, needle)
    ensures Includes(pre + a + post, needle)
  {
    IncludesSpec(a, needle);
    IncludesSpec(pre + a + post, needle);
    var i :| OccursAt(a, needle, i);
    var w := pre + a + post;
    assert w[|pre| + i..|pre| + i + |needle|] == a[i..i + |needle|];
    assert OccursAt(w, needle, |pre| + i);
  }

  /** The characters `String.prototype.trim` removes: ECMAScript's
      WhiteSpace (tab, vertical tab, form feed, space, no-break space, the
      byte order mark and the Unicode space separators) and LineTerminator. */
  predicate IsJsWhitespace(c: char) {
    c == '\t' || c == '\U{B}' || c == '\U{C}' || c == ' ' || c == '\U{A0}' || c == '\U{FEFF}'
    || c == '\n' || c == '\r' || c == '\U{2028}' || c == '\U{2029}'
    || c == '\U{1680}' || ('\U{2000}' <= c <= '\U{200A}')
    || c == '\U{202F}' || c == '\U{205F}' || c == '\U{3000}'
  }

  /** `s.trim()`: the string without its leading and trailing whitespace. */
  function Trim(s: string): (t: string)
    ensures |t| <= |s|
    ensures t == [] <==> forall i :: 0 <= i < |s| ==> IsJsWhitespace(s[i])
    ensures t != [] ==> !IsJsWhitespace(t[0]) && !IsJsWhitespace(t[|t| - 1])
    decreases |s|
  {
    if s == [] then s
    else if IsJsWhitespace(s[0]) then
      assert forall i :: 1 <= i < |s| ==> s[i] == s[1..][i - 1];
      Trim(s[1..])
    else if IsJsWhitespace(s[|s| - 1]) then
      assert s[0] == s[..|s| - 1][0];
      Trim(s[..|s| - 1])
    else s
  }

  /** Every character of `w` is whitespace. */
  predicate AllWhitespace(w: string) {
    forall k :: 0 <= k < |w| ==> IsJsWhitespace(w[k])
  }

  /** Whitespace followed by whitespace is whitespace. */
  lemma AllWhitespaceAppend(a: string, b: string)
    requires AllWhitespace(a) && AllWhitespace(b)
    ensures AllWhitespace(a + b)
  {
    assert forall k :: |a| <= k < |a + b| ==> (a + b)[k] == b[k - |a|];
  }

  /** Regrouping the parts around `t`. */
  lemma Regroup(x: string, a: string, t: string, b: string, y: string)
    ensures x + (a + t + b) + y == (x + a) + t + (b + y)
  {
  }

  /** Where `Trim` changes its input, it drops one whitespace character
      from one end and goes on with the rest. */
  lemma TrimStep(s: string) returns (front: string, rest: string, back: string)
    requires Trim(s) != s
    ensures s == front + rest + back && |rest| < |s|
    ensures AllWhitespace(front) && AllWhitespace(back)
    ensures Trim(s) == Trim(rest)
  {
    if IsJsWhitespace(s[0]) {
      front, rest, back := [s[0]], s[1..], [];
    } else {
      front, rest, back := [], s[..|s| - 1], [s[|s| - 1]];
    }
  }

  /** What `Trim` removes: `s` is the trimmed text with whitespace `lead`
      before it and whitespace `trail` after it. */
  lemma {:induction false} TrimSpec(s: string) returns (lead: string, trail: string)
    ensures s == lead + Trim(s) + trail
    ensures AllWhitespace(lead) && AllWhitespace(trail)
    decreases |s|
  {
    var t := Trim(s);
    if t == s {
      return [], [];
    }
    var front, rest, back := TrimStep(s);
    var a, b := TrimSpec(rest);
    lead, trail := front + a, b + back;
    AllWhitespaceAppend(front, a);
    AllWhitespaceAppend(b, back);
    Regroup(front, a, t, b, back);
  }

  /** `!s.trim()`: the input is blank exactly when every character of it is
      whitespace, the empty input included. */
  predicate IsBlank(s: string)
    ensures IsBlank(s) <==> forall i :: 0 <= i < |s| ==> IsJsWhitespace(s[i])
  {
    Trim(s) == []
  }
}
