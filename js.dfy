/** The few JavaScript language and library behaviours the movie page relies on:
    undefined-or-string values, plain objects whose properties hold strings,
    the `||` operator on strings, `String.prototype.split(sep)[0]` for a
    non-empty separator and `String.prototype.trim`. */
module Js {

  /** A value that may be `undefined`. */
  datatype Option<+T> = None | Some(value: T)

  /** A plain object whose properties hold strings. A key mapped to `None` is a
      property that exists and holds `undefined`; a key that is absent also
      reads as `undefined`. */
  type JsObject = map<string, Option<string>>

  /** Property access `o[key]`. */
  function Get(o: JsObject, key: string): Option<string> {
    if key in o then o[key] else None
  }

  /** `v || fallback` for a value that is `undefined` or a string: the empty
      string is falsy, like `undefined`. */
  function Or(v: Option<string>, fallback: string): (r: string)
    ensures r == fallback || v == Some(r)
    ensures r != fallback ==> r != ""
    ensures (v.Some? && v.value != "") <==> (v == Some(r) && r != "")
  {
    match v
    case Some(s) => if s != "" then s else fallback
    case None => fallback
  }

  /** `sep` occurs in `s` starting at index `i`. */
  predicate OccursAt(s: string, sep: string, i: int) {
    0 <= i && i + |sep| <= |s| && s[i..i + |sep|] == sep
  }

  predicate Contains(s: string, sep: string) {
    exists i :: 0 <= i <= |s| && OccursAt(s, sep, i)
  }

  lemma OccursAtTail(s: string, sep: string, i: int)
    requires |s| > 0 && 0 <= i
    ensures OccursAt(s[1..], sep, i) <==> OccursAt(s, sep, i + 1)
  {
    if 0 <= i && i + |sep| <= |s| - 1 {
      assert s[1..][i..i + |sep|] == s[i + 1..i + 1 + |sep|];
    }
  }

  lemma OccursInPrefix(s: string, r: string, sep: string, i: int)
    requires |r| <= |s| && r == s[..|r|]
    requires OccursAt(r, sep, i)
    ensures OccursAt(s, sep, i)
  {
    assert r[i..i + |sep|] == s[i..i + |sep|];
  }

  /** `sep` does not start at a character other than its first one. */
  lemma NotAt(s: string, sep: string, j: int)
    requires sep != "" && 0 <= j < |s| && s[j] != sep[0]
    ensures !OccursAt(s, sep, j)
  {
  }

  /** `sep` cannot occur in a string that lacks its first character. */
  lemma AbsentWithoutFirstChar(s: string, sep: string)
    requires sep != ""
    requires forall i :: 0 <= i < |s| ==> s[i] != sep[0]
    ensures !Contains(s, sep)
  {
    forall i | 0 <= i <= |s| ensures !OccursAt(s, sep, i) {
      if i + |sep| <= |s| {
        assert s[i..i + |sep|][0] == s[i];
      }
    }
  }

  /** The recursive case of `SplitFirst`: the first character of `s` does not
      start an occurrence, so the answer for `s` is that character followed by
      the answer for the rest. */
  lemma SplitFirstStep(s: string, sep: string, rest: string)
    requires sep != "" && |s| >= |sep| && s[..|sep|] != sep
    requires |rest| <= |s| - 1 && rest == s[1..][..|rest|]
    requires forall i :: 0 <= i < |rest| ==> !OccursAt(s[1..], sep, i)
    requires rest == s[1..] || OccursAt(s[1..], sep, |rest|)
    ensures var r := [s[0]] + rest;
      && r == s[..|r|]
      && (forall i :: 0 <= i < |r| ==> !OccursAt(s, sep, i))
      && (r == s || OccursAt(s, sep, |r|))
      && (r == s <==> !Contains(s, sep))
      && !Contains(r, sep)
  {
    var r := [s[0]] + rest;
    assert !OccursAt(s, sep, 0);
    forall i | 0 <= i < |r| ensures !OccursAt(s, sep, i) {
      if i > 0 { OccursAtTail(s, sep, i - 1); }
    }
    OccursAtTail(s, sep, |rest|);
    assert r == s[..|r|];
    if r != s {
      assert OccursAt(s, sep, |r|);
    } else {
      assert forall i :: 0 <= i <= |s| ==> !OccursAt(s, sep, i);
    }
    forall i | OccursAt(r, sep, i) ensures false {
      OccursInPrefix(s, r, sep, i);
    }
  }

  /** `s.split(sep)[0]` for a non-empty separator: the text before the first
      occurrence of `sep`, or all of `s` when `sep` does not occur in it. */
  function SplitFirst(s: string, sep: string): (r: string)
    requires sep != ""
    ensures |r| <= |s| && r == s[..|r|]
    ensures forall i :: 0 <= i < |r| ==> !OccursAt(s, sep, i)
    ensures r == s || OccursAt(s, sep, |r|)
    ensures r == s <==> !Contains(s, sep)
    ensures !Contains(r, sep)
    decreases |s|
  {
    if |s| < |sep| then
      s
    else if s[..|sep|] == sep then
      assert OccursAt(s, sep, 0);
      ""
    else
      var rest := SplitFirst(s[1..], sep);
      SplitFirstStep(s, sep, rest);
      [s[0]] + rest
  }

  /** What a card shows for the language that a detail lookup produced: taking
      the text before the first `", "` and then the text before the first `","`
      is the same as taking the text before the first `","`. */
  lemma {:induction false} SplitFirstCommaAfterCommaSpace(s: string)
    ensures SplitFirst(SplitFirst(s, ", "), ",") == SplitFirst(s, ",")
    decreases |s|
  {
    if |s| < 2 {
    } else if s[..2] == ", " {
      assert s[..1] == ",";
    } else {
      var rest := SplitFirst(s[1..], ", ");
      assert SplitFirst(s, ", ") == [s[0]] + rest;
      if s[0] == ',' {
        assert ([s[0]] + rest)[..1] == ",";
        assert s[..1] == ",";
      } else {
        assert ([s[0]] + rest)[..1] != ",";
        assert ([s[0]] + rest)[1..] == rest;
        assert s[..1] != ",";
        SplitFirstCommaAfterCommaSpace(s[1..]);
      }
    }
  }

  /** The characters `String.prototype.trim` removes: the ECMAScript
      WhiteSpace and LineTerminator code points. */
  predicate IsWhitespace(c: char) {
    c == '\U{0009}' || c == '\U{000B}' || c == '\U{000C}' || c == ' ' || c == '\U{00A0}' ||
    c == '\U{FEFF}' || c == '\U{1680}' || ('\U{2000}' <= c <= '\U{200A}') || c == '\U{202F}' ||
    c == '\U{205F}' || c == '\U{3000}' ||
    c == '\U{000A}' || c == '\U{000D}' || c == '\U{2028}' || c == '\U{2029}'
  }

  /** `s` with its leading whitespace removed. */
  function TrimStart(s: string): (r: string)
    ensures |r| <= |s| && r == s[|s| - |r|..]
    ensures forall i :: 0 <= i < |s| - |r| ==> IsWhitespace(s[i])
    ensures r == "" || !IsWhitespace(r[0])
    decreases |s|
  {
    if s != "" && IsWhitespace(s[0]) then
      var r := TrimStart(s[1..]);
      assert s[1..][|s| - 1 - |r|..] == s[|s| - |r|..];
      r
    else
      s
  }

  /** `s` with its trailing whitespace removed. */
  function TrimEnd(s: string): (r: string)
    ensures |r| <= |s| && r == s[..|r|]
    ensures forall i :: |r| <= i < |s| ==> IsWhitespace(s[i])
    ensures r == "" || !IsWhitespace(r[|r| - 1])
    decreases |s|
  {
    if s != "" && IsWhitespace(s[|s| - 1]) then
      var r := TrimEnd(s[..|s| - 1]);
      assert forall i :: 0 <= i < |s| - 1 ==> s[..|s| - 1][i] == s[i];
      r
    else
      s
  }

  lemma PrefixOfSuffix(s: string, k: nat, m: nat)
    requires k + m <= |s|
    ensures s[k..][..m] == s[k..k + m]
  {
  }

  /** `s.trim()`: `s` without its leading and its trailing whitespace. */
  function Trim(s: string): (r: string)
    ensures |r| <= |s|
    ensures r == "" || (!IsWhitespace(r[0]) && !IsWhitespace(r[|r| - 1]))
  {
    TrimEnd(TrimStart(s))
  }

  /** What `TrimEnd` drops from the suffix of `s` after `k` is whitespace in
      `s` itself. */
  lemma WhitespaceAfter(s: string, k: nat, m: nat)
    requires k <= |s| && m == |TrimEnd(s[k..])|
    ensures forall i :: k + m <= i < |s| ==> IsWhitespace(s[i])
  {
    var t := s[k..];
    forall i | k + m <= i < |s| ensures IsWhitespace(s[i]) {
      assert IsWhitespace(t[i - k]);
    }
  }

  /** `s.trim()` is a stretch of `s` with only whitespace before and after it. */
  lemma TrimIsInner(s: string)
    ensures var k := |s| - |TrimStart(s)|;
      && OccursAt(s, Trim(s), k)
      && (forall i :: 0 <= i < k ==> IsWhitespace(s[i]))
      && (forall i :: k + |Trim(s)| <= i < |s| ==> IsWhitespace(s[i]))
  {
    var t := TrimStart(s);
    var r := TrimEnd(t);
    var k := |s| - |t|;
    assert Trim(s) == r && t == s[k..] && r == t[..|r|];
    PrefixOfSuffix(s, k, |r|);
    assert OccursAt(s, r, k);
    WhitespaceAfter(s, k, |r|);
  }

  /** `s.trim()` is empty exactly when every character of `s` is whitespace. */
  lemma TrimEmptyIff(s: string)
    ensures Trim(s) == "" <==> forall i :: 0 <= i < |s| ==> IsWhitespace(s[i])
  {
    var t := TrimStart(s);
    assert Trim(s) == TrimEnd(t);
    if t != "" {
      assert !IsWhitespace(t[0]);
      assert TrimEnd(t) != "";
    }
  }
}
