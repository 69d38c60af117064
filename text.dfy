/**
 * The JavaScript string rules the components rely on: the `\s` character
 * class (which is also what `String.prototype.trim` strips), `trim`,
 * `replace(/\s+/g, '_')`, `replace(/[^a-zA-Z0-9_]/g, '')`, `toLowerCase`
 * and `includes`.
 */
module Text {
  import Seqs

  /** A character of the `\s` class: the ECMAScript WhiteSpace and LineTerminator characters. */
  predicate IsSpace(c: char) {
    c == '\t' || c == '\n' || c == '\U{000B}' || c == '\U{000C}' || c == '\r' || c == ' '
    || c == '\U{00A0}' || c == '\U{1680}' || ('\U{2000}' <= c <= '\U{200A}')
    || c == '\U{2028}' || c == '\U{2029}' || c == '\U{202F}' || c == '\U{205F}'
    || c == '\U{3000}' || c == '\U{FEFF}'
  }

  /** A character of the class `[a-zA-Z0-9_]`. */
  predicate IsWordChar(c: char) {
    ('a' <= c <= 'z') || ('A' <= c <= 'Z') || ('0' <= c <= '9') || c == '_'
  }

  predicate AllSpace(s: string) {
    forall i :: 0 <= i < |s| ==> IsSpace(s[i])
  }

  predicate NoSpace(s: string) {
    forall i :: 0 <= i < |s| ==> !IsSpace(s[i])
  }

  /** `s` with its leading whitespace removed. */
  function TrimStart(s: string): (r: string)
    ensures |r| <= |s| && r == s[|s| - |r|..]
    ensures AllSpace(s[..|s| - |r|])
    ensures r == [] || !IsSpace(r[0])
    decreases s
  {
    if s != [] && IsSpace(s[0]) then TrimStart(s[1..]) else s
  }

  /** `s` with its trailing whitespace removed. */
  function TrimEnd(s: string): (r: string)
    ensures |r| <= |s| && r == s[..|r|]
    ensures AllSpace(s[|r|..])
    ensures r == [] || !IsSpace(r[|r| - 1])
    decreases s
  {
    if s != [] && IsSpace(s[|s| - 1]) then TrimEnd(s[..|s| - 1]) else s
  }

  /**
   * `s.trim()`: the slice of `s` left once its leading and trailing whitespace
   * is cut away. It is empty exactly when `s` is made of whitespace only.
   */
  function Trim(s: string): (r: string)
    ensures exists a, b :: 0 <= a <= b <= |s| && r == s[a..b] && AllSpace(s[..a]) && AllSpace(s[b..])
    ensures r == [] <==> AllSpace(s)
    ensures r == [] || (!IsSpace(r[0]) && !IsSpace(r[|r| - 1]))
  {
    var t := TrimStart(s);
    var r := TrimEnd(t);
    TrimSlices(s, |s| - |t|, t, r);
    r
  }

  /** The trimmed string is the slice between the leading and the trailing whitespace. */
  lemma TrimSlices(s: string, a: int, t: string, r: string)
    requires 0 <= a <= |s| && t == s[a..] && AllSpace(s[..a])
    requires |r| <= |t| && r == t[..|r|] && AllSpace(t[|r|..])
    requires r == [] || !IsSpace(r[0])
    ensures a + |r| <= |s| && r == s[a..a + |r|] && AllSpace(s[a + |r|..])
    ensures r == [] <==> AllSpace(s)
  {
    assert s[a + |r|..] == t[|r|..];
    if r == [] {
      assert s == s[..a] + t;
    } else {
      assert s[a] == r[0];
    }
  }

  /** `s.replace(/\s+/g, '_')`: every maximal run of whitespace becomes one underscore. */
  function ReplaceSpaceRuns(s: string): (r: string)
    ensures NoSpace(r)
    ensures |r| <= |s|
    ensures NoSpace(s) ==> r == s
    decreases |s|
  {
    if s == [] then []
    else if IsSpace(s[0]) then "_" + ReplaceSpaceRuns(TrimStart(s))
    else [s[0]] + ReplaceSpaceRuns(s[1..])
  }

  /** A whitespace run followed by a non-space (or by nothing) is cut away whole by `TrimStart`. */
  lemma {:induction false} TrimStartRun(w: string, b: string)
    requires AllSpace(w)
    requires b == [] || !IsSpace(b[0])
    ensures TrimStart(w + b) == b
    decreases w
  {
    if w == [] {
      assert w + b == b;
    } else {
      assert (w + b)[1..] == w[1..] + b;
      TrimStartRun(w[1..], b);
    }
  }

  /** A non-space character in front is copied through as it is. */
  lemma ReplaceSpaceRunsCons(c: char, rest: string)
    requires !IsSpace(c)
    ensures ReplaceSpaceRuns([c] + rest) == [c] + ReplaceSpaceRuns(rest)
  {
    assert ([c] + rest)[1..] == rest;
  }

  /** Characters outside a whitespace run are copied through unchanged and in order. */
  lemma {:induction false} ReplaceSpaceRunsKeepsPlain(a: string, b: string)
    requires NoSpace(a)
    ensures ReplaceSpaceRuns(a + b) == a + ReplaceSpaceRuns(b)
    decreases a
  {
    if a == [] {
      assert a + b == b;
    } else {
      var c, tail := a[0], a[1..];
      assert NoSpace(tail);
      ReplaceSpaceRunsKeepsPlain(tail, b);
      KeepsPlainStep(c, tail, b);
      SplitFirst(a, c, tail, b, ReplaceSpaceRuns(b));
    }
  }

  /** Re-associating a string split after its first character, in front of two tails. */
  lemma SplitFirst(a: string, c: char, tail: string, x: string, y: string)
    requires a == [c] + tail
    ensures a + x == [c] + (tail + x) && a + y == [c] + (tail + y)
  {
  }

  /** One step of the induction above, kept apart from the quantified hypothesis. */
  lemma KeepsPlainStep(c: char, tail: string, b: string)
    requires !IsSpace(c)
    requires ReplaceSpaceRuns(tail + b) == tail + ReplaceSpaceRuns(b)
    ensures ReplaceSpaceRuns([c] + (tail + b)) == [c] + (tail + ReplaceSpaceRuns(b))
  {
    ReplaceSpaceRunsCons(c, tail + b);
  }

  /** A maximal run of whitespace, however long, becomes exactly one underscore. */
  lemma {:induction false} ReplaceSpaceRunsCollapsesRun(w: string, b: string)
    requires w != [] && AllSpace(w)
    requires b == [] || !IsSpace(b[0])
    ensures ReplaceSpaceRuns(w + b) == "_" + ReplaceSpaceRuns(b)
  {
    TrimStartRun(w, b);
  }

  /** The characters of the replacement: the non-space characters of `s`, plus `_` exactly when `s` has whitespace. */
  lemma {:induction false} ReplaceSpaceRunsContents(s: string)
    ensures forall c :: c in ReplaceSpaceRuns(s) <==> (c in s && !IsSpace(c)) || (c == '_' && !NoSpace(s))
    decreases |s|
  {
    if s == [] {
    } else if IsSpace(s[0]) {
      var t := TrimStart(s);
      var k := |s| - |t|;
      ReplaceSpaceRunsContents(t);
      assert s == s[..k] + t;
      assert forall c :: c in s && !IsSpace(c) ==> c in t by {
        forall c | c in s && !IsSpace(c) ensures c in t {
          var i :| 0 <= i < |s| && s[i] == c;
          assert i >= k;
          assert t[i - k] == c;
        }
      }
    } else {
      ReplaceSpaceRunsContents(s[1..]);
      assert s == [s[0]] + s[1..];
      assert !NoSpace(s) <==> !NoSpace(s[1..]) by {
        if !NoSpace(s) {
          var i :| 0 <= i < |s| && IsSpace(s[i]);
          assert s[1..][i - 1] == s[i];
        }
      }
    }
  }

  /** `s.replace(/[^a-zA-Z0-9_]/g, '')`: the characters of `[A-Za-z0-9_]` of `s`, in order. */
  function KeepWordChars(s: string): (r: string)
    ensures forall i :: 0 <= i < |r| ==> IsWordChar(r[i])
  {
    Seqs.Keep(s, IsWordChar)
  }

  /** What the filter keeps: exactly the characters of `s` in `[A-Za-z0-9_]`. */
  lemma KeepWordCharsContents(s: string)
    ensures forall c :: c in KeepWordChars(s) <==> c in s && IsWordChar(c)
  {
    Seqs.KeepContents(s, IsWordChar);
  }

  /** A string made of `[A-Za-z0-9_]` characters only passes the filter unchanged. */
  lemma WordCharsKept(s: string)
    requires forall i :: 0 <= i < |s| ==> IsWordChar(s[i])
    ensures KeepWordChars(s) == s
  {
    Seqs.KeepAll(s, IsWordChar);
  }

  /** One character survives the filter exactly when it is in `[A-Za-z0-9_]`. */
  lemma KeepWordCharsSingle(c: char)
    ensures KeepWordChars([c]) == if IsWordChar(c) then [c] else []
  {
    assert [c][1..] == [];
  }

  /** The filter works character by character: it distributes over concatenation. */
  lemma {:induction false} KeepWordCharsAppend(a: string, b: string)
    ensures KeepWordChars(a + b) == KeepWordChars(a) + KeepWordChars(b)
  {
    Seqs.KeepAppend(a, b, IsWordChar);
  }

  /**
   * The storage-key sanitiser: whitespace runs to `_`, then every character
   * outside `[A-Za-z0-9_]` dropped. What is left is the word characters of the
   * name, plus `_` when the name has whitespace.
   */
  function SanitizeName(name: string): (r: string)
    ensures forall i :: 0 <= i < |r| ==> IsWordChar(r[i])
    ensures forall c :: c in r <==> (c in name && IsWordChar(c)) || (c == '_' && !NoSpace(name))
    ensures |r| <= |name|
  {
    ReplaceSpaceRunsContents(name);
    KeepWordCharsContents(ReplaceSpaceRuns(name));
    KeepWordChars(ReplaceSpaceRuns(name))
  }

  /** A stretch without whitespace is sanitised by the word-character filter alone. */
  lemma {:induction false} SanitizePlain(a: string, b: string)
    requires NoSpace(a)
    ensures SanitizeName(a + b) == KeepWordChars(a) + SanitizeName(b)
  {
    ReplaceSpaceRunsKeepsPlain(a, b);
    KeepWordCharsAppend(a, ReplaceSpaceRuns(b));
  }

  /** A whitespace run in the name becomes one `_` in the sanitised name. */
  lemma {:induction false} SanitizeRun(w: string, b: string)
    requires w != [] && AllSpace(w)
    requires b == [] || !IsSpace(b[0])
    ensures SanitizeName(w + b) == "_" + SanitizeName(b)
  {
    ReplaceSpaceRunsCollapsesRun(w, b);
    KeepWordCharsAppend("_", ReplaceSpaceRuns(b));
    KeepWordCharsSingle('_');
  }

  /** Sanitising an already sanitised name changes nothing. */
  lemma SanitizeIdempotent(name: string)
    ensures SanitizeName(SanitizeName(name)) == SanitizeName(name)
  {
    var s := SanitizeName(name);
    assert NoSpace(s);
    Seqs.KeepAll(s, IsWordChar);
  }

  /** `c.toLowerCase()` on the ASCII letters. */
  function LowerChar(c: char): (r: char)
    ensures 'A' <= c <= 'Z' ==> 'a' <= r <= 'z'
    ensures !('A' <= c <= 'Z') ==> r == c
  {
    if 'A' <= c <= 'Z' then (c as int + 32) as char else c
  }

  /** `s.toLowerCase()`, character by character. */
  function ToLower(s: string): (r: string)
    ensures |r| == |s|
    ensures forall i :: 0 <= i < |s| ==> r[i] == LowerChar(s[i])
  {
    seq(|s|, i requires 0 <= i < |s| => LowerChar(s[i]))
  }

  /** `sub` occurs in `s` at position `i`. */
  predicate OccursAt(s: string, sub: string, i: int) {
    0 <= i && i + |sub| <= |s| && s[i..i + |sub|] == sub
  }

  /** `s.includes(sub)`. */
  function Contains(s: string, sub: string): (b: bool)
    ensures b <==> exists i :: OccursAt(s, sub, i)
    decreases |s|
  {
    if |sub| > |s| then false
    else if s[..|sub|] == sub then
      assert OccursAt(s, sub, 0);
      true
    else
      var b := Contains(s[1..], sub);
      if b then
        var i :| OccursAt(s[1..], sub, i);
        assert OccursAt(s, sub, i + 1);
        b
      else
        assert forall i :: OccursAt(s, sub, i) ==> i == 0 || OccursAt(s[1..], sub, i - 1);
        b
  }
}
