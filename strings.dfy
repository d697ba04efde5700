/**
 * The JavaScript string operations the components rely on: `includes`,
 * `trim` and `replace` with a one-character pattern.
 */
module Strings {

  /** `t` occurs in `s` starting at position `i`. */
  predicate OccursAt(s: string, t: string, i: int)
  {
    0 <= i && i + |t| <= |s| && s[i..i + |t|] == t
  }

  /** `String.prototype.includes`, computed by scanning from the left. */
  predicate Includes(s: string, t: string)
    decreases |s|
  {
    (|t| <= |s| && s[..|t|] == t) || (|s| > 0 && Includes(s[1..], t))
  }

  /** The scan finds `t` exactly when `t` occurs somewhere in `s`. */
  lemma {:induction false} IncludesIff(s: string, t: string)
    ensures Includes(s, t) <==> exists i :: OccursAt(s, t, i)
    decreases |s|
  {
    if |t| <= |s| && s[..|t|] == t {
      assert OccursAt(s, t, 0);
    } else if |s| > 0 {
      IncludesIff(s[1..], t);
      if Includes(s[1..], t) {
        var i :| OccursAt(s[1..], t, i);
        assert s[i + 1..i + 1 + |t|] == s[1..][i..i + |t|];
        assert OccursAt(s, t, i + 1);
      } else {
        forall i | OccursAt(s, t, i) ensures false {
          assert i != 0;
          assert s[1..][i - 1..i - 1 + |t|] == s[i..i + |t|];
          assert OccursAt(s[1..], t, i - 1);
        }
      }
    }
  }

  /** An occurrence at a known position is found by the scan. */
  lemma IncludesAt(s: string, t: string, i: nat)
    requires OccursAt(s, t, i)
    ensures Includes(s, t)
  {
    IncludesIff(s, t);
  }

  /** A string shorter than `t` does not include it. */
  lemma {:induction false} ShorterNotIncluded(s: string, t: string)
    requires |s| < |t|
    ensures !Includes(s, t)
    decreases |s|
  {
    if |s| > 0 {
      ShorterNotIncluded(s[1..], t);
    }
  }

  /** A non-empty `t` whose first character never appears in `s` is not included in `s`. */
  lemma {:induction false} MissingHeadNotIncluded(s: string, t: string)
    requires |t| > 0 && t[0] !in s
    ensures !Includes(s, t)
    decreases |s|
  {
    if |s| > 0 {
      assert t[0] !in s[1..] by { assert forall i :: 0 <= i < |s| - 1 ==> s[1..][i] == s[i + 1]; }
      MissingHeadNotIncluded(s[1..], t);
      if |t| <= |s| {
        assert s[..|t|][0] == s[0] != t[0];
      }
    }
  }

  /**
   * What `String.prototype.trim` strips: the ECMAScript WhiteSpace characters
   * (tab, vertical tab, form feed, space, no-break space, the byte-order mark
   * and the other Unicode space separators) and the LineTerminator characters.
   */
  predicate IsWhitespace(c: char)
  {
    c == '\t' || c == '\n' || c == '\U{B}' || c == '\U{C}' || c == '\r' || c == ' ' ||
    c == '\U{A0}' || c == '\U{1680}' || ('\U{2000}' <= c <= '\U{200A}') ||
    c == '\U{2028}' || c == '\U{2029}' || c == '\U{202F}' || c == '\U{205F}' ||
    c == '\U{3000}' || c == '\U{FEFF}'
  }

  /** `s` with its leading whitespace removed. */
  function TrimStart(s: string): (r: string)
    ensures |r| <= |s| && r == s[|s| - |r|..]
    ensures forall i :: 0 <= i < |s| - |r| ==> IsWhitespace(s[i])
    ensures |r| > 0 ==> !IsWhitespace(r[0])
  {
    if |s| > 0 && IsWhitespace(s[0]) then TrimStart(s[1..]) else s
  }

  /** `s` with its trailing whitespace removed. */
  function TrimEnd(s: string): (r: string)
    ensures |r| <= |s| && r == s[..|r|]
    ensures forall i :: |r| <= i < |s| ==> IsWhitespace(s[i])
    ensures |r| > 0 ==> !IsWhitespace(r[|r| - 1])
  {
    if |s| > 0 && IsWhitespace(s[|s| - 1]) then TrimEnd(s[..|s| - 1]) else s
  }

  /** `String.prototype.trim`. */
  function Trim(s: string): string
  {
    TrimEnd(TrimStart(s))
  }

  /** `s.trim()` is empty (falsy) exactly when every character of `s` is whitespace. */
  lemma TrimEmptyIff(s: string)
    ensures Trim(s) == "" <==> forall i :: 0 <= i < |s| ==> IsWhitespace(s[i])
  {
    var head := TrimStart(s);
    if head != "" {
      assert !IsWhitespace(head[0]);
      assert head[0] == s[|s| - |head|];
    }
  }

  /**
   * `s.replace(c, repl)` for a one-character pattern `c`: only the first
   * occurrence of `c` is replaced, every other character is kept.
   */
  function ReplaceFirst(s: string, c: char, repl: char): (r: string)
    ensures |r| == |s|
    ensures forall i :: 0 <= i < |s| && s[i] != c ==> r[i] == s[i]
    ensures forall i :: 0 <= i < |s| && s[i] == c ==> r[i] == (if c in s[..i] then c else repl)
  {
    if |s| == 0 then s
    else if s[0] == c then
      assert forall i :: 0 < i < |s| ==> c in s[..i] by {
        forall i | 0 < i < |s| ensures c in s[..i] { assert s[..i][0] == c; }
      }
      [repl] + s[1..]
    else
      var rest := ReplaceFirst(s[1..], c, repl);
      assert forall i :: 0 < i < |s| ==> (c in s[..i] <==> c in s[1..][..i - 1]) by {
        forall i | 0 < i < |s| ensures c in s[..i] <==> c in s[1..][..i - 1] {
          assert s[..i] == [s[0]] + s[1..][..i - 1];
        }
      }
      var r := [s[0]] + rest;
      assert forall i :: 0 < i < |s| ==> r[i] == rest[i - 1] && s[i] == s[1..][i - 1];
      r
  }

  /** Replacing the first `c` of `a + [c] + b`, where `a` has no `c`, leaves `a` and `b` alone. */
  lemma ReplaceFirstSplit(a: string, b: string, c: char, repl: char)
    requires c !in a
    ensures ReplaceFirst(a + [c] + b, c, repl) == a + [repl] + b
  {
    var s := a + [c] + b;
    var r := ReplaceFirst(s, c, repl);
    var t := a + [repl] + b;
    forall i | 0 <= i < |s| ensures r[i] == t[i] {
      if i < |a| {
        assert s[i] == a[i] && t[i] == a[i];
      } else if i == |a| {
        assert s[..i] == a;
      } else {
        assert s[i] == b[i - |a| - 1] == t[i];
        if s[i] == c {
          assert s[..i][|a|] == c;
        }
      }
    }
    assert |r| == |t|;
  }
}
