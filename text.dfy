/**
 * The handful of Python `str` operations the MQ clients and server rely on:
 * `strip`, `lower`/`upper`, `startswith`, `in`, `split(sep)`, `sep.join`,
 * `replace` and slicing past the end.  Whitespace and letter case are the
 * ASCII ones.
 */
module Text {

  /** The characters `str.strip()` and the regex class `\s` treat as whitespace (ASCII part). */
  predicate IsSpace(c: char)
  {
    c == ' ' || c == '\t' || c == '\n' || c == '\r' || c == '\U{B}' || c == '\U{C}'
  }

  predicate IsDigit(c: char) { '0' <= c <= '9' }

  predicate IsUpperLetter(c: char) { 'A' <= c <= 'Z' }

  predicate IsLowerLetter(c: char) { 'a' <= c <= 'z' }

  /** `str.lstrip()`. */
  function TrimLeft(s: string): (r: string)
    ensures |r| <= |s|
  {
    if |s| > 0 && IsSpace(s[0]) then TrimLeft(s[1..]) else s
  }

  /** `lstrip` gives the longest suffix that does not start with whitespace. */
  lemma {:induction false} TrimLeftSpec(s: string)
    ensures var r := TrimLeft(s);
      r == s[|s| - |r|..] && (r == [] || !IsSpace(r[0]))
      && forall i | 0 <= i < |s| - |r| :: IsSpace(s[i])
  {
    if |s| > 0 && IsSpace(s[0]) {
      TrimLeftSpec(s[1..]);
    }
  }

  /** `str.rstrip()`. */
  function TrimRight(s: string): (r: string)
    ensures |r| <= |s|
  {
    if |s| > 0 && IsSpace(s[|s| - 1]) then TrimRight(s[..|s| - 1]) else s
  }

  /** `rstrip` gives the longest prefix that does not end with whitespace. */
  lemma {:induction false} TrimRightSpec(s: string)
    ensures var r := TrimRight(s);
      r == s[..|r|] && (r == [] || !IsSpace(r[|r| - 1]))
      && forall i | |r| <= i < |s| :: IsSpace(s[i])
  {
    if |s| > 0 && IsSpace(s[|s| - 1]) {
      TrimRightSpec(s[..|s| - 1]);
    }
  }

  /** `str.strip()`. */
  function Strip(s: string): (r: string)
    ensures |r| <= |s|
  {
    TrimRight(TrimLeft(s))
  }

  /** `r` occurs in `s` starting at index `k`. */
  predicate IsWindow(s: string, k: nat, r: string)
  {
    k + |r| <= |s| && s[k..k + |r|] == r
  }

  /** `strip` removes whitespace at both ends only: the result is a window of the text with no whitespace at its ends. */
  lemma StripSpec(s: string)
    ensures var r := Strip(s);
      (r == [] || (!IsSpace(r[0]) && !IsSpace(r[|r| - 1])))
      && exists k | 0 <= k <= |s| - |r| :: IsWindow(s, k, r)
  {
    var l := TrimLeft(s);
    TrimLeftSpec(s);
    TrimRightSpec(l);
    var r := TrimRight(l);
    assert IsWindow(s, |s| - |l|, r);
    if r != [] {
      assert r[0] == l[0];
    }
  }

  /** `lstrip` removes a run of whitespace in front of text that starts with none. */
  lemma {:induction false} TrimLeftRun(g: string, b: string)
    requires forall i | 0 <= i < |g| :: IsSpace(g[i])
    requires b == [] || !IsSpace(b[0])
    ensures TrimLeft(g + b) == b
    decreases |g|
  {
    if g == [] {
      assert g + b == b;
    } else {
      assert (g + b)[1..] == g[1..] + b;
      TrimLeftRun(g[1..], b);
    }
  }

  /** `rstrip` removes a run of whitespace behind text that ends with none. */
  lemma {:induction false} TrimRightRun(a: string, g: string)
    requires forall i | 0 <= i < |g| :: IsSpace(g[i])
    requires a == [] || !IsSpace(a[|a| - 1])
    ensures TrimRight(a + g) == a
    decreases |g|
  {
    if g == [] {
      assert a + g == a;
    } else {
      assert (a + g)[..|a + g| - 1] == a + g[..|g| - 1];
      TrimRightRun(a, g[..|g| - 1]);
    }
  }

  /** `strip` removes whitespace padding on both sides of text with none at its ends. */
  lemma StripPadded(pre: string, t: string, post: string)
    requires forall i | 0 <= i < |pre| :: IsSpace(pre[i])
    requires forall i | 0 <= i < |post| :: IsSpace(post[i])
    requires t == [] || (!IsSpace(t[0]) && !IsSpace(t[|t| - 1]))
    ensures Strip(pre + t + post) == t
  {
    if t == [] {
      assert pre + t + post == pre + post;
      TrimLeftRun(pre + post, []);
      assert pre + post + [] == pre + post;
    } else {
      assert pre + t + post == pre + (t + post);
      assert (t + post)[0] == t[0];
      TrimLeftRun(pre, t + post);
      TrimRightRun(t, post);
    }
  }

  /** Text with no surrounding whitespace is its own `strip()`. */
  lemma StripOfStripped(s: string)
    requires s == [] || (!IsSpace(s[0]) && !IsSpace(s[|s| - 1]))
    ensures Strip(s) == s
  {
  }

  /** `strip` is idempotent. */
  lemma StripIdempotent(c: string)
    ensures Strip(Strip(c)) == Strip(c)
  {
    StripSpec(c);
    StripOfStripped(Strip(c));
  }

  lemma TrimLeftNoSpace(s: string)
    requires forall i | 0 <= i < |s| :: !IsSpace(s[i])
    ensures TrimLeft(s) == s
  {
  }

  lemma TrimRightNoSpace(s: string)
    requires forall i | 0 <= i < |s| :: !IsSpace(s[i])
    ensures TrimRight(s) == s
  {
  }

  /** Text without any whitespace is its own `strip()`. */
  lemma StripNoSpace(s: string)
    requires forall i | 0 <= i < |s| :: !IsSpace(s[i])
    ensures Strip(s) == s
  {
    TrimLeftNoSpace(s);
    TrimRightNoSpace(s);
  }

  function LowerChar(c: char): char
  {
    if IsUpperLetter(c) then (c as int + 32) as char else c
  }

  function UpperChar(c: char): char
  {
    if IsLowerLetter(c) then (c as int - 32) as char else c
  }

  /** `str.lower()` (ASCII letters). */
  function Lower(s: string): (r: string)
    ensures |r| == |s|
    ensures forall i :: 0 <= i < |s| ==> r[i] == LowerChar(s[i])
  {
    seq(|s|, i requires 0 <= i < |s| => LowerChar(s[i]))
  }

  /** `str.upper()` (ASCII letters). */
  function Upper(s: string): (r: string)
    ensures |r| == |s|
    ensures forall i :: 0 <= i < |s| ==> r[i] == UpperChar(s[i])
  {
    seq(|s|, i requires 0 <= i < |s| => UpperChar(s[i]))
  }

  /** `s.startswith(p)`. */
  predicate StartsWith(s: string, p: string)
  {
    |p| <= |s| && s[..|p|] == p
  }

  /** A text starts with each of its prefixes. */
  lemma StartsWithConcat(p: string, q: string)
    ensures StartsWith(p + q, p)
  {
    assert (p + q)[..|p|] == p;
  }

  /** A join starts with its first piece. */
  lemma JoinStartsWithFirst(parts: seq<string>, sep: string)
    ensures parts != [] ==> StartsWith(Join(parts, sep), parts[0])
  {
    if |parts| == 1 {
      assert StartsWith(parts[0], parts[0]) by { assert parts[0][..|parts[0]|] == parts[0]; }
    } else if |parts| > 1 {
      var rest := sep + Join(parts[1..], sep);
      StartsWithConcat(parts[0], rest);
      assert Join(parts, sep) == parts[0] + rest;
    }
  }

  /** A text agrees with each of its prefixes inside that prefix. */
  lemma StartsWithAt(s: string, p: string, i: nat)
    requires StartsWith(s, p) && i < |p|
    ensures s[i] == p[i]
  {
    assert s[..|p|][i] == s[i];
  }

  /** A text whose first character differs from a pattern's does not start with it. */
  lemma NotStartsWithFirst(s: string, p: string)
    requires p != [] && (s == [] || s[0] != p[0])
    ensures !StartsWith(s, p)
  {
    if |p| <= |s| {
      assert s[..|p|][0] == s[0];
    }
  }

  /** `sub in s`: some window of `s` is `sub`. */
  predicate Contains(s: string, sub: string)
    decreases |s|
  {
    StartsWith(s, sub) || (|s| > 0 && Contains(s[1..], sub))
  }

  /** Whatever is spliced into a text is contained in it. */
  lemma {:induction false} ContainsMiddle(a: string, b: string, c: string)
    ensures Contains(a + b + c, b)
    decreases |a|
  {
    if a == [] {
      assert a + b + c == b + c;
      assert (b + c)[..|b|] == b;
    } else {
      ContainsMiddle(a[1..], b, c);
      assert (a + b + c)[1..] == a[1..] + b + c;
    }
  }

  /** A text without the first character of `sub` does not contain `sub`. */
  lemma {:induction false} AbsentFirstChar(s: string, sub: string)
    requires sub != [] && sub[0] !in s
    ensures !Contains(s, sub)
    decreases |s|
  {
    if s != [] {
      assert s[0] != sub[0];
      AbsentFirstChar(s[1..], sub);
    }
  }

  /** `s[n:]` for a non-negative `n`: empty once `n` runs past the end. */
  function Drop(s: string, n: nat): (r: string)
    ensures |r| == if n <= |s| then |s| - n else 0
    ensures forall i :: 0 <= i < |r| ==> r[i] == s[n + i]
  {
    if n <= |s| then s[n..] else []
  }

  /**
   * `s.split(sep)` for a non-empty separator: the pieces between the
   * occurrences of `sep`, scanned left to right; there is always one piece
   * more than there are separators.
   */
  function Split(s: string, sep: string): (r: seq<string>)
    requires sep != []
    ensures |r| >= 1
    decreases |s|
  {
    if StartsWith(s, sep) then [""] + Split(s[|sep|..], sep)
    else if s == [] then [""]
    else
      var rest := Split(s[1..], sep);
      [[s[0]] + rest[0]] + rest[1..]
  }

  /** `sep.join(parts)`. */
  function Join(parts: seq<string>, sep: string): string
  {
    if |parts| == 0 then ""
    else if |parts| == 1 then parts[0]
    else parts[0] + sep + Join(parts[1..], sep)
  }

  lemma JoinCons(a: string, rest: seq<string>, sep: string)
    requires |rest| >= 1
    ensures Join([a] + rest, sep) == a + sep + Join(rest, sep)
  {
    assert ([a] + rest)[1..] == rest;
  }

  /** Joining the pieces of a split with the same separator gives the text back. */
  lemma {:induction false} JoinSplit(s: string, sep: string)
    requires sep != []
    ensures Join(Split(s, sep), sep) == s
    decreases |s|
  {
    if StartsWith(s, sep) {
      JoinSplit(s[|sep|..], sep);
      JoinSplitSep(sep, s[|sep|..], Split(s[|sep|..], sep));
      assert s == sep + s[|sep|..];
      SplitAtSep(s, sep);
    } else if s != [] {
      JoinSplit(s[1..], sep);
      JoinSplitChar(s, sep, Split(s[1..], sep));
      SplitAtChar(s, sep);
    }
  }

  lemma SplitAtSep(s: string, sep: string)
    requires sep != [] && StartsWith(s, sep)
    ensures Split(s, sep) == [""] + Split(s[|sep|..], sep)
  {
  }

  lemma SplitAtChar(s: string, sep: string)
    requires sep != [] && !StartsWith(s, sep) && s != []
    ensures Split(s, sep) == [[s[0]] + Split(s[1..], sep)[0]] + Split(s[1..], sep)[1..]
  {
  }

  lemma JoinSplitSep(sep: string, t: string, rest: seq<string>)
    requires |rest| >= 1 && Join(rest, sep) == t
    ensures Join([""] + rest, sep) == sep + t
  {
    var parts := [""] + rest;
    assert parts[0] == "" && parts[1..] == rest;
    assert "" + sep + t == sep + t;
  }

  lemma JoinSplitChar(s: string, sep: string, rest: seq<string>)
    requires s != [] && |rest| >= 1
    requires Join(rest, sep) == s[1..]
    ensures Join([[s[0]] + rest[0]] + rest[1..], sep) == s
  {
    var head := [s[0]] + rest[0];
    assert s == [s[0]] + s[1..];
    if |rest| == 1 {
      assert [head] + rest[1..] == [head];
    } else {
      JoinCons(head, rest[1..], sep);
      JoinCons(rest[0], rest[1..], sep);
      assert rest == [rest[0]] + rest[1..];
    }
  }

  /** No piece of a split on a single character contains that character. */
  lemma {:induction false} SplitPiecesAvoidSep(s: string, c: char)
    ensures forall p | p in Split(s, [c]) :: c !in p
    decreases |s|
  {
    if StartsWith(s, [c]) {
      SplitPiecesAvoidSep(s[1..], c);
    } else if s == [] {
    } else {
      SplitPiecesAvoidSep(s[1..], c);
      var rest := Split(s[1..], [c]);
      assert s[0] != c by { assert s[..1] == [s[0]]; }
      assert c !in [s[0]] + rest[0];
      forall p | p in rest[1..] ensures c !in p {
        assert p in rest;
      }
    }
  }

  /** Splitting a join of separator-free pieces on that separator gives the pieces back. */
  lemma {:induction false} SplitJoin(parts: seq<string>, c: char)
    requires |parts| >= 1
    requires forall p | p in parts :: c !in p
    ensures Split(Join(parts, [c]), [c]) == parts
    decreases |parts|, |parts[0]|
  {
    var p0 := parts[0];
    if p0 == [] {
      if |parts| == 1 {
      } else {
        var tail := Join(parts[1..], [c]);
        assert Join(parts, [c]) == [c] + tail;
        assert StartsWith([c] + tail, [c]);
        assert ([c] + tail)[1..] == tail;
        forall p | p in parts[1..] ensures c !in p { assert p in parts; }
        SplitJoin(parts[1..], c);
        assert parts == [""] + parts[1..];
      }
    } else {
      var s := Join(parts, [c]);
      var parts' := [p0[1..]] + parts[1..];
      assert parts'[1..] == parts[1..];
      forall p | p in parts' ensures c !in p {
        if p != p0[1..] { assert p in parts; } else { assert c !in p0; }
      }
      assert Join(parts', [c]) == s[1..] by {
        if |parts| == 1 {
        } else {
          assert s == p0 + [c] + Join(parts[1..], [c]);
        }
      }
      assert p0 in parts;
      assert s[0] == p0[0] && s[0] != c by {
        assert p0[0] in p0;
        if |parts| > 1 { assert s == p0 + [c] + Join(parts[1..], [c]); }
      }
      assert !StartsWith(s, [c]) by { assert s[..1] == [s[0]]; }
      SplitJoin(parts', c);
      assert [p0[0]] + p0[1..] == p0;
      assert parts == [p0] + parts[1..];
    }
  }

  /**
   * `s.replace(pat, rep)` for a non-empty pattern: every non-overlapping
   * occurrence, scanned left to right, is replaced.
   */
  function ReplaceAll(s: string, pat: string, rep: string): string
    requires pat != []
    decreases |s|
  {
    if StartsWith(s, pat) then rep + ReplaceAll(s[|pat|..], pat, rep)
    else if s == [] then []
    else [s[0]] + ReplaceAll(s[1..], pat, rep)
  }

  /** Text without any occurrence of the pattern is left as it is by `replace`. */
  lemma {:induction false} ReplaceAbsent(s: string, pat: string, rep: string)
    requires pat != []
    requires !Contains(s, pat)
    ensures ReplaceAll(s, pat, rep) == s
    decreases |s|
  {
    if s != [] {
      ReplaceAbsent(s[1..], pat, rep);
      assert s == [s[0]] + s[1..];
    }
  }

  /** A prefix that cannot overlap the pattern is copied, and replacing continues after it. */
  lemma {:induction false} ReplaceAfterPrefix(pre: string, s: string, pat: string, rep: string)
    requires pat != []
    requires forall i | 0 <= i < |pre| :: !StartsWith((pre + s)[i..], pat)
    ensures ReplaceAll(pre + s, pat, rep) == pre + ReplaceAll(s, pat, rep)
    decreases |pre|
  {
    if pre != [] {
      var t := pre + s;
      assert !StartsWith(t[0..], pat);
      assert t[0..] == t;
      assert t[1..] == pre[1..] + s;
      forall i | 0 <= i < |pre[1..]| ensures !StartsWith((pre[1..] + s)[i..], pat) {
        assert (pre[1..] + s)[i..] == t[i + 1..];
      }
      ReplaceAfterPrefix(pre[1..], s, pat, rep);
      assert t != [] && !StartsWith(t, pat);
      assert t[0] == pre[0];
      assert [pre[0]] + pre[1..] == pre;
      assert ReplaceAll(t, pat, rep) == [t[0]] + ReplaceAll(t[1..], pat, rep);
      assert [pre[0]] + (pre[1..] + ReplaceAll(s, pat, rep)) == pre + ReplaceAll(s, pat, rep);
    } else {
      assert pre + s == s;
    }
  }

  /** Replacing a pattern by itself changes nothing. */
  lemma {:induction false} ReplaceBySelf(s: string, pat: string)
    requires pat != []
    ensures ReplaceAll(s, pat, pat) == s
    decreases |s|
  {
    if StartsWith(s, pat) {
      ReplaceBySelf(s[|pat|..], pat);
      assert s == pat + s[|pat|..];
    } else if s != [] {
      ReplaceBySelf(s[1..], pat);
      assert s == [s[0]] + s[1..];
    }
  }

  /** Joining two non-empty lists of pieces puts one separator between their joins. */
  lemma {:induction false} JoinAppend(a: seq<string>, b: seq<string>, sep: string)
    requires a != [] && b != []
    ensures Join(a + b, sep) == Join(a, sep) + sep + Join(b, sep)
    decreases |a|
  {
    if |a| == 1 {
      JoinCons(a[0], b, sep);
      assert a + b == [a[0]] + b;
    } else {
      JoinAppend(a[1..], b, sep);
      JoinCons(a[0], a[1..] + b, sep);
      JoinCons(a[0], a[1..], sep);
      assert a + b == [a[0]] + (a[1..] + b);
      assert a == [a[0]] + a[1..];
    }
  }
}
