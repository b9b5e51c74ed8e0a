/** The Python `str` operations the agent relies on, over `seq<char>`.
    Every search pattern here is non-empty, as it is at every call site. */
module Strings {
  import opened Wrappers

  /** Python truthiness of an optional string (`None` or `""` is false). */
  predicate Truthy(s: Option<string>) {
    s.Some? && s.value != ""
  }

  /** `s.startswith(prefix)` */
  predicate StartsWith(s: string, prefix: string) {
    prefix <= s
  }

  /** `s.endswith(suffix)` */
  predicate EndsWith(s: string, suffix: string) {
    |suffix| <= |s| && s[|s| - |suffix|..] == suffix
  }

  /** `pat` occurs in `s` at index `i`. */
  predicate OccursAt(s: string, pat: string, i: int) {
    0 <= i && i + |pat| <= |s| && s[i..i + |pat|] == pat
  }

  lemma OccursAtChar(s: string, c: char, i: int)
    ensures OccursAt(s, [c], i) <==> 0 <= i < |s| && s[i] == c
  {
    if 0 <= i < |s| {
      assert s[i..i + 1] == [s[i]];
    }
  }

  /** `s.find(pat)`: the first index at which `pat` occurs. */
  function Find(s: string, pat: string): (r: Option<nat>)
    requires pat != []
    ensures r.Some? ==> OccursAt(s, pat, r.value)
    ensures r.Some? ==> forall j :: 0 <= j < r.value ==> !OccursAt(s, pat, j)
    ensures r.None? ==> forall j :: !OccursAt(s, pat, j)
    decreases |s|
  {
    if |s| < |pat| then None
    else if s[..|pat|] == pat then Some(0)
    else
      assert forall j :: 1 <= j ==> (OccursAt(s, pat, j) <==> OccursAt(s[1..], pat, j - 1)) by {
        forall j | 1 <= j ensures OccursAt(s, pat, j) <==> OccursAt(s[1..], pat, j - 1) {
          if j + |pat| <= |s| {
            assert s[1..][j - 1..j - 1 + |pat|] == s[j..j + |pat|];
          }
        }
      }
      assert s[0..|pat|] == s[..|pat|];
      match Find(s[1..], pat)
      case None => None
      case Some(i) => Some(i + 1)
  }

  /** `s.rfind(pat)`: the last index at which `pat` occurs. */
  function FindLast(s: string, pat: string): (r: Option<nat>)
    requires pat != []
    ensures r.Some? ==> OccursAt(s, pat, r.value)
    ensures r.Some? ==> forall j :: r.value < j ==> !OccursAt(s, pat, j)
    ensures r.None? ==> forall j :: !OccursAt(s, pat, j)
    decreases |s|
  {
    if |s| < |pat| then None
    else if s[|s| - |pat|..] == pat then Some(|s| - |pat|)
    else
      var t := s[..|s| - 1];
      assert forall j :: OccursAt(s, pat, j) && j + |pat| < |s| ==> OccursAt(t, pat, j) by {
        forall j | OccursAt(s, pat, j) && j + |pat| < |s| ensures OccursAt(t, pat, j) {
          assert t[j..j + |pat|] == s[j..j + |pat|];
        }
      }
      FindLast(t, pat)
  }

  /** `sep.join(parts)` */
  function JoinWith(sep: string, parts: seq<string>): string {
    if parts == [] then ""
    else if |parts| == 1 then parts[0]
    else parts[0] + sep + JoinWith(sep, parts[1..])
  }

  /** `s.split(sep)`: the pieces between the non-overlapping occurrences of
      `sep`, matched from the left. */
  function SplitOn(s: string, sep: string): (r: seq<string>)
    requires sep != []
    ensures r != []
    decreases |s|
  {
    if |s| < |sep| then [s]
    else if s[..|sep|] == sep then [""] + SplitOn(s[|sep|..], sep)
    else
      var rest := SplitOn(s[1..], sep);
      [[s[0]] + rest[0]] + rest[1..]
  }

  /** `s.replace(pat, repl)`: every non-overlapping occurrence, from the left. */
  function ReplaceAll(s: string, pat: string, repl: string): string
    requires pat != []
    decreases |s|
  {
    if |s| < |pat| then s
    else if s[..|pat|] == pat then repl + ReplaceAll(s[|pat|..], pat, repl)
    else [s[0]] + ReplaceAll(s[1..], pat, repl)
  }

  /** `s.replace(pat, repl, 1)`: the first occurrence only. */
  function ReplaceFirst(s: string, pat: string, repl: string): (r: string)
    requires pat != []
    ensures Find(s, pat).None? ==> r == s
    ensures Find(s, pat).Some? ==>
      var i := Find(s, pat).value; r == s[..i] + repl + s[i + |pat|..]
    decreases |s|
  {
    if |s| < |pat| then s
    else if s[..|pat|] == pat then repl + s[|pat|..]
    else [s[0]] + ReplaceFirst(s[1..], pat, repl)
  }

  /** `s.rsplit(sep, 1)[0]`: everything before the last occurrence of `sep`. */
  function BeforeLast(s: string, sep: string): (r: string)
    requires sep != []
    ensures EndsWith(s, sep) ==> r == s[..|s| - |sep|]
    ensures FindLast(s, sep).None? ==> r == s
  {
    match FindLast(s, sep)
    case None => s
    case Some(i) => s[..i]
  }

  /** `s.lstrip(chars)` */
  function StripLeading(s: string, chars: set<char>): (r: string)
    ensures |r| <= |s| && r == s[|s| - |r|..]
    ensures r == [] || r[0] !in chars
    ensures forall k :: 0 <= k < |s| - |r| ==> s[k] in chars
    decreases |s|
  {
    if s != [] && s[0] in chars then StripLeading(s[1..], chars) else s
  }

  /** `s.rstrip(chars)` */
  function StripTrailing(s: string, chars: set<char>): (r: string)
    ensures |r| <= |s| && r == s[..|r|]
    ensures r == [] || r[|r| - 1] !in chars
    ensures forall k :: |r| <= k < |s| ==> s[k] in chars
    decreases |s|
  {
    if s != [] && s[|s| - 1] in chars then StripTrailing(s[..|s| - 1], chars) else s
  }

  /** `s.strip(chars)` */
  function StripChars(s: string, chars: set<char>): string {
    StripTrailing(StripLeading(s, chars), chars)
  }

  /** The characters for which `str.isspace()` holds: what `s.strip()` removes. */
  const Whitespace: set<char> := {
    '\t', '\n', '\U{0B}', '\U{0C}', '\r', '\U{1C}', '\U{1D}', '\U{1E}', '\U{1F}', ' ',
    '\U{85}', '\U{A0}', '\U{1680}', '\U{2000}', '\U{2001}', '\U{2002}', '\U{2003}',
    '\U{2004}', '\U{2005}', '\U{2006}', '\U{2007}', '\U{2008}', '\U{2009}', '\U{200A}',
    '\U{2028}', '\U{2029}', '\U{202F}', '\U{205F}', '\U{3000}'
  }

  /** `s.strip()` */
  function Strip(s: string): string {
    StripChars(s, Whitespace)
  }

  // ----- lemmas -----

  /** Joining `[x + y] + rest` is joining `[y] + rest` behind `x`. */
  lemma JoinHead(sep: string, x: string, y: string, rest: seq<string>)
    ensures JoinWith(sep, [x + y] + rest) == x + JoinWith(sep, [y] + rest)
  {
    assert ([x + y] + rest)[1..] == rest == ([y] + rest)[1..];
  }

  /** `sep.join(s.split(sep)) == s`. */
  lemma {:induction false} JoinSplit(s: string, sep: string)
    requires sep != []
    ensures JoinWith(sep, SplitOn(s, sep)) == s
    decreases |s|
  {
    if |s| < |sep| {
    } else if s[..|sep|] == sep {
      var rest := s[|sep|..];
      JoinSplit(rest, sep);
      var parts := [""] + SplitOn(rest, sep);
      assert parts[1..] == SplitOn(rest, sep);
      assert JoinWith(sep, parts) == "" + sep + JoinWith(sep, parts[1..]);
      assert s == sep + rest;
    } else {
      var rest := SplitOn(s[1..], sep);
      assert SplitOn(s, sep) == [[s[0]] + rest[0]] + rest[1..];
      JoinSplit(s[1..], sep);
      JoinHead(sep, [s[0]], rest[0], rest[1..]);
      assert [rest[0]] + rest[1..] == rest;
      assert JoinWith(sep, SplitOn(s, sep)) == [s[0]] + s[1..];
      assert s == [s[0]] + s[1..];
    }
  }

  /** `s.replace(pat, repl) == repl.join(s.split(pat))`. */
  lemma {:induction false} ReplaceAllIsJoinOfSplit(s: string, pat: string, repl: string)
    requires pat != []
    ensures ReplaceAll(s, pat, repl) == JoinWith(repl, SplitOn(s, pat))
    decreases |s|
  {
    if |s| < |pat| {
    } else if s[..|pat|] == pat {
      var rest := s[|pat|..];
      ReplaceAllIsJoinOfSplit(rest, pat, repl);
      assert ([""] + SplitOn(rest, pat))[1..] == SplitOn(rest, pat);
    } else {
      var rest := SplitOn(s[1..], pat);
      ReplaceAllIsJoinOfSplit(s[1..], pat, repl);
      JoinHead(repl, [s[0]], rest[0], rest[1..]);
      assert [rest[0]] + rest[1..] == rest;
    }
  }

  /** Replacing one character by another maps the string character by character. */
  lemma {:induction false} ReplaceCharPointwise(s: string, c: char, d: char)
    ensures |ReplaceAll(s, [c], [d])| == |s|
    ensures forall k :: 0 <= k < |s| ==>
      ReplaceAll(s, [c], [d])[k] == if s[k] == c then d else s[k]
    decreases |s|
  {
    if s != [] {
      ReplaceCharPointwise(s[1..], c, d);
      assert s[..1] == [s[0]];
      var r := ReplaceAll(s, [c], [d]);
      assert r == [if s[0] == c then d else s[0]] + ReplaceAll(s[1..], [c], [d]);
      forall k | 1 <= k < |s|
        ensures r[k] == if s[k] == c then d else s[k]
      {
        assert s[1..][k - 1] == s[k];
      }
    }
  }

  /** Splitting at a character that does not occur gives the whole string. */
  lemma {:induction false} SplitAbsent(s: string, c: char)
    requires c !in s
    ensures SplitOn(s, [c]) == [s]
    decreases |s|
  {
    if s != [] {
      assert s[..1] == [s[0]];
      SplitAbsent(s[1..], c);
      assert [s[0]] + s[1..] == s;
    }
  }

  /** Splitting at a character distributes over an occurrence of it. */
  lemma {:induction false} SplitConcat(a: string, c: char, b: string)
    ensures SplitOn(a + [c] + b, [c]) == SplitOn(a, [c]) + SplitOn(b, [c])
    decreases |a|
  {
    if a == [] {
      SplitAtSeparator(b, c);
      assert a + [c] + b == [c] + b;
    } else {
      SplitConcat(a[1..], c, b);
      SplitConcatStep(a[0], a[1..], c, b);
      assert a == [a[0]] + a[1..];
    }
  }

  /** The inductive step of `SplitConcat`: one more leading character. */
  lemma SplitConcatStep(x: char, t: string, c: char, b: string)
    requires SplitOn(t + [c] + b, [c]) == SplitOn(t, [c]) + SplitOn(b, [c])
    ensures SplitOn([x] + t + [c] + b, [c]) == SplitOn([x] + t, [c]) + SplitOn(b, [c])
  {
    var w := t + [c] + b;
    assert [x] + t + [c] + b == [x] + w;
    if x == c {
      SplitAtSeparator(w, c);
      SplitAtSeparator(t, c);
    } else {
      SplitOtherStep(x, t, w, c, SplitOn(b, [c]));
    }
  }

  /** `SplitConcatStep` for a leading character other than the separator. */
  lemma SplitOtherStep(x: char, t: string, w: string, c: char, tail: seq<string>)
    requires x != c && SplitOn(w, [c]) == SplitOn(t, [c]) + tail
    ensures SplitOn([x] + w, [c]) == SplitOn([x] + t, [c]) + tail
  {
    SplitOther(x, w, c);
    SplitOther(x, t, c);
    PrependToFirst([x], SplitOn(t, [c]), tail);
  }

  /** Extending the first piece commutes with appending more pieces. */
  lemma PrependToFirst(x: string, r: seq<string>, tail: seq<string>)
    requires r != []
    ensures [x + (r + tail)[0]] + (r + tail)[1..] == ([x + r[0]] + r[1..]) + tail
  {
    assert (r + tail)[1..] == r[1..] + tail;
  }

  /** A leading separator splits off an empty first piece. */
  lemma SplitAtSeparator(s: string, c: char)
    ensures SplitOn([c] + s, [c]) == [""] + SplitOn(s, [c])
  {
    assert ([c] + s)[..1] == [c] && ([c] + s)[1..] == s;
  }

  /** Any other leading character joins the first piece. */
  lemma SplitOther(x: char, s: string, c: char)
    requires x != c
    ensures var rest := SplitOn(s, [c]);
      SplitOn([x] + s, [c]) == [[x] + rest[0]] + rest[1..]
  {
    assert ([x] + s)[..1] == [x] && ([x] + s)[1..] == s;
  }

  /** No piece of `s.split(c)` contains `c`. */
  lemma {:induction false} SplitPiecesFree(s: string, c: char)
    ensures forall k :: 0 <= k < |SplitOn(s, [c])| ==> c !in SplitOn(s, [c])[k]
    decreases |s|
  {
    if s != [] {
      assert s[..1] == [s[0]];
      SplitPiecesFree(s[1..], c);
      var rest := SplitOn(s[1..], [c]);
      if s[0] != c {
        var r := SplitOn(s, [c]);
        assert r == [[s[0]] + rest[0]] + rest[1..];
        forall k | 0 <= k < |r| ensures c !in r[k] {
          if k > 0 {
            assert r[k] == rest[k];
          }
        }
      }
    }
  }

  /** `c.join(parts).split(c) == parts` when no part contains `c`. */
  lemma {:induction false} SplitJoin(parts: seq<string>, c: char)
    requires parts != []
    requires forall k :: 0 <= k < |parts| ==> c !in parts[k]
    ensures SplitOn(JoinWith([c], parts), [c]) == parts
    decreases |parts|
  {
    SplitAbsent(parts[0], c);
    if |parts| > 1 {
      SplitJoin(parts[1..], c);
      SplitConcat(parts[0], c, JoinWith([c], parts[1..]));
    }
  }

  /** Joining a longer list extends the joined string. */
  lemma {:induction false} JoinSnoc(sep: string, parts: seq<string>, x: string)
    ensures JoinWith(sep, parts + [x]) == if parts == [] then x else JoinWith(sep, parts) + sep + x
    decreases |parts|
  {
    if |parts| > 1 {
      JoinSnoc(sep, parts[1..], x);
      assert (parts + [x])[1..] == parts[1..] + [x];
    } else if |parts| == 1 {
      assert (parts + [x])[1..] == [x];
    }
  }

  /** Stripping from the left removes a prefix made of stripped characters
      and stops at the first character that is not one. */
  lemma {:induction false} StripLeadingPrefix(t: string, u: string, chars: set<char>)
    requires forall k :: 0 <= k < |t| ==> t[k] in chars
    requires u == [] || u[0] !in chars
    ensures StripLeading(t + u, chars) == u
    decreases |t|
  {
    if t != [] {
      assert (t + u)[1..] == t[1..] + u;
      StripLeadingPrefix(t[1..], u, chars);
    }
  }

  /** Stripping a character set from text wrapped in that set leaves the
      text, when it neither starts nor ends with one of them. */
  lemma StripBetween(wrap: string, inner: string, chars: set<char>)
    requires forall k :: 0 <= k < |wrap| ==> wrap[k] in chars
    requires inner != [] && inner[0] !in chars && inner[|inner| - 1] !in chars
    ensures StripChars(wrap + inner + wrap, chars) == inner
  {
    assert wrap + inner + wrap == wrap + (inner + wrap);
    StripLeadingPrefix(wrap, inner + wrap, chars);
    StripTrailingSuffix(inner, wrap, chars);
  }

  /** Stripping from the right removes a suffix made of stripped characters
      and stops at the last character that is not one. */
  lemma {:induction false} StripTrailingSuffix(u: string, t: string, chars: set<char>)
    requires forall k :: 0 <= k < |t| ==> t[k] in chars
    requires u == [] || u[|u| - 1] !in chars
    ensures StripTrailing(u + t, chars) == u
    decreases |t|
  {
    if t != [] {
      assert (u + t)[..|u + t| - 1] == u + t[..|t| - 1];
      StripTrailingSuffix(u, t[..|t| - 1], chars);
    } else {
      assert u + t == u;
    }
  }

  /** Removing every occurrence of `pat` from `p + pat` gives `p` back when the
      first character of `pat` does not occur in `p`. */
  lemma {:induction false} ReplaceAllTrailing(p: string, pat: string)
    requires pat != [] && pat[0] !in p
    ensures ReplaceAll(p + pat, pat, "") == p
    decreases |p|
  {
    if p == [] {
      assert (p + pat)[..|pat|] == pat && (p + pat)[|pat|..] == [];
    } else {
      assert (p + pat)[0] == p[0] != pat[0];
      assert (p + pat)[1..] == p[1..] + pat;
      ReplaceAllTrailing(p[1..], pat);
    }
  }
}
