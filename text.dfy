/**
 * The operations of Python's `str` that the pipeline relies on:
 * `sep.join`, `lower`, the substring test `sub in s`, `strip` and `split`.
 */
module Text {

  /** `sep.join(parts)`. */
  function Join(sep: string, parts: seq<string>): string
  {
    if parts == [] then ""
    else if |parts| == 1 then parts[0]
    else parts[0] + sep + Join(sep, parts[1..])
  }

  /** Lower-casing of one character (ASCII letters only, see README). */
  function LowerChar(c: char): char
  {
    if 'A' <= c <= 'Z' then (c as int + 32) as char else c
  }

  /** `s.lower()`. */
  function Lower(s: string): string
  {
    seq(|s|, i requires 0 <= i < |s| => LowerChar(s[i]))
  }

  /** `sub` occurs in `s` starting at index `i`. */
  ghost predicate OccursAt(s: string, sub: string, i: int)
  {
    0 <= i && i + |sub| <= |s| && s[i..i + |sub|] == sub
  }

  /** Python's `sub in s`. */
  function Contains(s: string, sub: string): bool
    decreases |s|
  {
    if |sub| > |s| then false
    else if s[..|sub|] == sub then true
    else Contains(s[1..], sub)
  }

  /** `sub in s` holds exactly when `sub` occurs somewhere in `s`. */
  lemma {:induction false} ContainsIff(s: string, sub: string)
    ensures Contains(s, sub) <==> exists i :: OccursAt(s, sub, i)
    decreases |s|
  {
    if |sub| > |s| {
    } else if s[..|sub|] == sub {
      assert OccursAt(s, sub, 0);
    } else {
      ContainsIff(s[1..], sub);
      if Contains(s[1..], sub) {
        var i :| OccursAt(s[1..], sub, i);
        assert s[1..][i..i + |sub|] == s[i + 1..i + 1 + |sub|];
        assert OccursAt(s, sub, i + 1);
      } else {
        forall i | OccursAt(s, sub, i) ensures false {
          assert i != 0;
          assert s[1..][i - 1..i - 1 + |sub|] == s[i..i + |sub|];
          assert OccursAt(s[1..], sub, i - 1);
        }
      }
    }
  }

  /** The characters `str.isspace()` accepts, which `str.strip()` removes. */
  predicate IsSpace(c: char)
  {
    || c == ' '
    || ('\t' <= c <= '\r')
    || ('\U{1C}' <= c <= '\U{1F}')
    || c == '\U{85}' || c == '\U{A0}' || c == '\U{1680}'
    || ('\U{2000}' <= c <= '\U{200A}')
    || c == '\U{2028}' || c == '\U{2029}' || c == '\U{202F}' || c == '\U{205F}' || c == '\U{3000}'
  }

  /** `s.lstrip()`. */
  function StripStart(s: string): string
  {
    if s != [] && IsSpace(s[0]) then StripStart(s[1..]) else s
  }

  /** `s.rstrip()`. */
  function StripEnd(s: string): string
  {
    if s != [] && IsSpace(s[|s| - 1]) then StripEnd(s[..|s| - 1]) else s
  }

  /** `s.strip()`. */
  function Strip(s: string): string
  {
    StripEnd(StripStart(s))
  }

  /** `s.strip()` keeps a slice of `s`, and removes exactly the whitespace around it. */
  lemma {:induction false} StripStartSlice(s: string)
    ensures exists i :: 0 <= i <= |s| && StripStart(s) == s[i..] && forall k :: 0 <= k < i ==> IsSpace(s[k])
    ensures StripStart(s) == [] || !IsSpace(StripStart(s)[0])
    decreases |s|
  {
    if s != [] && IsSpace(s[0]) {
      StripStartSlice(s[1..]);
      var i :| 0 <= i <= |s[1..]| && StripStart(s[1..]) == s[1..][i..] && forall k :: 0 <= k < i ==> IsSpace(s[1..][k]);
      assert StripStart(s) == s[i + 1..];
      forall k | 0 <= k < i + 1 ensures IsSpace(s[k]) {
        if k > 0 { assert s[k] == s[1..][k - 1]; }
      }
    } else {
      assert StripStart(s) == s[0..];
    }
  }

  lemma {:induction false} StripEndSlice(s: string)
    ensures exists j :: 0 <= j <= |s| && StripEnd(s) == s[..j] && forall k :: j <= k < |s| ==> IsSpace(s[k])
    ensures StripEnd(s) == [] || !IsSpace(StripEnd(s)[|StripEnd(s)| - 1])
    decreases |s|
  {
    if s != [] && IsSpace(s[|s| - 1]) {
      var t := s[..|s| - 1];
      StripEndSlice(t);
      var j :| 0 <= j <= |t| && StripEnd(t) == t[..j] && forall k :: j <= k < |t| ==> IsSpace(t[k]);
      assert StripEnd(s) == s[..j];
      forall k | j <= k < |s| ensures IsSpace(s[k]) {
        if k < |s| - 1 { assert s[k] == t[k]; }
      }
    } else {
      assert StripEnd(s) == s[..|s|];
    }
  }

  /** Every character of `s` outside `s[i..j]` is whitespace. */
  ghost predicate SpaceOutside(s: string, i: int, j: int)
  {
    && 0 <= i <= j <= |s|
    && (forall k :: 0 <= k < i ==> IsSpace(s[k]))
    && (forall k :: j <= k < |s| ==> IsSpace(s[k]))
  }

  /**
   * `s.strip()` is the slice `s[i..j]` whose surroundings are all whitespace and
   * which neither starts nor ends with whitespace.
   */
  lemma StripIsTrimmedSlice(s: string)
    ensures exists i, j :: SpaceOutside(s, i, j) && Strip(s) == s[i..j]
    ensures Strip(s) == [] || (!IsSpace(Strip(s)[0]) && !IsSpace(Strip(s)[|Strip(s)| - 1]))
  {
    StripStartSlice(s);
    var i :| 0 <= i <= |s| && StripStart(s) == s[i..] && forall k :: 0 <= k < i ==> IsSpace(s[k]);
    var t := s[i..];
    StripEndSlice(t);
    var j :| 0 <= j <= |t| && StripEnd(t) == t[..j] && forall k :: j <= k < |t| ==> IsSpace(t[k]);
    assert Strip(s) == s[i..i + j];
    forall k | i + j <= k < |s| ensures IsSpace(s[k]) {
      assert s[k] == t[k - i];
    }
    assert SpaceOutside(s, i, i + j);
    if Strip(s) != [] {
      assert Strip(s)[0] == t[0];
    }
  }

  /** `s.strip()` is empty exactly when `s` is all whitespace. */
  lemma StripEmptyIff(s: string)
    ensures Strip(s) == [] <==> forall k :: 0 <= k < |s| ==> IsSpace(s[k])
  {
    StripIsTrimmedSlice(s);
  }

  /** The index of the first `c` in `s`, or -1 (`s.find(c)`). */
  function IndexOf(s: string, c: char): (i: int)
    ensures -1 <= i < |s|
    ensures 0 <= i ==> s[i] == c && c !in s[..i]
    ensures i == -1 <==> c !in s
  {
    if s == [] then -1
    else if s[0] == c then 0
    else
      var j := IndexOf(s[1..], c);
      if j == -1 then -1 else
        assert s[..j + 1] == [s[0]] + s[1..][..j];
        j + 1
  }

  /** `s.split(sep)` for a one-character separator: every occurrence splits, empty parts are kept. */
  function Split(s: string, sep: char): (parts: seq<string>)
    ensures |parts| >= 1
    ensures forall k :: 0 <= k < |parts| ==> sep !in parts[k]
    decreases |s|
  {
    var i := IndexOf(s, sep);
    if i == -1 then [s] else [s[..i]] + Split(s[i + 1..], sep)
  }

  /** Joining the parts of a split with the separator gives back the string. */
  lemma {:induction false} SplitJoin(s: string, sep: char)
    ensures Join([sep], Split(s, sep)) == s
    decreases |s|
  {
    var i := IndexOf(s, sep);
    if i != -1 {
      var rest := s[i + 1..];
      var parts := Split(s, sep);
      SplitJoin(rest, sep);
      assert parts == [s[..i]] + Split(rest, sep);
      assert |parts| >= 2;
      calc {
        Join([sep], parts);
        parts[0] + [sep] + Join([sep], parts[1..]);
        { assert parts[1..] == Split(rest, sep); }
        s[..i] + [sep] + rest;
        s;
      }
    }
  }

  /** The split has a second part exactly when the separator occurs. */
  lemma SplitHasSecondPart(s: string, sep: char)
    ensures |Split(s, sep)| >= 2 <==> sep in s
  {
  }

  /**
   * The second part of a split is the text between the first separator and the
   * next one (or the end of the string).
   */
  lemma SplitSecondPart(s: string, sep: char)
    requires sep in s
    ensures SecondPartAt(s, sep, IndexOf(s, sep) + 1, Split(s, sep)[1])
  {
    var i := IndexOf(s, sep);
    var rest := s[i + 1..];
    SplitTail(s, sep);
    SplitFirst(rest, sep);
  }

  lemma SplitTail(s: string, sep: char)
    requires sep in s
    ensures Split(s, sep)[1] == Split(s[IndexOf(s, sep) + 1..], sep)[0]
  {
    var i := IndexOf(s, sep);
    var tail := Split(s[i + 1..], sep);
    assert Split(s, sep) == [s[..i]] + tail;
    assert ([s[..i]] + tail)[1] == tail[0];
  }

  lemma SplitFirst(s: string, sep: char)
    ensures SecondPartAt(s, sep, 0, Split(s, sep)[0])
  {
    var j := IndexOf(s, sep);
    if j != -1 {
      assert Split(s, sep)[0] == s[..j];
    }
  }

  /** `p` occurs at `start` in `s` and is followed by the separator or by the end of `s`. */
  ghost predicate SecondPartAt(s: string, sep: char, start: int, p: string)
  {
    0 <= start && start + |p| <= |s| && s[start..start + |p|] == p
      && (start + |p| == |s| || s[start + |p|] == sep)
  }
}
