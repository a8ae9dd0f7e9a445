/**
 * The few `java.lang.String` operations and string helpers the scheduling and
 * import code relies on, written out on `seq<char>`.
 */
module JavaText {

  /** `Character.toLowerCase`, for the ASCII letters (other characters are left alone). */
  function ToLowerAscii(c: char): char
  {
    if 'A' <= c <= 'Z' then (c as int + 32) as char else c
  }

  /** `String.equalsIgnoreCase` with ASCII case folding. */
  predicate EqualsIgnoreCase(a: string, b: string)
  {
    |a| == |b| && forall i :: 0 <= i < |a| ==> ToLowerAscii(a[i]) == ToLowerAscii(b[i])
  }

  /** A character `String.trim` removes: every code point up to U+0020. */
  predicate IsTrimmed(c: char)
  {
    c <= ' '
  }

  /** A string made only of characters that trimming removes (the empty string included). */
  predicate IsWhitespaceOnly(s: string)
  {
    forall i :: 0 <= i < |s| ==> IsTrimmed(s[i])
  }

  /** The index of the last occurrence of `c` in `s`, or -1 (`String.lastIndexOf`). */
  function LastIndexOf(s: string, c: char): (i: int)
    ensures -1 <= i < |s|
    ensures 0 <= i ==> s[i] == c
    ensures forall j :: i < j < |s| ==> s[j] != c
  {
    if s == [] then -1
    else if s[|s| - 1] == c then |s| - 1
    else LastIndexOf(s[..|s| - 1], c)
  }

  /** The contract of LastIndexOf determines its value: the last occurrence is unique. */
  lemma LastIndexOfUnique(s: string, c: char, k: int)
    requires -1 <= k < |s|
    requires 0 <= k ==> s[k] == c
    requires forall j :: k < j < |s| ==> s[j] != c
    ensures LastIndexOf(s, c) == k
  {
    var i := LastIndexOf(s, c);
    assert 0 <= i ==> s[i] == c;
    assert 0 <= k ==> s[k] == c;
  }

  /** Searching a concatenation whose right part holds `c` finds it in the right part. */
  lemma LastIndexOfAppend(s: string, t: string, c: char)
    requires c in t
    ensures LastIndexOf(s + t, c) == |s| + LastIndexOf(t, c)
  {
    var k := LastIndexOf(t, c);
    forall j | |s| + k < j < |s + t|
      ensures (s + t)[j] != c
    {
      assert (s + t)[j] == t[j - |s|];
    }
    LastIndexOfUnique(s + t, c, |s| + k);
  }

  /** Searching a concatenation whose right part lacks `c` finds what the left part has. */
  lemma LastIndexOfAppendAbsent(s: string, t: string, c: char)
    requires c !in t
    ensures LastIndexOf(s + t, c) == LastIndexOf(s, c)
  {
    var k := LastIndexOf(s, c);
    forall j | k < j < |s + t|
      ensures (s + t)[j] != c
    {
      if j >= |s| {
        assert (s + t)[j] == t[j - |s|];
      }
    }
    LastIndexOfUnique(s + t, c, k);
  }

  // ---------------------------------------------------------------------------
  // `String.split("[ ]+")`

  /** `s` without its leading run of spaces. */
  function SkipSpaces(s: string): (r: string)
    ensures |r| <= |s|
    ensures r == [] || r[0] != ' '
    ensures r == s[|s| - |r|..]
  {
    if s != [] && s[0] == ' ' then SkipSpaces(s[1..]) else s
  }

  /**
   * The pieces of `s` between maximal runs of spaces, before Java drops the
   * trailing empty ones: a leading run gives a leading "" and a trailing run a
   * trailing "".
   */
  function Pieces(s: string): (ps: seq<string>)
    ensures |ps| >= 1
    ensures forall k :: 0 <= k < |ps| ==> ' ' !in ps[k]
    decreases |s|
  {
    if s == [] then [""]
    else if s[0] == ' ' then [""] + Pieces(SkipSpaces(s[1..]))
    else
      var rest := Pieces(s[1..]);
      [[s[0]] + rest[0]] + rest[1..]
  }

  /** `ps` without its trailing empty strings. */
  function DropTrailingEmpty(ps: seq<string>): (r: seq<string>)
    ensures |r| <= |ps| && r == ps[..|r|]
    ensures r == [] || r[|r| - 1] != ""
    ensures forall k :: |r| <= k < |ps| ==> ps[k] == ""
  {
    if ps != [] && ps[|ps| - 1] == "" then DropTrailingEmpty(ps[..|ps| - 1]) else ps
  }

  /**
   * `s.split("[ ]+")`: a string without a space is its own only token (even
   * the empty string); otherwise the pieces between runs of spaces, with a
   * leading "" when `s` starts with a space and no trailing empty strings.
   */
  function SplitOnSpaces(s: string): (r: seq<string>)
    ensures ' ' !in s ==> r == [s]
    ensures ' ' in s ==> r == [] || r[|r| - 1] != ""
    ensures forall k :: 0 <= k < |r| ==> ' ' !in r[k]
  {
    if ' ' !in s then [s] else DropTrailingEmpty(Pieces(s))
  }

  /** A string of spaces only has no token at all (Java gives a zero-length array). */
  lemma SplitOfSpacesOnly(s: string)
    requires s != [] && forall i :: 0 <= i < |s| ==> s[i] == ' '
    ensures SplitOnSpaces(s) == []
  {
    assert SkipSpaces(s[1..]) == [];
    assert Pieces(s) == ["", ""];
  }

  /** A cron-style field: non-empty and free of spaces. */
  predicate IsField(f: string)
  {
    f != [] && ' ' !in f
  }

  /** The fields joined with single spaces. */
  function JoinWithSpaces(fs: seq<string>): string
    requires |fs| >= 1
  {
    if |fs| == 1 then fs[0] else fs[0] + " " + JoinWithSpaces(fs[1..])
  }

  /** Joining a longer list appends to the string: used to add one field at the end. */
  lemma {:induction false} JoinAppend(fs: seq<string>, f: string)
    requires |fs| >= 1
    ensures JoinWithSpaces(fs + [f]) == JoinWithSpaces(fs) + " " + f
  {
    if |fs| == 1 {
      assert fs + [f] == [fs[0], f];
    } else {
      assert (fs + [f])[1..] == fs[1..] + [f];
      JoinAppend(fs[1..], f);
    }
  }

  /** A space-free prefix extends the first piece of what follows it. */
  lemma {:induction false} PiecesOfWordPrefix(w: string, t: string)
    requires ' ' !in w
    ensures Pieces(w + t) == [w + Pieces(t)[0]] + Pieces(t)[1..]
    decreases |w|
  {
    if w != [] {
      assert (w + t)[0] == w[0];
      assert (w + t)[1..] == w[1..] + t;
      PiecesOfWordPrefix(w[1..], t);
      assert [w[0]] + (w[1..] + Pieces(t)[0]) == w + Pieces(t)[0];
    } else {
      assert w + t == t;
      assert w + Pieces(t)[0] == Pieces(t)[0];
      assert [Pieces(t)[0]] + Pieces(t)[1..] == Pieces(t);
    }
  }

  /** Splitting fields joined by single spaces gives the fields back, before any trimming. */
  lemma {:induction false} PiecesOfJoin(fs: seq<string>)
    requires |fs| >= 1
    requires forall k :: 0 <= k < |fs| ==> IsField(fs[k])
    ensures Pieces(JoinWithSpaces(fs)) == fs
  {
    if |fs| == 1 {
      PiecesOfWordPrefix(fs[0], "");
      assert fs[0] + "" == fs[0];
    } else {
      var rest := JoinWithSpaces(fs[1..]);
      PiecesOfJoin(fs[1..]);
      assert rest != [] && rest[0] != ' ' by {
        JoinStartsWithField(fs[1..]);
      }
      var t := " " + rest;
      assert t[0] == ' ' && t[1..] == rest;
      assert SkipSpaces(rest) == rest;
      assert Pieces(t) == [""] + fs[1..];
      assert fs[0] + " " + rest == fs[0] + t;
      PiecesOfWordPrefix(fs[0], t);
      assert fs[0] + "" == fs[0];
      assert [fs[0]] + fs[1..] == fs;
    }
  }

  /** The joined string starts with the first field. */
  lemma {:induction false} JoinStartsWithField(fs: seq<string>)
    requires |fs| >= 1 && IsField(fs[0])
    ensures JoinWithSpaces(fs) != [] && JoinWithSpaces(fs)[0] == fs[0][0]
  {
    if |fs| > 1 {
      var tail := " " + JoinWithSpaces(fs[1..]);
      assert JoinWithSpaces(fs) == fs[0] + tail;
      assert (fs[0] + tail)[0] == fs[0][0];
    }
  }

  /** `split("[ ]+")` undoes joining non-empty, space-free fields with single spaces. */
  lemma SplitJoinRoundTrip(fs: seq<string>)
    requires |fs| >= 1
    requires forall k :: 0 <= k < |fs| ==> IsField(fs[k])
    ensures SplitOnSpaces(JoinWithSpaces(fs)) == fs
  {
    var s := JoinWithSpaces(fs);
    PiecesOfJoin(fs);
    if |fs| == 1 {
      assert s == fs[0];
    } else {
      var tail := JoinWithSpaces(fs[1..]);
      assert s == fs[0] + " " + tail;
      assert s[|fs[0]|] == ' ';
      assert fs[|fs| - 1] != "";
    }
  }
}
