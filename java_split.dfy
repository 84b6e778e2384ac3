/** `String.split` as Java runs it for a one-character separator that is not a
    regular-expression metacharacter (such as ";"), with the default limit 0:
    the string is cut at every separator and the trailing empty strings are
    then removed; a string with no separator at all comes back unchanged as a
    one-element array. */
module JavaSplit {
  import opened JavaLang

  /** Every piece between separators, nothing dropped: `k` separators give `k + 1` pieces. */
  function Pieces(s: string, c: char): (r: seq<string>)
    ensures |r| >= 1
    ensures forall k :: 0 <= k < |r| ==> c !in r[k]
    decreases |s|
  {
    var i := LastIndexOf(s, c);
    if i < 0 then [s] else Pieces(s[..i], c) + [s[i + 1..]]
  }

  /** The pieces put back together with `c` between neighbours. */
  function Join(xs: seq<string>, c: char): string
  {
    if |xs| == 0 then ""
    else if |xs| == 1 then xs[0]
    else Join(xs[..|xs| - 1], c) + [c] + xs[|xs| - 1]
  }

  /** Joining one more element adds a separator and that element. */
  lemma JoinSnoc(xs: seq<string>, x: string, c: char)
    requires |xs| >= 1
    ensures Join(xs + [x], c) == Join(xs, c) + [c] + x
  {
    assert (xs + [x])[..|xs|] == xs;
  }

  /** Java's clean-up step for limit 0: strip empty strings off the end. */
  function DropTrailingEmpty(xs: seq<string>): (r: seq<string>)
    ensures r <= xs
    ensures r != [] ==> r[|r| - 1] != ""
    ensures forall k :: |r| <= k < |xs| ==> xs[k] == ""
  {
    if |xs| > 0 && xs[|xs| - 1] == "" then DropTrailingEmpty(xs[..|xs| - 1]) else xs
  }

  /** `s.split(c)`. */
  function Split(s: string, c: char): (r: seq<string>)
    ensures forall k :: 0 <= k < |r| ==> c !in r[k]
    ensures r <= Pieces(s, c)
    ensures forall k :: |r| <= k < |Pieces(s, c)| ==> Pieces(s, c)[k] == ""
    ensures s != "" && r != [] ==> r[|r| - 1] != ""
  {
    if c !in s then [s] else DropTrailingEmpty(Pieces(s, c))
  }

  /** How many copies of `c` end `s`. */
  function TrailingRun(s: string, c: char): (n: nat)
    ensures n <= |s|
    ensures forall k :: |s| - n <= k < |s| ==> s[k] == c
    ensures n < |s| ==> s[|s| - n - 1] != c
  {
    if |s| > 0 && s[|s| - 1] == c then TrailingRun(s[..|s| - 1], c) + 1 else 0
  }

  function Repeat(c: char, n: nat): (r: string)
    ensures |r| == n && forall k :: 0 <= k < n ==> r[k] == c
  {
    seq(n, _ => c)
  }

  /** Joining the full list of pieces gives the string back. */
  lemma {:induction false} JoinPieces(s: string, c: char)
    ensures Join(Pieces(s, c), c) == s
    decreases |s|
  {
    var i := LastIndexOf(s, c);
    if i >= 0 {
      var p := Pieces(s[..i], c);
      JoinPieces(s[..i], c);
      assert Pieces(s, c) == p + [s[i + 1..]];
      JoinSnoc(p, s[i + 1..], c);
      CutAt(s, i);
    }
  }

  /** A string is what lies before position `i`, the character there, and what follows. */
  lemma CutAt(s: string, i: int)
    requires 0 <= i < |s|
    ensures s == s[..i] + [s[i]] + s[i + 1..]
  {
    assert s[..i] + [s[i]] == s[..i + 1];
  }

  /** A separator added at the end adds one empty piece. */
  lemma PiecesOfTrailingSeparator(u: string, c: char)
    ensures Pieces(u + [c], c) == Pieces(u, c) + [""]
  {
    var s := u + [c];
    LastIndexOfAt(s, c, |u|);
    assert s[..|u|] == u && s[|u| + 1..] == "";
  }

  lemma TrailingRunSnoc(u: string, c: char)
    ensures TrailingRun(u + [c], c) == TrailingRun(u, c) + 1
  {
    assert (u + [c])[..|u|] == u;
  }

  lemma RepeatSnoc(c: char, n: nat)
    ensures Repeat(c, n + 1) == Repeat(c, n) + [c]
  {
  }

  /** A separator added at the end adds nothing to the tokens of a string
      that already held one; a string that held none becomes a single token,
      or no token at all when it was empty. */
  lemma SplitOfTrailingSeparator(u: string, c: char)
    ensures Split(u + [c], c) == (if c in u then Split(u, c) else if u == "" then [] else [u])
  {
    var ps := Pieces(u, c);
    PiecesOfTrailingSeparator(u, c);
    assert (ps + [""])[..|ps|] == ps;
    assert Split(u + [c], c) == DropTrailingEmpty(ps);
    if c !in u {
      assert ps == [u];
      if u == "" {
        assert [""][..0] == [];
      }
    }
  }

  /** With no separator at the very end, `split` drops nothing. */
  lemma SplitOfUnterminated(s: string, c: char)
    requires c in s && s[|s| - 1] != c
    ensures Split(s, c) == Pieces(s, c)
  {
    var i := LastIndexOf(s, c);
    assert i < |s| - 1;
    var p := Pieces(s[..i], c) + [s[i + 1..]];
    assert Pieces(s, c) == p && p[|p| - 1] == s[i + 1..] != "";
    assert DropTrailingEmpty(p) == p;
  }

  /** A separator added at the end of a string that holds one keeps the
      rebuilding of that string from its tokens and its trailing run. */
  lemma TrailingSeparatorStep(u: string, c: char)
    requires c in u
    requires Join(Split(u, c), c) + Repeat(c, TrailingRun(u, c)) == u
    ensures Join(Split(u + [c], c), c) + Repeat(c, TrailingRun(u + [c], c)) == u + [c]
  {
    var s, n := u + [c], TrailingRun(u, c);
    calc {
      Join(Split(s, c), c) + Repeat(c, TrailingRun(s, c));
    == { SplitOfTrailingSeparator(u, c); TrailingRunSnoc(u, c); }
      Join(Split(u, c), c) + Repeat(c, n + 1);
    == { RepeatSnoc(c, n); }
      Join(Split(u, c), c) + (Repeat(c, n) + [c]);
    == { AppendOne(Join(Split(u, c), c), Repeat(c, n), u, c); }
      s;
    }
  }

  lemma AppendOne(j: string, r: string, u: string, c: char)
    requires j + r == u
    ensures j + (r + [c]) == u + [c]
  {
    assert j + (r + [c]) == (j + r) + [c];
  }

  /** A string whose only separator is its last character splits into the
      text before it, which the one dropped separator follows. */
  lemma LoneTrailingSeparator(u: string, c: char)
    requires c !in u
    ensures Join(Split(u + [c], c), c) + Repeat(c, TrailingRun(u + [c], c)) == u + [c]
  {
    SplitOfTrailingSeparator(u, c);
    TrailingRunSnoc(u, c);
    assert TrailingRun(u, c) == 0;
    assert Repeat(c, 1) == [c];
  }

  /** The tokens of `split`, joined with `c`, rebuild `s` up to the run of
      separators at its end, which `split` drops. */
  lemma {:induction false} SplitJoin(s: string, c: char)
    ensures Join(Split(s, c), c) + Repeat(c, TrailingRun(s, c)) == s
    decreases |s|
  {
    if c !in s {
      assert TrailingRun(s, c) == 0;
    } else if s[|s| - 1] == c {
      var u := s[..|s| - 1];
      assert s == u + [c];
      if c in u {
        SplitJoin(u, c);
        TrailingSeparatorStep(u, c);
      } else {
        LoneTrailingSeparator(u, c);
      }
    } else {
      SplitOfUnterminated(s, c);
      JoinPieces(s, c);
      assert TrailingRun(s, c) == 0;
    }
  }

  /** In `j + [c] + last` with no `c` in `last`, the added `c` is the last
      separator, with `j` before it and `last` after it. */
  lemma LastSeparatorOfJoin(j: string, c: char, last: string)
    requires c !in last
    ensures var s := j + [c] + last;
      && LastIndexOf(s, c) == |j| && s[..|j|] == j && s[|j| + 1..] == last
  {
    var s := j + [c] + last;
    assert s[|j| + 1..] == last;
    LastIndexOfAt(s, c, |j|);
    assert s[..|j|] == j;
  }

  /** Pieces undoes Join when no element holds the separator. */
  lemma {:induction false} PiecesOfJoin(xs: seq<string>, c: char)
    requires |xs| >= 1
    requires forall k :: 0 <= k < |xs| ==> c !in xs[k]
    ensures Pieces(Join(xs, c), c) == xs
  {
    if |xs| > 1 {
      var init, last := xs[..|xs| - 1], xs[|xs| - 1];
      var j := Join(init, c);
      assert xs == init + [last];
      JoinSnoc(init, last, c);
      LastSeparatorOfJoin(j, c, last);
      PiecesOfJoin(init, c);
    }
  }

  /** Joining tokens with a separator after each one and splitting again gives
      the tokens back, provided they hold no separator and the last is not empty. */
  lemma {:induction false} SplitOfTerminated(xs: seq<string>, c: char)
    requires |xs| >= 1
    requires forall k :: 0 <= k < |xs| ==> c !in xs[k]
    requires xs[|xs| - 1] != ""
    ensures Split(Join(xs, c) + [c], c) == xs
  {
    var s := Join(xs, c) + [c];
    assert LastIndexOf(s, c) == |s| - 1;
    assert s[..|s| - 1] == Join(xs, c);
    PiecesOfJoin(xs, c);
    assert Pieces(s, c) == xs + [""];
    assert (xs + [""])[..|xs|] == xs;
  }
}
