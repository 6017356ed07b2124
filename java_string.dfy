/** The behaviour of Java's `String.split(" ")` (a one-character, non-regex
    separator and the default limit 0): the string is cut at every space, and
    then trailing empty tokens are dropped; a string without any space is
    returned whole, so the empty string gives one empty token. */
module JavaString {

  /** Index of the first space in `s` (Java's `indexOf(' ')`). */
  function FirstSpace(s: string): (i: nat)
    requires ' ' in s
    ensures i < |s| && s[i] == ' '
    ensures ' ' !in s[..i]
  {
    if s[0] == ' ' then 0
    else
      var j := FirstSpace(s[1..]);
      assert s[..j + 1] == [s[0]] + s[1..][..j];
      j + 1
  }

  /** The pieces of `s` between consecutive spaces, every empty piece kept. */
  function Pieces(s: string): (ps: seq<string>)
    ensures |ps| >= 1
    decreases |s|
  {
    if ' ' !in s then [s]
    else
      var i := FirstSpace(s);
      [s[..i]] + Pieces(s[i + 1..])
  }

  /** The tokens joined back together with single spaces. */
  function Join(ps: seq<string>): (s: string)
    requires |ps| >= 1
  {
    if |ps| == 1 then ps[0] else ps[0] + " " + Join(ps[1..])
  }

  /** Java's `split` with limit 0 drops every trailing empty token. */
  function TrimTrailingEmpty(ps: seq<string>): (ts: seq<string>)
  {
    if ps != [] && ps[|ps| - 1] == "" then TrimTrailingEmpty(ps[..|ps| - 1]) else ps
  }

  /** `s.split(" ")`. */
  function Split(s: string): (ts: seq<string>)
    ensures ' ' !in s ==> ts == [s]
    ensures ' ' in s ==> |ts| <= |Pieces(s)| && (ts == [] || ts[|ts| - 1] != "")
  {
    if ' ' !in s then [s]
    else
      TrimTrailingEmptySpec(Pieces(s));
      TrimTrailingEmpty(Pieces(s))
  }

  function Empties(n: nat): (r: seq<string>)
  {
    seq(n, _ => "")
  }

  function Spaces(n: nat): (r: string)
  {
    seq(n, _ => ' ')
  }

  ghost predicate SpaceFree(ps: seq<string>)
  {
    forall k :: 0 <= k < |ps| ==> ' ' !in ps[k]
  }

  /** No piece contains the separator. */
  lemma {:induction false} PiecesSpaceFree(s: string)
    ensures SpaceFree(Pieces(s))
    decreases |s|
  {
    if ' ' in s {
      var i := FirstSpace(s);
      PiecesSpaceFree(s[i + 1..]);
    }
  }

  /** Joining the pieces with single spaces gives back the string. */
  lemma {:induction false} JoinPieces(s: string)
    ensures Join(Pieces(s)) == s
    decreases |s|
  {
    if ' ' in s {
      var i := FirstSpace(s);
      JoinPieces(s[i + 1..]);
      var ps := Pieces(s);
      assert ps[1..] == Pieces(s[i + 1..]);
      assert s == s[..i] + " " + s[i + 1..];
    }
  }

  /** The pieces are the only space-free sequence that joins to `s`: `Pieces`
      is the cutting at every space and nothing else. */
  lemma {:induction false} PiecesUnique(s: string, ps: seq<string>)
    requires |ps| >= 1 && SpaceFree(ps) && Join(ps) == s
    ensures ps == Pieces(s)
    decreases |ps|
  {
    if |ps| == 1 {
      assert ' ' !in ps[0];
    } else {
      var n := |ps[0]|;
      var rest := Join(ps[1..]);
      assert s == ps[0] + " " + rest;
      assert s[n] == ' ';
      assert s[..n] == ps[0];
      var i := FirstSpace(s);
      assert i == n;
      assert s[i + 1..] == rest;
      PiecesUnique(rest, ps[1..]);
    }
  }

  /** What the trimming keeps: a prefix followed only by empty tokens, and a
      last token that is not empty. */
  lemma {:induction false} TrimTrailingEmptySpec(ps: seq<string>)
    ensures |TrimTrailingEmpty(ps)| <= |ps|
    ensures ps == TrimTrailingEmpty(ps) + Empties(|ps| - |TrimTrailingEmpty(ps)|)
    ensures TrimTrailingEmpty(ps) == [] || TrimTrailingEmpty(ps)[|TrimTrailingEmpty(ps)| - 1] != ""
    decreases |ps|
  {
    if ps != [] && ps[|ps| - 1] == "" {
      var init := ps[..|ps| - 1];
      TrimTrailingEmptySpec(init);
      var r := TrimTrailingEmpty(init);
      assert TrimTrailingEmpty(ps) == r;
      var k := |init| - |r|;
      assert Empties(k) + [""] == Empties(k + 1);
      calc {
        ps;
        init + [""];
        (r + Empties(k)) + [""];
        r + (Empties(k) + [""]);
        r + Empties(k + 1);
      }
    } else {
      assert ps + Empties(0) == ps;
    }
  }

  /** Every token of `split` is free of spaces, and the tokens are the pieces
      minus the dropped trailing empty ones (the length bound and the non-empty
      last token are part of `Split`'s own contract). */
  lemma SplitSpec(s: string)
    ensures SpaceFree(Split(s))
    ensures ' ' in s ==> Pieces(s) == Split(s) + Empties(|Pieces(s)| - |Split(s)|)
  {
    PiecesSpaceFree(s);
    if ' ' in s {
      var ps := Pieces(s);
      var t := TrimTrailingEmpty(ps);
      assert Split(s) == t;
      TrimTrailingEmptySpec(ps);
      PrefixSpaceFree(ps, t, |ps| - |t|);
    }
  }

  lemma PrefixSpaceFree(ps: seq<string>, t: seq<string>, n: nat)
    requires SpaceFree(ps) && ps == t + Empties(n)
    ensures SpaceFree(t)
  {
    forall k | 0 <= k < |t| ensures ' ' !in t[k] {
      assert t[k] == ps[k];
    }
  }

  /** Splitting a string made of given space-free tokens gives back those
      tokens, provided that, when there are several, the last one is not empty. */
  lemma SplitOfJoin(ts: seq<string>)
    requires |ts| >= 1 && SpaceFree(ts)
    requires |ts| >= 2 ==> ts[|ts| - 1] != ""
    ensures Split(Join(ts)) == ts
  {
    if |ts| == 1 {
      assert Join(ts) == ts[0] && ' ' !in ts[0];
    } else {
      var s := Join(ts);
      PiecesUnique(s, ts);
      JoinHasSpace(ts);
      TrimKeepsNonEmptyLast(ts);
    }
  }

  lemma TrimKeepsNonEmptyLast(ts: seq<string>)
    requires ts != [] && ts[|ts| - 1] != ""
    ensures TrimTrailingEmpty(ts) == ts
  {
  }

  lemma JoinHasSpace(ts: seq<string>)
    requires |ts| >= 2
    ensures ' ' in Join(ts)
  {
    var n := |ts[0]|;
    assert Join(ts) == ts[0] + " " + Join(ts[1..]);
    assert Join(ts)[n] == ' ';
  }

  lemma {:induction false} JoinAppendEmpties(r: seq<string>, n: nat)
    requires |r| >= 1
    ensures Join(r + Empties(n)) == Join(r) + Spaces(n)
    decreases |r|
  {
    if |r| == 1 {
      JoinEmpties(r[0], n);
    } else {
      assert (r + Empties(n))[1..] == r[1..] + Empties(n);
      JoinAppendEmpties(r[1..], n);
    }
  }

  lemma {:induction false} JoinEmpties(t: string, n: nat)
    ensures Join([t] + Empties(n)) == t + Spaces(n)
    decreases n
  {
    if n > 0 {
      assert ([t] + Empties(n))[1..] == [""] + Empties(n - 1);
      JoinEmpties("", n - 1);
      assert Join([""] + Empties(n - 1)) == Spaces(n - 1);
      assert t + " " + Spaces(n - 1) == t + Spaces(n);
    } else {
      assert [t] + Empties(0) == [t];
      assert t + Spaces(0) == t;
    }
  }

  /** Round trip: joining the tokens with single spaces gives the input with
      its trailing spaces removed. */
  lemma SplitJoin(s: string)
    requires Split(s) != []
    ensures exists n: nat :: s == Join(Split(s)) + Spaces(n)
  {
    JoinPieces(s);
    if ' ' in s {
      SplitSpec(s);
      var t := Split(s);
      var n := |Pieces(s)| - |t|;
      JoinAppendEmpties(t, n);
      assert s == Join(t) + Spaces(n);
    } else {
      assert s == s + Spaces(0);
    }
  }

  ghost predicate OnlySpaces(s: string)
  {
    s != "" && forall k :: 0 <= k < |s| ==> s[k] == ' '
  }

  lemma NoTokensOnlySpaces(s: string)
    requires Split(s) == []
    ensures OnlySpaces(s)
  {
    if ' ' in s {
      SplitSpec(s);
      var ps := Pieces(s);
      assert ps == Empties(|ps|);
      JoinPieces(s);
      JoinEmpties("", |ps| - 1);
      assert ps == [""] + Empties(|ps| - 1);
      assert s == Spaces(|ps| - 1);
    }
  }

  lemma OnlySpacesNoTokens(s: string)
    requires OnlySpaces(s)
    ensures Split(s) == []
  {
    assert s[0] in s;
    var es := Empties(|s| + 1);
    JoinEmpties("", |s|);
    assert es == [""] + Empties(|s|);
    assert Spaces(|s|) == s;
    PiecesUnique(s, es);
    TrimEmpties(|s| + 1);
  }

  lemma {:induction false} TrimEmpties(n: nat)
    ensures TrimTrailingEmpty(Empties(n)) == []
  {
    if n > 0 {
      assert Empties(n)[..n - 1] == Empties(n - 1);
      TrimEmpties(n - 1);
    }
  }

  /** `split` yields no token at all exactly for a non-empty run of spaces. */
  lemma SplitEmptyIffOnlySpaces(s: string)
    ensures Split(s) == [] <==> OnlySpaces(s)
  {
    if Split(s) == [] {
      NoTokensOnlySpaces(s);
    }
    if OnlySpaces(s) {
      OnlySpacesNoTokens(s);
    }
  }
}
