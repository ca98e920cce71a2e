/**
  Strings assembled by concatenation as literal pieces with values in
  between: "A" + v0 + "B" + v1 + "C". Match reads the values back when
  each value stops at the first character of the piece that follows it,
  which is how the quoted attributes and arguments of the generated
  XML and JavaScript delimit their values.
 */
module Templates {
  import opened Wrappers

  /** pieces[0] + values[0] + pieces[1] + ... + values[n-1] + pieces[n]. */
  function Fill(pieces: seq<string>, values: seq<string>): string
    requires |pieces| == |values| + 1
    decreases |values|
  {
    if values == [] then pieces[0]
    else pieces[0] + values[0] + Fill(pieces[1..], values[1..])
  }

  /** Every piece after the first is non-empty, so its first character can
      end the value before it. */
  predicate Delimited(pieces: seq<string>) {
    |pieces| >= 1 && forall i :: 1 <= i < |pieces| ==> pieces[i] != []
  }

  /** No value contains the character that ends it. */
  predicate Fits(pieces: seq<string>, values: seq<string>)
    requires Delimited(pieces) && |pieces| == |values| + 1
  {
    forall i :: 0 <= i < |values| ==> pieces[i + 1][0] !in values[i]
  }

  /** Splits s before the first c, or keeps all of s when c does not occur. */
  function SplitBefore(s: string, c: char): (r: (string, string))
    ensures r.0 + r.1 == s
    ensures c !in r.0
    ensures r.1 == [] || r.1[0] == c
    decreases |s|
  {
    if s == [] then ([], [])
    else if s[0] == c then ([], s)
    else
      var (v, tail) := SplitBefore(s[1..], c);
      assert [s[0]] + s[1..] == s;
      assert [s[0]] + (v + tail) == s;
      ([s[0]] + v, tail)
  }

  /** The values between the pieces, if s has the shape of the pieces. */
  function Match(pieces: seq<string>, s: string): Option<seq<string>>
    requires Delimited(pieces)
    decreases |pieces|
  {
    var p := pieces[0];
    if |s| < |p| || s[..|p|] != p then None
    else if |pieces| == 1 then (if |s| == |p| then Some([]) else None)
    else
      var (v, tail) := SplitBefore(s[|p|..], pieces[1][0]);
      match Match(pieces[1..], tail)
      case None => None
      case Some(vs) => Some([v] + vs)
  }

  lemma {:induction false} FillStartsWith(pieces: seq<string>, values: seq<string>)
    requires |pieces| == |values| + 1
    ensures |pieces[0]| <= |Fill(pieces, values)|
    ensures Fill(pieces, values)[..|pieces[0]|] == pieces[0]
  {
    if values != [] {
      var rest := values[0] + Fill(pieces[1..], values[1..]);
      assert Fill(pieces, values) == pieces[0] + rest;
    }
  }

  lemma {:induction false} SplitBeforeJoin(v: string, t: string, c: char)
    requires c !in v && t != [] && t[0] == c
    ensures SplitBefore(v + t, c) == (v, t)
    decreases |v|
  {
    if v == [] {
      assert v + t == t;
    } else {
      assert v[0] in v && (v + t)[0] == v[0];
      assert (v + t)[1..] == v[1..] + t;
      SplitBeforeJoin(v[1..], t, c);
      assert [v[0]] + v[1..] == v;
    }
  }

  lemma FillCons(pieces: seq<string>, v: string, vs: seq<string>)
    requires |pieces| == |vs| + 2
    ensures Fill(pieces, [v] + vs) == pieces[0] + (v + Fill(pieces[1..], vs))
  {
    assert ([v] + vs)[1..] == vs;
  }

  lemma FillThree(a: string, b: string, c: string, d: string, x: string, y: string, z: string)
    ensures Fill([a, b, c, d], [x, y, z]) == a + x + b + y + c + z + d
  {
    var p, vs := [a, b, c, d], [x, y, z];
    assert p[1..] == [b, c, d] && vs[1..] == [y, z];
    assert p[1..][1..] == [c, d] && vs[1..][1..] == [z];
    assert p[1..][1..][1..] == [d] && vs[1..][1..][1..] == [];
    assert Fill([c, d], [z]) == c + z + d;
    assert Fill([b, c, d], [y, z]) == b + y + (c + z + d);
  }

  lemma FillFour(a: string, b: string, c: string, d: string, e: string,
                 w: string, x: string, y: string, z: string)
    ensures Fill([a, b, c, d, e], [w, x, y, z]) == a + w + b + x + c + y + d + z + e
  {
    var p, vs := [a, b, c, d, e], [w, x, y, z];
    assert p[1..] == [b, c, d, e] && vs[1..] == [x, y, z];
    FillThree(b, c, d, e, x, y, z);
  }

  lemma DelimitedTail(pieces: seq<string>)
    requires Delimited(pieces) && |pieces| >= 2
    ensures Delimited(pieces[1..])
  {
    assert forall i :: 1 <= i < |pieces[1..]| ==> pieces[1..][i] == pieces[i + 1];
  }

  lemma FitsCons(pieces: seq<string>, v: string, vs: seq<string>)
    requires Delimited(pieces) && |pieces| == |vs| + 2
    ensures Delimited(pieces[1..])
    ensures Fits(pieces, [v] + vs) <==> pieces[1][0] !in v && Fits(pieces[1..], vs)
  {
    DelimitedTail(pieces);
    var values := [v] + vs;
    assert values[0] == v;
    forall i | 0 <= i < |vs|
      ensures pieces[1..][i + 1][0] == pieces[i + 2][0] && vs[i] == values[i + 1]
    {
    }
  }

  /** Filling values that fit, then matching, gives the values back. */
  lemma {:induction false} MatchFill(pieces: seq<string>, values: seq<string>)
    requires Delimited(pieces) && |pieces| == |values| + 1 && Fits(pieces, values)
    ensures Match(pieces, Fill(pieces, values)) == Some(values)
    decreases |values|
  {
    var s := Fill(pieces, values);
    var p := pieces[0];
    if values == [] {
      assert s == p;
    } else {
      var v, vs := values[0], values[1..];
      assert values == [v] + vs;
      var tail := Fill(pieces[1..], vs);
      FillCons(pieces, v, vs);
      assert s[..|p|] == p && s[|p|..] == v + tail;
      FillStartsWith(pieces[1..], vs);
      assert tail != [] && tail[0] == pieces[1][0];
      SplitBeforeJoin(v, tail, pieces[1][0]);
      FitsCons(pieces, v, vs);
      MatchFill(pieces[1..], vs);
    }
  }

  /** Whatever Match accepts is the filling of the values it returns, and
      those values fit: Match recognises exactly the fillings. */
  lemma {:induction false} FillMatch(pieces: seq<string>, s: string)
    requires Delimited(pieces) && Match(pieces, s).Some?
    ensures |Match(pieces, s).value| + 1 == |pieces|
    ensures Fits(pieces, Match(pieces, s).value)
    ensures Fill(pieces, Match(pieces, s).value) == s
    decreases |pieces|
  {
    var p := pieces[0];
    if |pieces| == 1 {
      assert s == s[..|p|];
    } else {
      var (v, tail) := SplitBefore(s[|p|..], pieces[1][0]);
      DelimitedTail(pieces);
      FillMatch(pieces[1..], tail);
      var vs := Match(pieces[1..], tail).value;
      assert Match(pieces, s).value == [v] + vs;
      FitsCons(pieces, v, vs);
      FillCons(pieces, v, vs);
      assert s == s[..|p|] + s[|p|..];
    }
  }

  /** Match is the inverse of Fill on fitting values, in both directions. */
  lemma MatchIffFill(pieces: seq<string>, s: string, values: seq<string>)
    requires Delimited(pieces) && |pieces| == |values| + 1
    ensures Match(pieces, s) == Some(values) <==> (Fits(pieces, values) && Fill(pieces, values) == s)
  {
    if Match(pieces, s) == Some(values) {
      FillMatch(pieces, s);
    }
    if Fits(pieces, values) && Fill(pieces, values) == s {
      MatchFill(pieces, values);
    }
  }
}
