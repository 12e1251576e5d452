/** setup.rb compiles shell globs into one anchored regular expression.  Here the text of that
    expression is read back, given the meaning of a regular expression, and compared with the
    meaning of the globs. */
module SetupGlob {
  import opened Options

  // ------------------------------------------------------------------ compilation

  /** GLOB2REGEX, and identity for every other character. */
  function Translate(c: char): string {
    if c == '.' then "\\." else if c == '$' then "\\$" else if c == '#' then "\\#" else if c == '*' then ".*" else [c]
  }

  function Gsub(pat: string): string {
    if pat == "" then "" else Translate(pat[0]) + Gsub(pat[1..])
  }

  /** map and join('|') */
  function Join(pats: seq<string>): string {
    if pats == [] then "" else if |pats| == 1 then Gsub(pats[0]) else Gsub(pats[0]) + "|" + Join(pats[1..])
  }

  // ------------------------------------------------------------ regular expressions

  datatype Atom = Lit(c: char) | Dot
  datatype Piece = One(a: Atom) | Star(a: Atom)
  type Alternatives = Option<seq<seq<Piece>>>

  predicate Special(c: char) {
    c in "\\^$.|?*+()[]{}"
  }

  /** The text between \A(?: and )\z as alternatives; None for syntax outside this fragment. */
  function Read(re: string): (alts: Alternatives)
    ensures alts.Some? ==> alts.value != []
    decreases |re|, 0
  {
    if re == "" then Some([[]])
    else if re[0] == '|' then
      match Read(re[1..]) case None => None case Some(alts) => Some([[]] + alts)
    else if re[0] == '\\' then
      if |re| == 1 then None else Repeat(Lit(re[1]), re[2..])
    else if re[0] == '.' then Repeat(Dot, re[1..])
    else if Special(re[0]) then None
    else Repeat(Lit(re[0]), re[1..])
  }

  /** An atom, with the star that may follow it. */
  function Repeat(a: Atom, re: string): (alts: Alternatives)
    ensures alts.Some? ==> alts.value != []
    decreases |re|, 1
  {
    if re != "" && re[0] == '*' then Prepend(Star(a), Read(re[1..])) else Prepend(One(a), Read(re))
  }

  function Prepend(p: Piece, alts: Alternatives): (r: Alternatives)
    requires alts.Some? ==> alts.value != []
    ensures r.Some? ==> r.value != []
  {
    match alts case None => None case Some(v) => Some([[p] + v[0]] + v[1..])
  }

  predicate AtomMatches(a: Atom, c: char) {
    match a case Lit(d) => c == d case Dot => c != '\n'
  }

  predicate PiecesMatch(ps: seq<Piece>, s: string)
    decreases |ps| + |s|
  {
    if ps == [] then s == ""
    else match ps[0]
      case One(a) => s != "" && AtomMatches(a, s[0]) && PiecesMatch(ps[1..], s[1..])
      case Star(a) => PiecesMatch(ps[1..], s) || (s != "" && AtomMatches(a, s[0]) && PiecesMatch(ps, s[1..]))
  }

  /** The compiled expression =~ name. */
  predicate RegexMatches(pats: seq<string>, s: string) {
    match Read(Join(pats)) case None => false case Some(alts) => exists i :: 0 <= i < |alts| && PiecesMatch(alts[i], s)
  }

  // ------------------------------------------------------------------------ globs

  /** What a glob means: a star stands for any string, every other character for itself. */
  ghost predicate GlobMatches(pat: string, s: string)
    decreases |pat|
  {
    if pat == "" then s == ""
    else if pat[0] == '*' then exists k :: 0 <= k <= |s| && GlobMatches(pat[1..], s[k..])
    else s != "" && s[0] == pat[0] && GlobMatches(pat[1..], s[1..])
  }

  /** The pattern alphabet: ordinary characters and the four that are translated. */
  predicate Plain(pat: string) {
    forall i :: 0 <= i < |pat| ==> pat[i] in ".$#*" || !Special(pat[i])
  }

  function Pieces(pat: string): seq<Piece> {
    if pat == "" then []
    else [if pat[0] == '*' then Star(Dot) else One(Lit(pat[0]))] + Pieces(pat[1..])
  }

  /** Text that ends an alternative. */
  predicate Ends(tail: string) {
    tail == "" || tail[0] == '|'
  }

  function Extend(ps: seq<Piece>, alts: Alternatives): (r: Alternatives)
    requires alts.Some? ==> alts.value != []
    ensures r.Some? ==> r.value != []
  {
    match alts case None => None case Some(v) => Some([ps + v[0]] + v[1..])
  }

  lemma GsubStart(pat: string, tail: string)
    requires Plain(pat) && Ends(tail)
    ensures Gsub(pat) + tail == "" || (Gsub(pat) + tail)[0] != '*'
  {
  }

  /** Reading one translated character. */
  lemma ReadTranslated(c: char, rest: string)
    requires c in ".$#*" || !Special(c)
    requires rest == "" || rest[0] != '*'
    ensures Read(Translate(c) + rest) == Prepend(if c == '*' then Star(Dot) else One(Lit(c)), Read(rest))
  {
    var re := Translate(c) + rest;
    if c == '*' {
      assert re[0] == '.' && re[1..][0] == '*' && re[1..][1..] == rest;
    } else if c in ".$#" {
      assert re[0] == '\\' && re[1] == c && re[2..] == rest;
    } else {
      assert re[0] == c && re[1..] == rest;
    }
  }

  lemma {:induction false} ReadGsub(pat: string, tail: string)
    requires Plain(pat) && Ends(tail)
    ensures Read(Gsub(pat) + tail) == Extend(Pieces(pat), Read(tail))
  {
    var alts := Read(tail);
    if pat == "" {
      assert Gsub(pat) + tail == tail;
      if alts.Some? { assert [[] + alts.value[0]] + alts.value[1..] == alts.value; }
    } else {
      var rest := Gsub(pat[1..]) + tail;
      assert Gsub(pat) + tail == Translate(pat[0]) + rest;
      GsubStart(pat[1..], tail);
      ReadTranslated(pat[0], rest);
      ReadGsub(pat[1..], tail);
      if alts.Some? { assert Pieces(pat) + alts.value[0] == [Pieces(pat)[0]] + (Pieces(pat[1..]) + alts.value[0]); }
    }
  }

  function AllPieces(pats: seq<string>): seq<seq<Piece>> {
    if pats == [] then [] else [Pieces(pats[0])] + AllPieces(pats[1..])
  }

  lemma {:induction false} AllPiecesAt(pats: seq<string>)
    ensures |AllPieces(pats)| == |pats| && forall i :: 0 <= i < |pats| ==> AllPieces(pats)[i] == Pieces(pats[i])
  {
    if pats != [] {
      AllPiecesAt(pats[1..]);
      forall i | 0 <= i < |pats|
        ensures AllPieces(pats)[i] == Pieces(pats[i])
      {
        if i > 0 { assert pats[i] == pats[1..][i - 1]; }
      }
    }
  }

  /** One more pattern in front of text that already reads back as `alts`. */
  lemma ReadCons(p: string, re: string, alts: seq<seq<Piece>>)
    requires Plain(p) && Read(re) == Some(alts)
    ensures Read(Gsub(p) + "|" + re) == Some([Pieces(p)] + alts)
  {
    var tail := "|" + re;
    assert tail[1..] == re && Gsub(p) + "|" + re == Gsub(p) + tail;
    assert Read(tail) == Some([[]] + alts);
    ReadGsub(p, tail);
    assert Pieces(p) + [] == Pieces(p) && ([[]] + alts)[1..] == alts;
  }

  lemma ReadLast(p: string)
    requires Plain(p)
    ensures Read(Gsub(p)) == Some([Pieces(p)])
  {
    ReadGsub(p, "");
    var none: seq<seq<Piece>> := [[]];
    assert Gsub(p) + "" == Gsub(p) && Pieces(p) + [] == Pieces(p);
    assert [Pieces(p)] + none[1..] == [Pieces(p)];
  }

  /** The compiled text reads back as one alternative for each pattern. */
  lemma {:induction false} ReadJoin(pats: seq<string>)
    requires forall i :: 0 <= i < |pats| ==> Plain(pats[i])
    ensures Read(Join(pats)) == Some(if pats == [] then [[]] else AllPieces(pats))
  {
    if |pats| == 1 {
      ReadLast(pats[0]);
      assert pats[1..] == [] && AllPieces([]) == [];
      assert [Pieces(pats[0])] + [] == [Pieces(pats[0])];
    } else if |pats| > 1 {
      ReadJoin(pats[1..]);
      ReadCons(pats[0], Join(pats[1..]), AllPieces(pats[1..]));
    }
  }

  lemma {:induction false} StarDot(ps: seq<Piece>, s: string)
    requires '\n' !in s
    ensures PiecesMatch([Star(Dot)] + ps, s) <==> exists k :: 0 <= k <= |s| && PiecesMatch(ps, s[k..])
    decreases |s|
  {
    var all := [Star(Dot)] + ps;
    assert all[1..] == ps && s[0..] == s;
    if s != "" {
      StarDot(ps, s[1..]);
      assert s[0] in s;
      forall k | 1 <= k <= |s|
        ensures s[k..] == s[1..][k - 1..]
      {
      }
      if PiecesMatch(all, s[1..]) {
        var k :| 0 <= k <= |s[1..]| && PiecesMatch(ps, s[1..][k..]);
        assert s[k + 1..] == s[1..][k..];
      }
      if k :| 0 <= k <= |s| && PiecesMatch(ps, s[k..]) {
        if k > 0 { assert PiecesMatch(ps, s[1..][k - 1..]); }
      }
    }
  }

  /** One pattern: its pieces match what the glob matches. */
  lemma {:induction false} PiecesAreGlob(pat: string, s: string)
    requires '\n' !in s
    ensures PiecesMatch(Pieces(pat), s) <==> GlobMatches(pat, s)
    decreases |pat|
  {
    if pat != "" {
      if pat[0] == '*' {
        StarDot(Pieces(pat[1..]), s);
        forall k | 0 <= k <= |s|
          ensures PiecesMatch(Pieces(pat[1..]), s[k..]) <==> GlobMatches(pat[1..], s[k..])
        {
          PiecesAreGlob(pat[1..], s[k..]);
        }
      } else if s != "" {
        PiecesAreGlob(pat[1..], s[1..]);
        assert Pieces(pat)[1..] == Pieces(pat[1..]);
      }
    }
  }

  /** Compilation preserves meaning, for all pattern lists over the alphabet and all names without a
      newline: the compiled expression matches exactly when some pattern does.  The one exception
      is the empty list, whose expression still matches the empty name. */
  lemma GlobCompilation(pats: seq<string>, s: string)
    requires (forall p :: p in pats ==> Plain(p)) && '\n' !in s
    ensures RegexMatches(pats, s) <==> Chosen(pats, s)
  {
    ReadJoin(pats);
    AllPiecesAt(pats);
    var alts := Read(Join(pats)).value;
    if pats == [] {
      assert PiecesMatch(alts[0], s) <==> s == "";
    } else {
      forall i | 0 <= i < |pats|
        ensures PiecesMatch(alts[i], s) <==> GlobMatches(pats[i], s)
      {
        PiecesAreGlob(pats[i], s);
      }
      if p :| p in pats && GlobMatches(p, s) {
        var i :| 0 <= i < |pats| && pats[i] == p;
        assert PiecesMatch(alts[i], s);
      }
    }
  }

  // ------------------------------------------------------------- select and reject

  function Select(pats: seq<string>, ents: seq<string>): seq<string> {
    if ents == [] then []
    else (if RegexMatches(pats, ents[0]) then [ents[0]] else []) + Select(pats, ents[1..])
  }

  function Reject(pats: seq<string>, ents: seq<string>): seq<string> {
    if ents == [] then []
    else (if RegexMatches(pats, ents[0]) then [] else [ents[0]]) + Reject(pats, ents[1..])
  }

  /** What the compiled expression selects: some pattern matches, or there is no pattern and no name. */
  ghost predicate Chosen(pats: seq<string>, s: string) {
    (exists p :: p in pats && GlobMatches(p, s)) || (pats == [] && s == "")
  }

  /** `s` is `t` with some elements left out: the order is kept. */
  predicate Subsequence(s: seq<string>, t: seq<string>) {
    s == [] || (t != [] && ((s[0] == t[0] && Subsequence(s[1..], t[1..])) || Subsequence(s, t[1..])))
  }

  lemma {:induction false} Partition(pats: seq<string>, ents: seq<string>)
    requires (forall p :: p in pats ==> Plain(p)) && forall e :: e in ents ==> '\n' !in e
    ensures multiset(Select(pats, ents)) + multiset(Reject(pats, ents)) == multiset(ents)
    ensures forall e :: e in Select(pats, ents) <==> e in ents && Chosen(pats, e)
    ensures forall e :: e in Reject(pats, ents) <==> e in ents && !Chosen(pats, e)
  {
    if ents != [] {
      var e := ents[0];
      assert e in ents && ents == [e] + ents[1..];
      assert forall x :: x in ents <==> x == e || x in ents[1..];
      GlobCompilation(pats, e);
      Partition(pats, ents[1..]);
    }
  }

  lemma {:induction false} KeepOrder(pats: seq<string>, ents: seq<string>)
    ensures Subsequence(Select(pats, ents), ents) && Subsequence(Reject(pats, ents), ents)
  {
    if ents != [] {
      KeepOrder(pats, ents[1..]);
      var s, r := Select(pats, ents), Reject(pats, ents);
      if RegexMatches(pats, ents[0]) {
        assert s[0] == ents[0] && s[1..] == Select(pats, ents[1..]);
        assert r == Reject(pats, ents[1..]);
      } else {
        assert r[0] == ents[0] && r[1..] == Reject(pats, ents[1..]);
        assert s == Select(pats, ents[1..]);
      }
    }
  }

  /** With the same patterns, select and reject split any list of names: nothing is lost or doubled, both keep
      the order, and a name is selected exactly when some pattern matches it as a glob. */
  lemma SelectRejectPartition(pats: seq<string>, ents: seq<string>)
    requires (forall p :: p in pats ==> Plain(p)) && forall e :: e in ents ==> '\n' !in e
    ensures multiset(Select(pats, ents)) + multiset(Reject(pats, ents)) == multiset(ents)
    ensures Subsequence(Select(pats, ents), ents) && Subsequence(Reject(pats, ents), ents)
    ensures forall e :: e in Select(pats, ents) <==> e in ents && Chosen(pats, e)
    ensures forall e :: e in Reject(pats, ents) <==> e in ents && !Chosen(pats, e)
  {
    Partition(pats, ents);
    KeepOrder(pats, ents);
  }
}
