/** setup.rb expands $name references in configuration values, recursively through the table. */
module SetupConfig {

  /** An item that holds a value, or one that may not be used as a value (ExecItem). */
  datatype Item = Value(text: string) | Exec

  type Table = map<string, Item>

  datatype Result = Ok(text: string) | NoSuchItem | WronglyUsed | TooDeep

  /** The length of the longest prefix without a slash: [^/]+ is greedy. */
  function Run(s: string): (n: nat)
    ensures n <= |s| && (s != "" && s[0] != '/' ==> n >= 1)
    ensures n < |s| ==> s[n] == '/'
    ensures '/' !in s[..n]
  {
    if s == "" || s[0] == '/' then 0 else
    var n := Run(s[1..]);
    assert s[..n + 1] == [s[0]] + s[1..][..n];
    n + 1
  }

  predicate Reference(s: string) {
    |s| >= 2 && s[0] == '$' && s[1] != '/'
  }

  /** Item#resolve and ConfigTable#[]: `fuel` bounds the depth of nested references, which the
      program leaves to the stack. */
  function Expand(t: Table, s: string, fuel: nat): Result
    decreases fuel, |s|
  {
    if s == "" then Ok("")
    else if Reference(s) then
      var n := Run(s[1..]);
      var head := Lookup(t, s[1..1 + n], fuel);
      if !head.Ok? then head else
      var tail := Expand(t, s[1 + n..], fuel);
      if !tail.Ok? then tail else Ok(head.text + tail.text)
    else
      var tail := Expand(t, s[1..], fuel);
      if !tail.Ok? then tail else Ok([s[0]] + tail.text)
  }

  function Lookup(t: Table, name: string, fuel: nat): Result
    decreases fuel, 0
  {
    if name !in t then NoSuchItem
    else if t[name].Exec? then WronglyUsed
    else if fuel == 0 then TooDeep
    else Expand(t, t[name].text, fuel - 1)
  }

  /** The names that a value refers to. */
  function Refs(s: string): set<string>
    decreases |s|
  {
    if s == "" then {}
    else if Reference(s) then var n := Run(s[1..]); {s[1..1 + n]} + Refs(s[1 + n..])
    else Refs(s[1..])
  }

  /** No `$` is left in front of anything but a slash. */
  ghost predicate Clean(s: string) {
    forall i :: 0 <= i < |s| - 1 && s[i] == '$' ==> s[i + 1] == '/'
  }

  lemma ExpandStart(t: Table, s: string, fuel: nat)
    requires (s == "" || s[0] == '/') && Expand(t, s, fuel).Ok?
    ensures var r := Expand(t, s, fuel).text; if s == "" then r == "" else r != "" && r[0] == '/'
  {
  }

  lemma CleanConcat(a: string, b: string)
    requires Clean(a) && Clean(b) && (b == "" || b[0] == '/' || a == "" || a[|a| - 1] != '$')
    ensures Clean(a + b)
  {
    var s := a + b;
    forall i | 0 <= i < |s| - 1 && s[i] == '$'
      ensures s[i + 1] == '/'
    {
      if i >= |a| { assert b[i - |a|] == '$' && b[i + 1 - |a|] == s[i + 1]; }
    }
  }

  /** Expansion is complete: whatever the table, a result has no reference left. */
  lemma {:induction false} ExpandIsClean(t: Table, s: string, fuel: nat)
    requires Expand(t, s, fuel).Ok?
    ensures Clean(Expand(t, s, fuel).text)
    decreases fuel, |s|
  {
    if s != "" {
      if Reference(s) {
        var n := Run(s[1..]);
        var name, rest := s[1..1 + n], s[1 + n..];
        ExpandIsClean(t, t[name].text, fuel - 1);
        ExpandIsClean(t, rest, fuel);
        assert n < |s[1..]| ==> rest[0] == s[1..][n];
        ExpandStart(t, rest, fuel);
        CleanConcat(Lookup(t, name, fuel).text, Expand(t, rest, fuel).text);
      } else {
        ExpandIsClean(t, s[1..], fuel);
        if s[0] == '$' { ExpandStart(t, s[1..], fuel); }
        CleanConcat([s[0]], Expand(t, s[1..], fuel).text);
      }
    }
  }

  /** A clean text expands to itself, in any table. */
  lemma {:induction false} CleanIsFixed(t: Table, s: string, fuel: nat)
    requires Clean(s)
    ensures Expand(t, s, fuel) == Ok(s) && Refs(s) == {}
    decreases |s|
  {
    if s != "" {
      assert !Reference(s);
      assert forall i :: 0 <= i < |s[1..]| ==> s[1..][i] == s[i + 1];
      CleanIsFixed(t, s[1..], fuel);
      assert s == [s[0]] + s[1..];
    }
  }

  /** Expansion is idempotent on its result, in any table and at any depth. */
  lemma ExpandIdempotent(t: Table, s: string, fuel: nat, t': Table, fuel': nat)
    requires Expand(t, s, fuel).Ok?
    ensures Expand(t', Expand(t, s, fuel).text, fuel') == Expand(t, s, fuel)
  {
    ExpandIsClean(t, s, fuel);
    CleanIsFixed(t', Expand(t, s, fuel).text, fuel');
  }

  // ------------------------------------------------------------------------ meaning

  /** A value is a string of literal characters and references. */
  datatype Piece = Char(c: char) | Name(name: string)

  function Render(ps: seq<Piece>): string {
    if ps == [] then "" else
    (match ps[0] case Char(c) => [c] case Name(name) => "$" + name) + Render(ps[1..])
  }

  /** How the pattern reads a text: a reference is a `$` with as many characters other than a slash as
      follow, and at least one; a `$` with none is a literal. */
  ghost predicate WellCut(ps: seq<Piece>) {
    forall i :: 0 <= i < |ps| && (ps[i].Name? || ps[i].c == '$') ==>
      && (i + 1 == |ps| || ps[i + 1] == Char('/'))
      && (ps[i].Name? ==> ps[i].name != "" && '/' !in ps[i].name)
  }

  function Cut(s: string): seq<Piece>
    decreases |s|
  {
    if s == "" then []
    else if Reference(s) then var n := Run(s[1..]); [Name(s[1..1 + n])] + Cut(s[1 + n..])
    else [Char(s[0])] + Cut(s[1..])
  }

  lemma CutStart(s: string)
    requires s == "" || s[0] == '/'
    ensures Cut(s) == [] || Cut(s)[0] == Char('/')
  {
  }

  lemma WellCutCons(p: Piece, ps: seq<Piece>)
    requires WellCut(ps)
    requires p.Name? || p.c == '$' ==> ps == [] || ps[0] == Char('/')
    requires p.Name? ==> p.name != "" && '/' !in p.name
    ensures WellCut([p] + ps)
    ensures Render([p] + ps) == (if p.Char? then [p.c] else "$" + p.name) + Render(ps)
  {
    var qs := [p] + ps;
    assert qs[1..] == ps;
    assert forall i :: 1 <= i < |qs| ==> qs[i] == ps[i - 1];
  }

  lemma ReferenceParts(s: string)
    requires Reference(s)
    ensures
      var n := Run(s[1..]);
      var name, rest := s[1..1 + n], s[1 + n..];
      && s == "$" + name + rest && name != "" && '/' !in name && (rest == "" || rest[0] == '/')
  {
    var n := Run(s[1..]);
    assert s[1..1 + n] == s[1..][..n];
    assert s == s[..1] + s[1..1 + n] + s[1 + n..];
  }

  /** Every text can be read in this way ... */
  lemma {:induction false} CutReads(s: string)
    ensures WellCut(Cut(s)) && Render(Cut(s)) == s
    decreases |s|
  {
    if s != "" {
      if Reference(s) {
        var n := Run(s[1..]);
        var name, rest := s[1..1 + n], s[1 + n..];
        ReferenceParts(s);
        CutReads(rest);
        CutStart(rest);
        WellCutCons(Name(name), Cut(rest));
      } else {
        CutReads(s[1..]);
        if s[0] == '$' { CutStart(s[1..]); }
        WellCutCons(Char(s[0]), Cut(s[1..]));
      }
    }
  }

  lemma {:induction false} CutNames(s: string)
    ensures forall name :: Name(name) in Cut(s) <==> name in Refs(s)
    decreases |s|
  {
    if s != "" {
      CutNames(if Reference(s) then s[1 + Run(s[1..])..] else s[1..]);
    }
  }

  lemma {:induction false} RunStops(name: string, rest: string)
    requires '/' !in name && (rest == "" || rest[0] == '/')
    ensures Run(name + rest) == |name|
  {
    if name != "" {
      assert (name + rest)[1..] == name[1..] + rest;
      RunStops(name[1..], rest);
    }
  }

  lemma WellCutTail(ps: seq<Piece>)
    requires WellCut(ps) && ps != []
    ensures WellCut(ps[1..])
    ensures ps[0].Name? || ps[0].c == '$' ==> Render(ps[1..]) == "" || Render(ps[1..])[0] == '/'
  {
  }

  /** What a rendered list starts with. */
  lemma RenderHead(ps: seq<Piece>)
    requires WellCut(ps) && ps != []
    ensures
      var s, rest := Render(ps), Render(ps[1..]);
      match ps[0]
      case Char(c) => s != "" && s[0] == c && s[1..] == rest && !Reference(s)
      case Name(name) =>
        Reference(s) && Run(s[1..]) == |name| && s[1..1 + |name|] == name && s[1 + |name|..] == rest
  {
    var s, rest := Render(ps), Render(ps[1..]);
    WellCutTail(ps);
    if ps[0].Name? {
      var name := ps[0].name;
      assert s == "$" + name + rest && s[1..] == name + rest;
      RunStops(name, rest);
      assert s[1] == name[0] && name[0] in name;
    }
  }

  /** ... in exactly one way. */
  lemma {:induction false} CutUnique(ps: seq<Piece>)
    requires WellCut(ps)
    ensures Cut(Render(ps)) == ps
  {
    if ps != [] {
      RenderHead(ps);
      WellCutTail(ps);
      CutUnique(ps[1..]);
    }
  }

  /** Every name has a text. */
  ghost predicate Known(ps: seq<Piece>, val: map<string, string>) {
    forall name :: Name(name) in ps ==> name in val
  }

  /** Literals stay where they are, references become texts. */
  function Substitute(ps: seq<Piece>, val: map<string, string>): string
    requires Known(ps, val)
  {
    if ps == [] then "" else
    (match ps[0] case Char(c) => [c] case Name(name) => val[name]) + Substitute(ps[1..], val)
  }

  /** The resolved text is the value with each reference replaced by the resolved text of its item, and
      everything else kept, in order. */
  lemma {:induction false} ExpandSubstitutes(t: Table, ps: seq<Piece>, val: map<string, string>, fuel: nat)
    requires WellCut(ps) && Known(ps, val)
    requires forall name :: Name(name) in ps ==> Lookup(t, name, fuel) == Ok(val[name])
    ensures Expand(t, Render(ps), fuel) == Ok(Substitute(ps, val))
    decreases |ps|
  {
    if ps != [] {
      RenderHead(ps);
      WellCutTail(ps);
      ExpandSubstitutes(t, ps[1..], val, fuel);
    }
  }

  /** If some reference does not resolve, the first such one decides the error. */
  lemma {:induction false} ExpandFails(t: Table, ps: seq<Piece>, i: nat, fuel: nat)
    requires WellCut(ps) && i < |ps| && ps[i].Name? && !Lookup(t, ps[i].name, fuel).Ok?
    requires forall j :: 0 <= j < i && ps[j].Name? ==> Lookup(t, ps[j].name, fuel).Ok?
    ensures Expand(t, Render(ps), fuel) == Lookup(t, ps[i].name, fuel)
    decreases |ps|
  {
    RenderHead(ps);
    if i > 0 {
      WellCutTail(ps);
      ExpandFails(t, ps[1..], i - 1, fuel);
    }
  }

  /** What a name stands for: an unknown one and one without a value are different errors. */
  lemma LookupDecides(t: Table, name: string, fuel: nat)
    ensures
      var r := Lookup(t, name, fuel + 1);
      if name !in t then r == NoSuchItem
      else match t[name]
        case Exec => r == WronglyUsed
        case Value(text) => r == Expand(t, text, fuel)
  {
  }

  /** A table read as equations, without any order of evaluation: each name's text is its value with the
      other names' texts filled in. */
  ghost predicate Solves(t: Table, val: map<string, string>) {
    forall name :: name in val ==>
      && name in t && t[name].Value? && Known(Cut(t[name].text), val)
      && val[name] == Substitute(Cut(t[name].text), val)
  }

  ghost function Texts(t: Table, fuel: nat): map<string, string> {
    map name | name in t && Lookup(t, name, fuel).Ok? :: Lookup(t, name, fuel).text
  }

  /** What has resolved at some depth solves the equations. */
  lemma TextsSolve(t: Table, fuel: nat)
    ensures Solves(t, Texts(t, fuel))
  {
    forall name | name in Texts(t, fuel)
      ensures Known(Cut(t[name].text), Texts(t, fuel))
      ensures Texts(t, fuel)[name] == Substitute(Cut(t[name].text), Texts(t, fuel))
    {
      TextSolves(t, fuel, name);
    }
  }

  lemma TextSolves(t: Table, fuel: nat, name: string)
    requires name in Texts(t, fuel)
    ensures Known(Cut(t[name].text), Texts(t, fuel))
    ensures Texts(t, fuel)[name] == Substitute(Cut(t[name].text), Texts(t, fuel))
  {
    var s, val := t[name].text, Texts(t, fuel);
    RefsResolve(t, s, fuel - 1);
    forall r | Name(r) in Cut(s)
      ensures r in val && Lookup(t, r, fuel) == Ok(val[r])
    {
      LookupStable(t, r, fuel - 1, fuel);
    }
    ExpandText(t, s, val, fuel);
    ExpandStable(t, s, fuel - 1, fuel);
  }

  lemma ExpandText(t: Table, s: string, val: map<string, string>, fuel: nat)
    requires Known(Cut(s), val)
    requires forall name :: Name(name) in Cut(s) ==> Lookup(t, name, fuel) == Ok(val[name])
    ensures Expand(t, s, fuel) == Ok(Substitute(Cut(s), val))
  {
    CutReads(s);
    ExpandSubstitutes(t, Cut(s), val, fuel);
  }

  lemma RefsResolve(t: Table, s: string, fuel: nat)
    requires Expand(t, s, fuel).Ok?
    ensures forall r :: Name(r) in Cut(s) ==> Lookup(t, r, fuel).Ok?
  {
    CutNames(s);
    ExpandOk(t, s, fuel);
  }

  lemma {:induction false} SolutionUnique(t: Table, val: map<string, string>, name: string, fuel: nat)
    requires Solves(t, val) && name in val && Lookup(t, name, fuel).Ok?
    ensures Lookup(t, name, fuel).text == val[name]
    decreases fuel
  {
    var s := t[name].text;
    RefsResolve(t, s, fuel - 1);
    forall r | Name(r) in Cut(s)
      ensures Lookup(t, r, fuel - 1) == Ok(val[r])
    {
      SolutionUnique(t, val, r, fuel - 1);
    }
    ExpandText(t, s, val, fuel - 1);
  }

  /** The meaning of a configuration table: resolving a name gives `text` if and only if the name can be
      ranked (so that resolution ends) and the table's equations have a solution that gives it `text`. */
  lemma ResolvedIsSolution(t: Table, name: string, text: string)
    ensures (exists fuel: nat :: Lookup(t, name, fuel) == Ok(text)) <==>
            && (exists rank :: Downward(t, rank) && name in rank)
            && (exists val :: Solves(t, val) && name in val && val[name] == text)
  {
    ResolvesExactly(t, name);
    if fuel: nat :| Lookup(t, name, fuel) == Ok(text) {
      TextsSolve(t, fuel);
      assert name in Texts(t, fuel) && Texts(t, fuel)[name] == text;
    }
    if val :| Solves(t, val) && name in val && val[name] == text {
      if fuel: nat :| Lookup(t, name, fuel).Ok? {
        SolutionUnique(t, val, name, fuel);
      }
    }
  }

  // ------------------------------------------------------------------ termination

  /** A text expands exactly when everything it refers to does. */
  lemma {:induction false} ExpandOk(t: Table, s: string, fuel: nat)
    ensures Expand(t, s, fuel).Ok? <==> forall r :: r in Refs(s) ==> Lookup(t, r, fuel).Ok?
    decreases |s|
  {
    if s != "" {
      if Reference(s) {
        var n := Run(s[1..]);
        var name, rest := s[1..1 + n], s[1 + n..];
        ExpandOk(t, rest, fuel);
        assert Refs(s) == {name} + Refs(rest);
        if Expand(t, s, fuel).Ok? {
          assert Lookup(t, name, fuel).Ok? && Expand(t, rest, fuel).Ok?;
          assert forall r :: r in Refs(s) ==> r == name || r in Refs(rest);
        } else if Lookup(t, name, fuel).Ok? {
          var r :| r in Refs(rest) && !Lookup(t, r, fuel).Ok?;
          assert r in Refs(s);
        } else {
          assert name in Refs(s);
        }
      } else {
        ExpandOk(t, s[1..], fuel);
      }
    }
  }

  lemma StartsWithReference(t: Table, s: string, fuel: nat)
    requires Reference(s)
    ensures
      var n := Run(s[1..]);
      var head, tail := Lookup(t, s[1..1 + n], fuel), Expand(t, s[1 + n..], fuel);
      Expand(t, s, fuel) == if !head.Ok? then head else if !tail.Ok? then tail else Ok(head.text + tail.text)
  {
  }

  /** Text and error do not depend on the depth: once resolution ends, more depth changes nothing. */
  lemma {:induction false} ExpandStable(t: Table, s: string, k: nat, n: nat)
    requires !Expand(t, s, k).TooDeep? && k <= n
    ensures Expand(t, s, n) == Expand(t, s, k)
    decreases k, |s|, 0
  {
    if s != "" {
      if Reference(s) {
        var len := Run(s[1..]);
        var name, rest := s[1..1 + len], s[1 + len..];
        StartsWithReference(t, s, k);
        StartsWithReference(t, s, n);
        LookupStable(t, name, k, n);
        if Lookup(t, name, k).Ok? { ExpandStable(t, rest, k, n); }
      } else {
        ExpandStable(t, s[1..], k, n);
      }
    }
  }

  lemma {:induction false} LookupStable(t: Table, name: string, k: nat, n: nat)
    requires !Lookup(t, name, k).TooDeep? && k <= n
    ensures Lookup(t, name, n) == Lookup(t, name, k)
    decreases k, 0
  {
    if name in t && t[name].Value? { ExpandStable(t, t[name].text, k - 1, n - 1); }
  }

  /** Every ranked name is an item with a value, and its references are ranked strictly lower.  Items
      that nothing ranked refers to, such as an ExecItem, are free. */
  ghost predicate Downward(t: Table, rank: map<string, nat>) {
    forall name :: name in rank ==>
      && name in t && t[name].Value?
      && forall r :: r in Refs(t[name].text) ==> r in rank && rank[r] < rank[name]
  }

  ghost predicate Resolvable(t: Table, name: string) {
    exists fuel: nat :: Lookup(t, name, fuel).Ok?
  }

  lemma {:induction false} RankSuffices(t: Table, rank: map<string, nat>, name: string, fuel: nat)
    requires Downward(t, rank) && name in rank && rank[name] < fuel
    ensures Lookup(t, name, fuel).Ok?
    decreases fuel
  {
    var refs := Refs(t[name].text);
    forall r | r in refs
      ensures Lookup(t, r, fuel - 1).Ok?
    {
      assert r in rank && rank[r] < fuel - 1;
      RankSuffices(t, rank, r, fuel - 1);
    }
    ExpandOk(t, t[name].text, fuel - 1);
    assert Expand(t, t[name].text, fuel - 1).Ok?;
  }

  /** The smallest depth, up to `n`, at which a name resolves. */
  ghost function Depth(t: Table, name: string, n: nat): (d: nat)
    requires Lookup(t, name, n).Ok?
    ensures d <= n && Lookup(t, name, d).Ok? && (d > 0 ==> !Lookup(t, name, d - 1).Ok?)
  {
    if n == 0 || !Lookup(t, name, n - 1).Ok? then n else Depth(t, name, n - 1)
  }

  lemma DepthLeast(t: Table, name: string, n: nat, k: nat)
    requires Lookup(t, name, n).Ok? && Lookup(t, name, k).Ok?
    ensures Depth(t, name, n) <= k
  {
    var d := Depth(t, name, n);
    if k < d {
      LookupStable(t, name, k, d - 1);
    }
  }

  /** What resolves within a depth, with the depth it needs: the rank that its references go down. */
  ghost function Depths(t: Table, fuel: nat): map<string, nat> {
    map name | name in t && Lookup(t, name, fuel).Ok? :: Depth(t, name, fuel)
  }

  lemma DepthsGoDown(t: Table, fuel: nat)
    ensures Downward(t, Depths(t, fuel))
  {
    var rank := Depths(t, fuel);
    forall name, r | name in rank && r in Refs(t[name].text)
      ensures r in rank && rank[r] < rank[name]
    {
      var d := rank[name] - 1;
      ExpandOk(t, t[name].text, d);
      assert Lookup(t, r, d).Ok?;
      LookupStable(t, r, d, fuel);
      DepthLeast(t, r, fuel, d);
    }
  }

  /** Termination, for each name of any table: resolving it ends with a text if and only if it can be given
      a rank from which references go strictly down through value items. */
  lemma ResolvesExactly(t: Table, name: string)
    ensures Resolvable(t, name) <==> exists rank :: Downward(t, rank) && name in rank
  {
    if fuel: nat :| Lookup(t, name, fuel).Ok? {
      DepthsGoDown(t, fuel);
      assert name in Depths(t, fuel);
    }
    if rank :| Downward(t, rank) && name in rank {
      RankSuffices(t, rank, name, rank[name] + 1);
    }
  }

  lemma {:induction false} Bound(rank: map<string, nat>) returns (n: nat)
    ensures forall name :: name in rank ==> rank[name] < n
    decreases |rank|
  {
    n := 0;
    if rank != map[] {
      var name :| name in rank;
      var rest := rank - {name};
      assert rest.Keys == rank.Keys - {name};
      n := Bound(rest);
      assert forall m :: m in rank && m != name ==> m in rest && rest[m] == rank[m];
      if n <= rank[name] { n := rank[name] + 1; }
    }
  }

  /** Every item that holds a value resolves within one common depth. */
  ghost predicate Resolves(t: Table, fuel: nat) {
    forall name :: name in t && t[name].Value? ==> Lookup(t, name, fuel).Ok?
  }

  /** One acyclic rank for all value items. */
  ghost predicate Ranked(t: Table, rank: map<string, nat>) {
    Downward(t, rank) && forall name :: name in t && t[name].Value? ==> name in rank
  }

  /** Termination for a whole table: all its value items resolve if and only if their references name value
      items and have an acyclic rank.  Other items may be present, as long as no value refers to them. */
  lemma TerminatesExactly(t: Table)
    ensures (exists fuel: nat :: Resolves(t, fuel)) <==> (exists rank :: Ranked(t, rank))
  {
    if fuel: nat :| Resolves(t, fuel) {
      DepthsGoDown(t, fuel);
      assert Ranked(t, Depths(t, fuel));
    }
    if rank :| Ranked(t, rank) {
      var n := Bound(rank);
      forall name | name in t && t[name].Value?
        ensures Lookup(t, name, n).Ok?
      {
        RankSuffices(t, rank, name, n);
      }
      assert Resolves(t, n);
    }
  }
}
