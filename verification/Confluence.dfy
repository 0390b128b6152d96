/** When does the random visiting order of a Go map not matter to `RenderTemplate`?  For variables
    without braces, exactly when no placeholder of the body has complete placeholders inside it;
    and then the result is one simultaneous left-to-right substitution. */
module Confluence {
  import opened Tables
  import opened Template

  predicate Plain(s: string) {
    '{' !in s && '}' !in s
  }

  /** The length of the brace-free start of `s`. */
  function Span(s: string): (n: nat)
    ensures n <= |s| && Plain(s[..n])
    ensures n < |s| ==> s[n] == '{' || s[n] == '}'
  {
    if s == "" || s[0] == '{' || s[0] == '}' then 0 else Span(s[1..]) + 1
  }

  /** The first brace of `s`, if any, closes. */
  predicate ClosesFirst(s: string) {
    Span(s) < |s| && s[Span(s)] == '}'
  }

  /** `s` starts with a complete placeholder. */
  predicate Opens(s: string) {
    s != "" && s[0] == '{' && ClosesFirst(s[1..])
  }

  function Name(s: string): (k: string)
    requires Opens(s)
    ensures Plain(k)
  {
    s[1..][..Span(s[1..])]
  }

  function Rest(s: string): (r: string)
    requires Opens(s)
    ensures s == Hole(Name(s)) + r
  {
    s[1..][Span(s[1..]) + 1..]
  }

  /** One simultaneous substitution from left to right; unknown placeholders stay. */
  function Substitute(s: string, m: map<string, string>): string
    decreases |s|
  {
    if s == "" then ""
    else if Opens(s) && Name(s) in m then m[Name(s)] + Substitute(Rest(s), m)
    else [s[0]] + Substitute(s[1..], m)
  }

  /** Reading on from an open brace over plain text and complete placeholders, a closing brace is
      reached; `seen` says whether a placeholder has been passed. */
  predicate Encloses(t: string, seen: bool)
    decreases |t|
  {
    if t == "" then false
    else if t[0] == '}' then seen
    else if Opens(t) then Encloses(Rest(t), true)
    else t[0] != '{' && Encloses(t[1..], seen)
  }

  /** Somewhere a pair of braces has complete placeholders, and nothing but those and plain text, inside. */
  predicate Nested(s: string) {
    s != "" && ((s[0] == '{' && Encloses(s[1..], false)) || Nested(s[1..]))
  }

  // ----- plain text and placeholders read in one step

  lemma SpanPlain(v: string, r: string)
    requires Plain(v)
    ensures Span(v + r) == |v| + Span(r)
    ensures ClosesFirst(v + r) == ClosesFirst(r)
  {
    if v == "" {
      assert v + r == r;
    } else {
      assert (v + r)[1..] == v[1..] + r;
      SpanPlain(v[1..], r);
    }
  }

  lemma OpensHole(k: string, r: string)
    requires Plain(k)
    ensures Opens(Hole(k) + r) && Name(Hole(k) + r) == k && Rest(Hole(k) + r) == r
  {
    var s := Hole(k) + r;
    assert s[1..] == k + ("}" + r);
    SpanPlain(k, "}" + r);
    assert s[1..][..|k|] == k;
    assert s[1..][|k| + 1..] == r;
  }

  /** The pattern "{k}" matches exactly at a complete placeholder of that name. */
  lemma Matches(s: string, k: string)
    requires Plain(k)
    ensures Hole(k) <= s <==> Opens(s) && Name(s) == k
    ensures Hole(k) <= s ==> s[|k| + 2..] == Rest(s)
  {
    if Hole(k) <= s {
      assert s == Hole(k) + s[|k| + 2..];
      OpensHole(k, s[|k| + 2..]);
    }
  }

  lemma {:induction false} ReplacePlain(x: string, r: string, k: string, v: string)
    requires Plain(x)
    ensures ReplaceHole(x + r, k, v) == x + ReplaceHole(r, k, v)
  {
    if x == "" {
      assert x + r == r;
    } else {
      assert (x + r)[0] == x[0] && (x + r)[1..] == x[1..] + r;
      assert !(Hole(k) <= x + r) by { assert Hole(k)[0] == '{'; }
      ReplacePlain(x[1..], r, k, v);
    }
  }

  /** A complete placeholder, taken apart. */
  lemma Opened(s: string)
    requires Opens(s)
    ensures s[1..] == Name(s) + ("}" + Rest(s))
    ensures forall x: string :: Hole(Name(s)) + x == "{" + (Name(s) + ("}" + x))
  {
  }

  /** Any character but an opening brace is copied. */
  lemma ReplaceChar(c: char, r: string, k: string, v: string)
    requires c != '{'
    ensures ReplaceHole([c] + r, k, v) == [c] + ReplaceHole(r, k, v)
  {
    assert ([c] + r)[1..] == r;
    assert !(Hole(k) <= [c] + r) by { assert Hole(k)[0] == '{'; }
  }

  /** How ReplaceHole reads a string whose first thing is a placeholder. */
  lemma ReplaceOpens(s: string, k: string, v: string)
    requires Opens(s) && Plain(k)
    ensures ReplaceHole(s, k, v) == (if Name(s) == k then v else Hole(Name(s))) + ReplaceHole(Rest(s), k, v)
  {
    Matches(s, k);
    if Name(s) != k {
      Opened(s);
      ReplacePlain(Name(s), "}" + Rest(s), k, v);
      ReplaceChar('}', Rest(s), k, v);
    }
  }

  lemma {:induction false} SubstitutePlain(v: string, r: string, m: map<string, string>)
    requires Plain(v)
    ensures Substitute(v + r, m) == v + Substitute(r, m)
  {
    if v == "" {
      assert v + r == r;
    } else {
      assert (v + r)[1..] == v[1..] + r;
      SubstitutePlain(v[1..], r, m);
    }
  }

  lemma SubstituteChar(c: char, r: string, m: map<string, string>)
    requires c != '{'
    ensures Substitute([c] + r, m) == [c] + Substitute(r, m)
  {
    assert ([c] + r)[1..] == r;
  }

  lemma SubstituteOpens(s: string, m: map<string, string>)
    requires Opens(s)
    ensures Substitute(s, m) == (if Name(s) in m then m[Name(s)] else Hole(Name(s))) + Substitute(Rest(s), m)
  {
    if Name(s) !in m {
      Opened(s);
      SubstitutePlain(Name(s), "}" + Rest(s), m);
      SubstituteChar('}', Rest(s), m);
    }
  }

  lemma {:induction false} EnclosesPlain(v: string, r: string, seen: bool)
    requires Plain(v)
    ensures Encloses(v + r, seen) == Encloses(r, seen)
  {
    if v == "" {
      assert v + r == r;
    } else {
      assert (v + r)[1..] == v[1..] + r;
      EnclosesPlain(v[1..], r, seen);
    }
  }

  lemma {:induction false} NestedPlain(v: string, r: string)
    requires Plain(v)
    ensures Nested(v + r) == Nested(r)
  {
    if v == "" {
      assert v + r == r;
    } else {
      assert (v + r)[1..] == v[1..] + r;
      NestedPlain(v[1..], r);
    }
  }

  lemma NestedOpens(s: string)
    requires Opens(s)
    ensures Nested(s) == Nested(Rest(s))
  {
    assert s[1..] == Name(s) + ("}" + Rest(s));
    EnclosesPlain(Name(s), "}" + Rest(s), false);
    NestedPlain(Name(s), "}" + Rest(s));
    assert ("}" + Rest(s))[1..] == Rest(s);
  }

  lemma {:induction false} EnclosesMore(t: string)
    ensures Encloses(t, false) ==> Encloses(t, true)
    decreases |t|
  {
    if t != "" && t[0] != '}' && !Opens(t) { EnclosesMore(t[1..]); }
  }

  // ----- without nesting, every order gives the simultaneous substitution

  /** Replacing can complete a placeholder only around replaced ones. */
  lemma {:induction false} NewlyClosed(t: string, k: string, v: string)
    requires Plain(k) && Plain(v) && ClosesFirst(ReplaceHole(t, k, v))
    ensures Encloses(t, true) && (ClosesFirst(t) || Encloses(t, false))
    decreases |t|
  {
    if Opens(t) {
      ReplaceOpens(t, k, v);
      if Name(t) == k {
        SpanPlain(v, ReplaceHole(Rest(t), k, v));
        NewlyClosed(Rest(t), k, v);
      }
    } else if t != "" {
      Matches(t, k);
      var r := ReplaceHole(t[1..], k, v);
      assert ReplaceHole(t, k, v)[1..] == r;
      if t[0] != '{' && t[0] != '}' { NewlyClosed(t[1..], k, v); }
    }
  }

  lemma StaysOpen(s: string, k: string, v: string)
    requires s != "" && s[0] == '{' && !Opens(s) && !Nested(s) && Plain(k) && Plain(v)
    ensures ReplaceHole(s, k, v) == "{" + ReplaceHole(s[1..], k, v)
    ensures !Opens(ReplaceHole(s, k, v))
  {
    Matches(s, k);
    assert ReplaceHole(s, k, v)[1..] == ReplaceHole(s[1..], k, v);
    if Opens(ReplaceHole(s, k, v)) { NewlyClosed(s[1..], k, v); }
  }

  /** Replacing one variable first and the others simultaneously is replacing all simultaneously. */
  lemma {:induction false} OneThenRest(s: string, k: string, v: string, m: map<string, string>)
    requires !Nested(s) && Plain(k) && Plain(v)
    ensures Substitute(ReplaceHole(s, k, v), m) == Substitute(s, m[k := v])
    decreases |s|
  {
    if s == "" {
    } else if Opens(s) {
      NestedOpens(s);
      OneThenRest(Rest(s), k, v, m);
      ReplaceOpens(s, k, v);
      SubstituteOpens(s, m[k := v]);
      var r := ReplaceHole(Rest(s), k, v);
      if Name(s) == k {
        SubstitutePlain(v, r, m);
      } else {
        OpensHole(Name(s), r);
        SubstituteOpens(Hole(Name(s)) + r, m);
      }
    } else {
      if s[0] == '{' { StaysOpen(s, k, v); } else { Matches(s, k); }
      assert ReplaceHole(s, k, v)[1..] == ReplaceHole(s[1..], k, v);
      OneThenRest(s[1..], k, v, m);
    }
  }

  lemma {:induction false} EnclosedBefore(t: string, k: string, v: string, seen: bool)
    requires Plain(k) && Plain(v) && Encloses(ReplaceHole(t, k, v), seen)
    ensures Encloses(t, seen) || Nested(t)
    decreases |t|
  {
    if Opens(t) {
      ReplaceOpens(t, k, v);
      NestedOpens(t);
      var r := ReplaceHole(Rest(t), k, v);
      if Name(t) == k {
        EnclosesPlain(v, r, seen);
        EnclosedBefore(Rest(t), k, v, seen);
        EnclosesMore(Rest(t));
      } else {
        OpensHole(Name(t), r);
        EnclosedBefore(Rest(t), k, v, true);
      }
    } else if t != "" && !Nested(t) {
      if t[0] == '{' { StaysOpen(t, k, v); } else { Matches(t, k); }
      assert ReplaceHole(t, k, v)[1..] == ReplaceHole(t[1..], k, v);
      if t[0] != '}' && t[0] != '{' { EnclosedBefore(t[1..], k, v, seen); }
    }
  }

  /** Replacing never creates nesting. */
  lemma {:induction false} NestingIsOld(s: string, k: string, v: string)
    requires !Nested(s) && Plain(k) && Plain(v)
    ensures !Nested(ReplaceHole(s, k, v))
    decreases |s|
  {
    if s == "" {
    } else if Opens(s) {
      NestedOpens(s);
      NestingIsOld(Rest(s), k, v);
      ReplaceOpens(s, k, v);
      var r := ReplaceHole(Rest(s), k, v);
      if Name(s) == k {
        NestedPlain(v, r);
      } else {
        OpensHole(Name(s), r);
        NestedOpens(Hole(Name(s)) + r);
      }
    } else {
      if s[0] == '{' { StaysOpen(s, k, v); } else { Matches(s, k); }
      var r := ReplaceHole(s[1..], k, v);
      assert ReplaceHole(s, k, v)[1..] == r;
      NestingIsOld(s[1..], k, v);
      if s[0] == '{' && Encloses(r, false) { EnclosedBefore(s[1..], k, v, false); }
    }
  }

  ghost predicate PlainVars(vars: Vars) {
    forall p <- vars :: Plain(p.0) && Plain(p.1)
  }

  function MapOf(vars: Vars): map<string, string> {
    if vars == [] then map[] else MapOf(vars[1..])[vars[0].0 := vars[0].1]
  }

  lemma {:induction false} NothingToSubstitute(s: string)
    ensures Substitute(s, map[]) == s
    decreases |s|
  {
    if s != "" { NothingToSubstitute(s[1..]); }
  }

  lemma {:induction false} RenderSubstitutes(body: string, vars: Vars)
    requires !Nested(body) && PlainVars(vars)
    ensures Render(body, vars) == Substitute(body, MapOf(vars))
    decreases vars
  {
    if vars == [] {
      NothingToSubstitute(body);
    } else {
      var (k, v) := vars[0];
      assert vars[0] in vars;
      NestingIsOld(body, k, v);
      RenderSubstitutes(ReplaceHole(body, k, v), vars[1..]);
      OneThenRest(body, k, v, MapOf(vars[1..]));
    }
  }

  // ----- orders of a map

  ghost predicate Distinct(vars: Vars) {
    forall i, j | 0 <= i < j < |vars| :: vars[i].0 != vars[j].0
  }

  /** `vars` is `m` as one `range` statement may visit it. */
  ghost predicate Visits(vars: Vars, m: map<string, string>) {
    && Distinct(vars)
    && (forall p <- vars :: p.0 in m && m[p.0] == p.1)
    && (forall k <- m :: (k, m[k]) in vars)
  }

  lemma {:induction false} VisitsMap(vars: Vars)
    requires Distinct(vars)
    ensures Visits(vars, MapOf(vars))
  {
    if vars != [] {
      VisitsMap(vars[1..]);
      forall p <- vars[1..] ensures p.0 != vars[0].0 {
        var i :| 0 <= i < |vars[1..]| && vars[1..][i] == p;
        assert vars[i + 1] == p;
      }
    }
  }

  lemma SameMap(vars: Vars, m: map<string, string>)
    requires Visits(vars, m)
    ensures MapOf(vars) == m
  {
    VisitsMap(vars);
    assert forall k <- m :: (k, m[k]) in vars;
  }

  ghost predicate PlainMap(m: map<string, string>) {
    forall k <- m :: Plain(k) && Plain(m[k])
  }

  /** For a body without nesting and variables without braces, whatever order the map is visited
      in, the result is the simultaneous substitution. */
  lemma RenderIsSubstitution(body: string, m: map<string, string>, vars: Vars)
    requires !Nested(body) && PlainMap(m) && Visits(vars, m)
    ensures Render(body, vars) == Substitute(body, m)
  {
    SameMap(vars, m);
    RenderSubstitutes(body, vars);
  }

  /** All visiting orders of all brace-free variables agree. */
  ghost predicate Confluent(body: string) {
    forall m: map<string, string>, xs: Vars, ys: Vars :: PlainMap(m) && Visits(xs, m) && Visits(ys, m) ==> Render(body, xs) == Render(body, ys)
  }

  // ----- with nesting, some variables make the order matter

  /** Plain text and complete placeholders only. */
  predicate Filled(u: string)
    decreases |u|
  {
    u == "" || if Opens(u) then Filled(Rest(u)) else u[0] != '{' && u[0] != '}' && Filled(u[1..])
  }

  function Names(u: string): set<string>
    decreases |u|
  {
    if u == "" then {} else if Opens(u) then {Name(u)} + Names(Rest(u)) else Names(u[1..])
  }

  lemma {:induction false} EnclosedIsFilled(t: string, seen: bool) returns (u: string, b: string)
    requires Encloses(t, seen)
    ensures t == u + ("}" + b) && Filled(u) && (seen || Names(u) != {})
    decreases |t|
  {
    if t[0] == '}' {
      u, b := "", t[1..];
    } else if Opens(t) {
      u, b := EnclosedIsFilled(Rest(t), true);
      OpensHole(Name(t), u);
      u := Hole(Name(t)) + u;
    } else {
      u, b := EnclosedIsFilled(t[1..], seen);
      var w := [t[0]] + u;
      assert w[1..] == u;
      u := w;
    }
  }

  lemma {:induction false} NestedHasCore(s: string) returns (a: string, u: string, b: string)
    requires Nested(s)
    ensures s == a + ("{" + (u + ("}" + b))) && Filled(u) && Names(u) != {}
  {
    if s[0] == '{' && Encloses(s[1..], false) {
      u, b := EnclosedIsFilled(s[1..], false);
      a := "";
    } else {
      a, u, b := NestedHasCore(s[1..]);
      a := [s[0]] + a;
    }
  }

  lemma {:induction false} FilledPlain(v: string, x: string)
    requires Plain(v) && Filled(x)
    ensures Filled(v + x) && Names(v + x) == Names(x)
  {
    if v == "" {
      assert v + x == x;
    } else {
      assert (v + x)[1..] == v[1..] + x;
      FilledPlain(v[1..], x);
    }
  }

  /** Replacing one name in filled text: the name is gone, the rest stays, and with a long value nothing gets shorter. */
  lemma {:induction false} ReplaceInFilled(u: string, k: string, v: string)
    requires Filled(u) && Plain(k) && Plain(v) && |k| + 2 <= |v|
    ensures var r := ReplaceHole(u, k, v);
            Filled(r) && Names(r) == Names(u) - {k} && |u| <= |r| && (k in Names(u) ==> |v| <= |r|)
    decreases |u|
  {
    if u == "" {
    } else if Opens(u) {
      ReplaceOpens(u, k, v);
      ReplaceInFilled(Rest(u), k, v);
      var r := ReplaceHole(Rest(u), k, v);
      if Name(u) == k { FilledPlain(v, r); } else { OpensHole(Name(u), r); }
    } else {
      assert u == [u[0]] + u[1..];
      ReplaceChar(u[0], u[1..], k, v);
      ReplaceInFilled(u[1..], k, v);
      FilledPlain([u[0]], ReplaceHole(u[1..], k, v));
    }
  }

  lemma FitsBefore(a: string, y: string, k: string)
    requires a != "" && y != "" && y[0] == '{' && Plain(k)
    ensures Hole(k) <= a + y <==> Hole(k) <= a
  {
    assert forall i | 0 < i < |k| + 2 :: Hole(k)[i] != '{';
    assert (a + y)[|a|] == '{';
  }

  lemma Assoc(x: string, y: string, z: string)
    ensures (x + y) + z == x + (y + z)
  {
  }

  /** A placeholder cannot reach across the start of a brace, nor out of filled text. */
  lemma {:induction false} SplitBefore(a: string, y: string, k: string, v: string)
    requires y != "" && y[0] == '{' && Plain(k)
    ensures ReplaceHole(a + y, k, v) == ReplaceHole(a, k, v) + ReplaceHole(y, k, v)
    decreases |a|
  {
    if a == "" {
      assert a + y == y;
    } else {
      FitsBefore(a, y, k);
      if Hole(k) <= a {
        var rest := a[|k| + 2..];
        assert (a + y)[|k| + 2..] == rest + y;
        SplitBefore(rest, y, k, v);
        Assoc(v, ReplaceHole(rest, k, v), ReplaceHole(y, k, v));
      } else {
        assert (a + y)[1..] == a[1..] + y;
        SplitBefore(a[1..], y, k, v);
        Assoc([a[0]], ReplaceHole(a[1..], k, v), ReplaceHole(y, k, v));
      }
    }
  }

  lemma OpensAppend(u: string, y: string)
    requires Opens(u)
    ensures Opens(u + y) && Name(u + y) == Name(u) && Rest(u + y) == Rest(u) + y
  {
    assert u + y == Hole(Name(u)) + (Rest(u) + y);
    OpensHole(Name(u), Rest(u) + y);
  }

  lemma {:induction false} SplitAfter(u: string, y: string, k: string, v: string)
    requires Filled(u) && Plain(k)
    ensures ReplaceHole(u + y, k, v) == ReplaceHole(u, k, v) + ReplaceHole(y, k, v)
    decreases |u|
  {
    if u == "" {
      assert u + y == y;
    } else if Opens(u) {
      OpensAppend(u, y);
      ReplaceOpens(u, k, v);
      ReplaceOpens(u + y, k, v);
      SplitAfter(Rest(u), y, k, v);
      Assoc(if Name(u) == k then v else Hole(Name(u)), ReplaceHole(Rest(u), k, v), ReplaceHole(y, k, v));
    } else {
      assert (u + y)[1..] == u[1..] + y;
      assert u == [u[0]] + u[1..] && u + y == [u[0]] + (u[1..] + y);
      ReplaceChar(u[0], u[1..], k, v);
      ReplaceChar(u[0], u[1..] + y, k, v);
      SplitAfter(u[1..], y, k, v);
      Assoc([u[0]], ReplaceHole(u[1..], k, v), ReplaceHole(y, k, v));
    }
  }

  lemma {:induction false} FilledFirstBrace(u: string, y: string)
    requires Filled(u) && Names(u) != {}
    ensures !ClosesFirst(u + y)
    decreases |u|
  {
    if Opens(u) {
      OpensAppend(u, y);
    } else {
      assert (u + y)[1..] == u[1..] + y;
      FilledFirstBrace(u[1..], y);
    }
  }

  /** Replacing a name inside the core leaves the braces around it where they are. */
  lemma ReplaceInCore(a: string, u: string, b: string, k: string, v: string)
    requires Filled(u) && Names(u) != {} && Plain(k)
    ensures ReplaceHole(a + ("{" + (u + ("}" + b))), k, v)
         == ReplaceHole(a, k, v) + ("{" + (ReplaceHole(u, k, v) + ("}" + ReplaceHole(b, k, v))))
  {
    var t := u + ("}" + b);
    SplitBefore(a, "{" + t, k, v);
    FilledFirstBrace(u, "}" + b);
    Matches("{" + t, k);
    assert ("{" + t)[1..] == t;
    SplitAfter(u, "}" + b, k, v);
    ReplaceChar('}', b, k, v);
  }

  /** Replace the names of the core one by one by `v`: what is left between the braces is plain. */
  lemma {:induction false} Hollow(a: string, u: string, b: string, v: string) returns (vars: Vars, a': string, k: string, b': string)
    requires Filled(u) && Plain(v) && (forall n <- Names(u) :: Plain(n) && |n| + 2 <= |v|)
    ensures Distinct(vars) && (forall p <- vars :: p.0 in Names(u) && p.1 == v)
    ensures Render(a + ("{" + (u + ("}" + b))), vars) == a' + ("{" + (k + ("}" + b')))
    ensures Plain(k) && |u| <= |k| && (Names(u) != {} ==> |v| <= |k|)
    decreases Names(u)
  {
    if Names(u) == {} {
      FilledNameless(u);
      vars, a', k, b' := [], a, u, b;
    } else {
      var n :| n in Names(u);
      ReplaceInFilled(u, n, v);
      ReplaceInCore(a, u, b, n, v);
      var rest;
      rest, a', k, b' := Hollow(ReplaceHole(a, n, v), ReplaceHole(u, n, v), ReplaceHole(b, n, v), v);
      vars := [(n, v)] + rest;
      assert vars[1..] == rest;
      forall i | 0 <= i < |rest| ensures rest[i].0 != n {
        assert rest[i] in rest;
      }
    }
  }

  lemma {:induction false} FilledNameless(u: string)
    requires Filled(u) && Names(u) == {}
    ensures Plain(u)
    decreases |u|
  {
    if u != "" { FilledNameless(u[1..]); }
  }

  lemma {:induction false} NamesAreParts(u: string)
    ensures forall n <- Names(u) :: Plain(n) && |n| < |u|
    decreases |u|
  {
    if u == "" {
    } else if Opens(u) {
      NamesAreParts(Rest(u));
    } else {
      NamesAreParts(u[1..]);
    }
  }

  /** A placeholder longer than the text does not occur in it. */
  lemma {:induction false} TooLong(s: string, k: string, v: string)
    requires |s| < |k|
    ensures ReplaceHole(s, k, v) == s
  {
    if s != "" { TooLong(s[1..], k, v); }
  }

  lemma {:induction false} Shrinks(a: string, k: string, b: string)
    requires Plain(k)
    ensures |ReplaceHole(a + (Hole(k) + b), k, "")| < |a + (Hole(k) + b)|
  {
    SplitBefore(a, Hole(k) + b, k, "");
    NoLonger(a, k);
    NoLonger(b, k);
    OpensHole(k, b);
    ReplaceOpens(Hole(k) + b, k, "");
  }

  lemma {:induction false} NoLonger(s: string, k: string)
    ensures |ReplaceHole(s, k, "")| <= |s|
    decreases |s|
  {
    if s == "" {
    } else if Hole(k) <= s {
      NoLonger(s[|k| + 2..], k);
    } else {
      NoLonger(s[1..], k);
    }
  }

  lemma {:induction false} RenderAppend(body: string, xs: Vars, ys: Vars)
    ensures Render(body, xs + ys) == Render(Render(body, xs), ys)
    decreases xs
  {
    if xs == [] {
      assert xs + ys == ys;
    } else {
      assert (xs + ys)[1..] == xs[1..] + ys;
      RenderAppend(ReplaceHole(body, xs[0].0, xs[0].1), xs[1..], ys);
    }
  }

  function Filler(n: nat): (v: string)
    ensures |v| == n && Plain(v)
  {
    seq(n, i => 'x')
  }

  /** Replacing a long placeholder has no effect before `vars` make it appear, but has after. */
  lemma OrderShows(body: string, vars: Vars, a: string, k: string, b: string)
    requires Render(body, vars) == a + (Hole(k) + b) && Plain(k) && |body| < |k|
    ensures Render(body, vars + [(k, "")]) != Render(body, [(k, "")] + vars)
  {
    var last := [(k, "")];
    assert last[1..] == [];
    RenderAppend(body, vars, last);
    RenderAppend(body, last, vars);
    Shrinks(a, k, b);
    TooLong(body, k, "");
    assert Render(body, last) == Render(body, []) == body;
    assert Render(Render(body, vars), last) == Render(ReplaceHole(a + (Hole(k) + b), k, ""), []);
  }

  /** With nesting, giving every inner placeholder a long value and the placeholder that then
      appears around them an empty one makes the order visible. */
  lemma DisagreeingOrders(body: string) returns (m: map<string, string>, xs: Vars, ys: Vars)
    requires Nested(body)
    ensures PlainMap(m) && Visits(xs, m) && Visits(ys, m) && Render(body, xs) != Render(body, ys)
  {
    var a, u, b := NestedHasCore(body);
    NamesAreParts(u);
    var vars, a', k, b' := Hollow(a, u, b, Filler(|body| + 2));
    assert "{" + (k + ("}" + b')) == Hole(k) + b';
    OrderShows(body, vars, a', k, b');
    assert forall p <- vars :: Plain(p.0) && Plain(p.1) && |p.0| < |k|;
    SwapVisits(vars, k);
    PlainSwap(vars, k);
    m, xs, ys := MapOf(vars)[k := ""], vars + [(k, "")], [(k, "")] + vars;
  }

  lemma PlainSwap(vars: Vars, k: string)
    requires Distinct(vars) && PlainVars(vars) && Plain(k)
    ensures PlainMap(MapOf(vars)[k := ""])
  {
    VisitsMap(vars);
  }

  lemma SwapVisits(vars: Vars, k: string)
    requires Distinct(vars) && forall p <- vars :: p.0 != k
    ensures var m := MapOf(vars)[k := ""]; Visits(vars + [(k, "")], m) && Visits([(k, "")] + vars, m)
  {
    VisitsMap(vars);
    VisitsLast(vars, k, MapOf(vars));
    VisitsFirst(vars, k, MapOf(vars));
  }

  lemma VisitsLast(vars: Vars, k: string, m: map<string, string>)
    requires Visits(vars, m) && forall p <- vars :: p.0 != k
    ensures Visits(vars + [(k, "")], m[k := ""])
  {
    var xs, m' := vars + [(k, "")], m[k := ""];
    assert forall i | 0 <= i < |vars| :: vars[i] in vars;
    forall n <- m' ensures (n, m'[n]) in xs {
      if n != k { assert (n, m'[n]) in vars; } else { assert xs[|vars|] == (k, ""); }
    }
  }

  lemma VisitsFirst(vars: Vars, k: string, m: map<string, string>)
    requires Visits(vars, m) && forall p <- vars :: p.0 != k
    ensures Visits([(k, "")] + vars, m[k := ""])
  {
    var xs, m' := [(k, "")] + vars, m[k := ""];
    assert forall i | 0 <= i < |vars| :: vars[i] in vars;
    forall n <- m' ensures (n, m'[n]) in xs {
      if n != k { assert (n, m'[n]) in vars; } else { assert xs[0] == (k, ""); }
    }
  }

  /** The order in which the variables are visited never matters, whatever the brace-free
      variables, if and only if no placeholder of the body encloses complete placeholders. */
  lemma ConfluentIffNotNested(body: string)
    ensures Confluent(body) <==> !Nested(body)
  {
    if Nested(body) {
      var m, xs, ys := DisagreeingOrders(body);
    } else {
      forall m: map<string, string>, xs: Vars, ys: Vars | PlainMap(m) && Visits(xs, m) && Visits(ys, m)
        ensures Render(body, xs) == Render(body, ys)
      {
        RenderIsSubstitution(body, m, xs);
        RenderIsSubstitution(body, m, ys);
      }
    }
  }

  /** Two opening braces with no closing brace between them. */
  ghost predicate DoublyOpen(s: string) {
    exists i, j :: 0 <= i < j < |s| && s[i] == '{' && s[j] == '{' && '}' !in s[i..j]
  }

  lemma {:induction false} EnclosingOpens(t: string) returns (j: nat)
    requires Encloses(t, false)
    ensures j < |t| && t[j] == '{' && '}' !in t[..j]
    decreases |t|
  {
    if t[0] == '{' {
      j := 0;
    } else {
      j := EnclosingOpens(t[1..]);
      assert t[..j + 1] == [t[0]] + t[1..][..j];
      j := j + 1;
    }
  }

  /** A body that never opens a brace inside an open one is safe. */
  lemma {:induction false} NestedIsDoublyOpen(s: string)
    requires Nested(s)
    ensures DoublyOpen(s)
  {
    if s[0] == '{' && Encloses(s[1..], false) {
      var j := EnclosingOpens(s[1..]);
      assert s[0..j + 1] == "{" + s[1..][..j];
    } else {
      NestedIsDoublyOpen(s[1..]);
      var i, j :| 0 <= i < j < |s[1..]| && s[1..][i] == '{' && s[1..][j] == '{' && '}' !in s[1..][i..j];
      assert s[i + 1..j + 1] == s[1..][i..j];
      assert s[i + 1] == '{' && s[j + 1] == '{';
    }
  }

  /** Braces in a value can be taken for placeholders later on: then the order does matter. */
  lemma BracesInValuesMatter()
    ensures var xs, ys := [("a", "{b}"), ("b", "x")], [("b", "x"), ("a", "{b}")];
            MapOf(xs) == MapOf(ys) && Render("{a}", xs) == "x" && Render("{a}", ys) == "{b}"
  {
    var xs, ys := [("a", "{b}"), ("b", "x")], [("b", "x"), ("a", "{b}")];
    assert MapOf(xs) == map["b" := "x"]["a" := "{b}"] by { assert MapOf(xs[1..]) == map["b" := "x"]; }
    assert MapOf(ys) == map["a" := "{b}"]["b" := "x"] by { assert MapOf(ys[1..]) == map["a" := "{b}"]; }
    ReplaceWhole("a", "{b}");
    ReplaceWhole("b", "x");
    TooShort();
    assert xs[1..] == [("b", "x")] && ys[1..] == [("a", "{b}")];
  }

  lemma ReplaceWhole(k: string, v: string)
    ensures ReplaceHole(Hole(k), k, v) == v
  {
    assert Hole(k)[|k| + 2..] == "";
  }

  lemma TooShort()
    ensures ReplaceHole("{a}", "b", "x") == "{a}"
  {
    assert Hole("b")[1] == 'b';
    assert ReplaceHole("a}", "b", "x") == "a" + ReplaceHole("}", "b", "x");
  }
}
