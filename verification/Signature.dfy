/** Callback signatures: both sides sort the form's keys, so map order does not matter. */
module Signature {

  type Form = map<string, seq<string>>

  /** url.Values.Get: the first value, or nothing. */
  function Get(form: Form, k: string): string {
    if k in form && form[k] != [] then form[k][0] else ""
  }

  /** Go's order of strings. */
  predicate AtMost(a: string, b: string) {
    a == "" || (b != "" && (a[0] < b[0] || (a[0] == b[0] && AtMost(a[1..], b[1..]))))
  }

  /** Bytewise: one is a prefix of the other, or the first difference decides. */
  lemma {:induction false} AtMostMeans(a: string, b: string)
    ensures AtMost(a, b) <==> exists k: nat | k <= |a| && k <= |b| :: a[..k] == b[..k] && (k == |a| || (k < |b| && a[k] < b[k]))
  {
    if a == "" {
      assert a[..0] == b[..0];
    } else if b != "" && a[0] == b[0] {
      AtMostMeans(a[1..], b[1..]);
      if k: nat :| k <= |a[1..]| && k <= |b[1..]| && a[1..][..k] == b[1..][..k] && (k == |a[1..]| || (k < |b[1..]| && a[1..][k] < b[1..][k])) {
        assert a[..k + 1] == [a[0]] + a[1..][..k] && b[..k + 1] == [b[0]] + b[1..][..k];
        assert a[..k + 1] == b[..k + 1];
      }
      if k: nat :| k <= |a| && k <= |b| && a[..k] == b[..k] && (k == |a| || (k < |b| && a[k] < b[k])) {
        assert k > 0;
        assert a[1..][..k - 1] == a[..k][1..] == b[..k][1..] == b[1..][..k - 1];
      }
    } else if b != "" {
      assert a[..0] == b[..0];
      assert forall k: nat | 0 < k <= |a| && k <= |b| :: a[..k][0] == a[0] && b[..k][0] == b[0];
    }
  }

  lemma {:induction false} Total(a: string, b: string)
    ensures AtMost(a, b) || AtMost(b, a)
  {
    if a != "" && b != "" && a[0] == b[0] { Total(a[1..], b[1..]); }
  }

  lemma {:induction false} Antisymmetric(a: string, b: string)
    requires AtMost(a, b) && AtMost(b, a)
    ensures a == b
  {
    if a != "" {
      Antisymmetric(a[1..], b[1..]);
      assert a == [a[0]] + a[1..] && b == [b[0]] + b[1..];
    }
  }

  lemma {:induction false} Transitive(a: string, b: string, c: string)
    requires AtMost(a, b) && AtMost(b, c)
    ensures AtMost(a, c)
  {
    if a != "" && a[0] == b[0] == c[0] { Transitive(a[1..], b[1..], c[1..]); }
  }

  ghost predicate Sorted(keys: seq<string>) {
    forall i, j | 0 <= i < j < |keys| :: AtMost(keys[i], keys[j])
  }

  ghost predicate Distinct(keys: seq<string>) {
    forall i, j | 0 <= i < j < |keys| :: keys[i] != keys[j]
  }

  /** `keys` enumerates the keys of the form, each once, in some order. */
  ghost predicate Enumerates(keys: seq<string>, form: Form) {
    Distinct(keys) && forall k :: k in keys <==> k in form
  }

  /** sort.Strings, in place: insertion by neighbouring swaps. */
  method SortStrings(a: array<string>)
    modifies a
    ensures Sorted(a[..]) && multiset(a[..]) == multiset(old(a[..]))
  {
    var n := 0;
    while n < a.Length
      invariant 0 <= n <= a.Length
      invariant Sorted(a[..n])
      invariant multiset(a[..]) == multiset(old(a[..]))
    {
      Sink(a, n);
      n := n + 1;
    }
    assert a[..a.Length] == a[..];
  }

  /** Lets element `n` sink into the sorted elements before it. */
  method Sink(a: array<string>, n: nat)
    requires n < a.Length && Sorted(a[..n])
    modifies a
    ensures Sorted(a[..n + 1]) && multiset(a[..]) == multiset(old(a[..]))
  {
    var i := n;
    ghost var x := a[n];
    while i > 0 && !AtMost(a[i - 1], a[i])
      invariant 0 <= i <= n && a[i] == x
      invariant forall p, q | 0 <= p < q <= n && p != i && q != i :: AtMost(a[p], a[q])
      invariant forall q | i < q <= n :: AtMost(x, a[q])
      invariant multiset(a[..]) == multiset(old(a[..]))
    {
      Total(a[i - 1], a[i]);
      a[i - 1], a[i] := a[i], a[i - 1];
      i := i - 1;
    }
    forall p | 0 <= p < i ensures AtMost(a[p], x) {
      if p < i - 1 { Transitive(a[p], a[i - 1], x); }
    }
  }

  /** Only one sequence lists a given collection of strings in order. */
  lemma {:induction false} SortedIsUnique(xs: seq<string>, ys: seq<string>)
    requires Sorted(xs) && Sorted(ys) && multiset(xs) == multiset(ys)
    ensures xs == ys
  {
    if xs == [] {
      assert |multiset(ys)| == 0;
    } else {
      assert xs == [xs[0]] + xs[1..];
      assert xs[0] in multiset(ys);
      assert ys != [] && ys == [ys[0]] + ys[1..];
      assert ys[0] in multiset(xs);
      assert AtMost(xs[0], ys[0]) by { HeadIsLeast(xs, ys[0]); }
      assert AtMost(ys[0], xs[0]) by { HeadIsLeast(ys, xs[0]); }
      Antisymmetric(xs[0], ys[0]);
      assert multiset(xs[1..]) == multiset(xs) - multiset{xs[0]};
      assert multiset(ys[1..]) == multiset(ys) - multiset{ys[0]};
      SortedIsUnique(xs[1..], ys[1..]);
    }
  }

  lemma HeadIsLeast(xs: seq<string>, x: string)
    requires Sorted(xs) && x in xs
    ensures AtMost(xs[0], x)
  {
    Reflexive(x);
  }

  lemma {:induction false} Reflexive(a: string)
    ensures AtMost(a, a)
  {
    if a != "" { Reflexive(a[1..]); }
  }

  lemma {:induction false} SameElements(xs: seq<string>, ys: seq<string>)
    requires Distinct(xs) && Distinct(ys) && (forall k :: k in xs <==> k in ys)
    ensures multiset(xs) == multiset(ys)
  {
    forall k ensures multiset(xs)[k] == multiset(ys)[k] {
      AtMostOnce(xs, k);
      AtMostOnce(ys, k);
      assert k in multiset(xs) <==> k in xs;
      assert k in multiset(ys) <==> k in ys;
    }
  }

  lemma {:induction false} AtMostOnce(xs: seq<string>, k: string)
    requires Distinct(xs)
    ensures multiset(xs)[k] <= 1
  {
    if xs != [] {
      assert xs == [xs[0]] + xs[1..];
      AtMostOnce(xs[1..], k);
      assert k in multiset(xs[1..]) <==> k in xs[1..];
    }
  }

  /** Key and first value of each key in turn. */
  function Pairs(keys: seq<string>, form: Form): string {
    if keys == [] then "" else Pairs(keys[..|keys| - 1], form) + keys[|keys| - 1] + Get(form, keys[|keys| - 1])
  }

  /** The URL followed by what the builder appends for each key. */
  method Written(fullURL: string, form: Form, keys: seq<string>) returns (text: string)
    ensures text == fullURL + Pairs(keys, form)
  {
    text := fullURL;
    for i := 0 to |keys|
      invariant text == fullURL + Pairs(keys[..i], form)
    {
      assert keys[..i + 1][..i] == keys[..i];
      text := text + keys[i] + Get(form, keys[i]);
    }
    assert keys[..|keys|] == keys;
  }

  // ----- the text, part by part

  /** The parts one after the other. */
  function Joined(parts: seq<string>): string {
    if parts == [] then "" else Joined(parts[..|parts| - 1]) + parts[|parts| - 1]
  }

  lemma {:induction false} JoinedIsConcatenation(ps: seq<string>, qs: seq<string>, p: string)
    ensures Joined([]) == "" && Joined([p]) == p && Joined(ps + qs) == Joined(ps) + Joined(qs)
  {
    assert [p][..0] == [];
    if qs == [] {
      assert ps + qs == ps;
    } else {
      JoinedIsConcatenation(ps, qs[..|qs| - 1], p);
      assert (ps + qs)[..|ps + qs| - 1] == ps + qs[..|qs| - 1];
    }
  }

  /** Part `i` is key `i` with its first value, or alone if it has none. */
  ghost predicate PartsOf(parts: seq<string>, keys: seq<string>, form: Form) {
    |parts| == |keys| && forall i | 0 <= i < |keys| ::
      parts[i] == if keys[i] in form && |form[keys[i]]| > 0 then keys[i] + form[keys[i]][0] else keys[i]
  }

  /** Every way of writing the parts gives the text that is signed, and there is one. */
  lemma {:induction false} PairsAreParts(keys: seq<string>, form: Form) returns (parts: seq<string>)
    ensures PartsOf(parts, keys, form) && Pairs(keys, form) == Joined(parts)
  {
    if keys == [] {
      parts := [];
    } else {
      var n := |keys| - 1;
      var before := PairsAreParts(keys[..n], form);
      parts := before + [keys[n] + Get(form, keys[n])];
      OnePartMore(before, keys, form);
      JoinedMore(before, keys[n], Get(form, keys[n]));
    }
  }

  lemma OnePartMore(before: seq<string>, keys: seq<string>, form: Form)
    requires keys != [] && PartsOf(before, keys[..|keys| - 1], form)
    ensures PartsOf(before + [keys[|keys| - 1] + Get(form, keys[|keys| - 1])], keys, form)
  {
    var n := |keys| - 1;
    assert |Get(form, keys[n])| == 0 ==> keys[n] + Get(form, keys[n]) == keys[n];
    assert forall i | 0 <= i < n :: keys[..n][i] == keys[i];
  }

  lemma JoinedMore(before: seq<string>, a: string, b: string)
    ensures Joined(before + [a + b]) == Joined(before) + a + b
  {
    assert (before + [a + b])[..|before|] == before;
    Regrouped(Joined(before), a, b);
  }

  /** The forms have the same keys, and their first values differ at `k` and nowhere else. */
  ghost predicate DifferOnlyAt(form: Form, other: Form, k: string) {
    && form.Keys == other.Keys && k in form
    && (forall x <- form | x != k :: form[x][..if form[x] == [] then 0 else 1] == other[x][..if other[x] == [] then 0 else 1])
    && (if form[k] == [] then "" else form[k][0]) != (if other[k] == [] then "" else other[k][0])
  }

  lemma {:induction false} PairsAgree(keys: seq<string>, form: Form, other: Form, k: string)
    requires DifferOnlyAt(form, other, k) && k !in keys
    ensures Pairs(keys, form) == Pairs(keys, other)
  {
    if keys != [] {
      var n := |keys| - 1;
      PairsAgree(keys[..n], form, other, k);
      SameFirst(form, other, k, keys[n]);
    }
  }

  lemma SameFirst(form: Form, other: Form, k: string, x: string)
    requires DifferOnlyAt(form, other, k) && x != k
    ensures Get(form, x) == Get(other, x)
  {
    if x in form {
      var one, two := form[x][..if form[x] == [] then 0 else 1], other[x][..if other[x] == [] then 0 else 1];
      assert one == two && (one == [] <==> form[x] == []) && (two == [] <==> other[x] == []);
      if form[x] != [] { assert form[x][0] == one[0] == two[0] == other[x][0]; }
    }
  }

  lemma SameEnd(a: string, b: string, c: string)
    requires a + c == b + c
    ensures a == b
  {
    assert |a| == |b|;
    assert a == (a + c)[..|a|] == (b + c)[..|b|] == b;
  }

  lemma SameStart(c: string, a: string, b: string)
    requires c + a == c + b
    ensures a == b
  {
    assert a == (c + a)[|c|..] == (c + b)[|c|..] == b;
  }

  /** A form whose first values differ at one key is written differently. */
  lemma {:induction false} OneValueMatters(keys: seq<string>, form: Form, other: Form, k: string)
    requires DifferOnlyAt(form, other, k) && Distinct(keys) && k in keys
    ensures Pairs(keys, form) != Pairs(keys, other)
  {
    var n := |keys| - 1;
    if keys[n] == k {
      PairsAgree(keys[..n], form, other, k);
      if Pairs(keys, form) == Pairs(keys, other) {
        SameStart(Pairs(keys[..n], form) + k, Get(form, k), Get(other, k));
        assert false;
      }
    } else {
      OneValueMatters(keys[..n], form, other, k);
      SameFirst(form, other, k, keys[n]);
      if Pairs(keys, form) == Pairs(keys, other) {
        Regrouped(Pairs(keys[..n], form), keys[n], Get(form, keys[n]));
        Regrouped(Pairs(keys[..n], other), keys[n], Get(form, keys[n]));
        SameEnd(Pairs(keys[..n], form), Pairs(keys[..n], other), keys[n] + Get(form, keys[n]));
        assert false;
      }
    }
  }

  /** At exactly one key: keys and values have nothing between them, so two differences may cancel out. */
  lemma TwoDifferencesMayCancel()
    ensures Pairs(["a", "b"], map["a" := ["b"], "b" := [""]]) == Pairs(["a", "b"], map["a" := [""], "b" := ["b"]])
  {
    var f, g: Form := map["a" := ["b"], "b" := [""]], map["a" := [""], "b" := ["b"]];
    assert ["a", "b"][..1] == ["a"] && ["a"][..0] == [];
    assert Pairs([], f) == "" == Pairs([], g);
    assert Pairs(["a"], f) == "ab" && Pairs(["a"], g) == "a";
    assert Pairs(["a", "b"], f) == "abb" == Pairs(["a", "b"], g);
  }

  lemma Regrouped(a: string, b: string, c: string)
    ensures a + b + c == a + (b + c)
  {
  }

  /** The string that is signed, built from the keys as one `range` over the form visits them. */
  method Canonical(fullURL: string, form: Form, visited: seq<string>) returns (text: string, sorted: seq<string>, ghost parts: seq<string>)
    requires Enumerates(visited, form)
    ensures Sorted(sorted) && multiset(sorted) == multiset(visited) && text == fullURL + Pairs(sorted, form)
    ensures PartsOf(parts, sorted, form) && text == fullURL + Joined(parts)
  {
    var keys := new string[|visited|](i requires 0 <= i < |visited| => visited[i]);
    assert keys[..] == visited;
    SortStrings(keys);
    sorted := keys[..];
    text := Written(fullURL, form, sorted);
    parts := PairsAreParts(sorted, form);
  }

  /** HMAC-SHA1 and base64 are left open: `mac` is any function of token and text. */
  method Sign(mac: (string, string) -> string, token: string, fullURL: string, form: Form, visited: seq<string>) returns (signature: string)
    requires Enumerates(visited, form)
    ensures forall sorted: seq<string> :: Sorted(sorted) && multiset(sorted) == multiset(visited) ==>
              signature == mac(token, fullURL + Pairs(sorted, form))
  {
    var text, sorted, _ := Canonical(fullURL, form, visited);
    forall other: seq<string> | Sorted(other) && multiset(other) == multiset(visited) ensures other == sorted {
      SortedIsUnique(other, sorted);
    }
    signature := mac(token, text);
  }

  method VerifySignature(mac: (string, string) -> string, token: string, fullURL: string, provided: string, form: Form, visited: seq<string>)
    returns (ok: bool)
    requires Enumerates(visited, form)
    ensures forall sorted: seq<string> :: Sorted(sorted) && multiset(sorted) == multiset(visited) ==>
              (ok <==> provided == mac(token, fullURL + Pairs(sorted, form)))
  {
    var text, sorted, _ := Canonical(fullURL, form, visited);
    forall other: seq<string> | Sorted(other) && multiset(other) == multiset(visited) ensures other == sorted {
      SortedIsUnique(other, sorted);
    }
    ok := provided == mac(token, text);
  }

  /** A signature made for a form verifies for the same token, URL and form, in whatever orders
      the sender's and the receiver's maps are visited. */
  method SignThenVerify(mac: (string, string) -> string, token: string, fullURL: string, form: Form, sender: seq<string>, receiver: seq<string>)
    returns (ok: bool)
    requires Enumerates(sender, form) && Enumerates(receiver, form)
    ensures ok
  {
    var s := Sign(mac, token, fullURL, form, sender);
    ok := VerifySignature(mac, token, fullURL, s, form, receiver);
    SameElements(sender, receiver);
    var _, sorted, _ := Canonical(fullURL, form, sender);
  }

  /** Two different texts with the same mac. */
  ghost predicate Collides(mac: (string, string) -> string, token: string) {
    exists x, y :: x != y && mac(token, x) == mac(token, y)
  }

  /** The signature of one form is accepted for a form with another first value at one key only if
      the mac of that token does not tell two texts apart. */
  method SignThenAlter(mac: (string, string) -> string, token: string, fullURL: string, form: Form, other: Form, ghost k: string,
                       sender: seq<string>, receiver: seq<string>)
    returns (ok: bool)
    requires Enumerates(sender, form) && Enumerates(receiver, other) && DifferOnlyAt(form, other, k)
    ensures ok ==> Collides(mac, token)
  {
    var s := Sign(mac, token, fullURL, form, sender);
    ok := VerifySignature(mac, token, fullURL, s, other, receiver);
    SameElements(sender, receiver);
    var _, sorted, _ := Canonical(fullURL, form, sender);
    SortedIsDistinct(sorted, sender);
    OneValueMatters(sorted, form, other, k);
    if fullURL + Pairs(sorted, form) == fullURL + Pairs(sorted, other) {
      SameStart(fullURL, Pairs(sorted, form), Pairs(sorted, other));
      assert false;
    }
    assert ok ==> mac(token, fullURL + Pairs(sorted, form)) == mac(token, fullURL + Pairs(sorted, other));
  }

  /** And the signature for one URL is accepted for another one only under the same condition. */
  method SignThenReroute(mac: (string, string) -> string, token: string, fullURL: string, otherURL: string, form: Form,
                         sender: seq<string>, receiver: seq<string>)
    returns (ok: bool)
    requires Enumerates(sender, form) && Enumerates(receiver, form) && fullURL != otherURL
    ensures ok ==> Collides(mac, token)
  {
    var s := Sign(mac, token, fullURL, form, sender);
    ok := VerifySignature(mac, token, otherURL, s, form, receiver);
    SameElements(sender, receiver);
    var _, sorted, _ := Canonical(fullURL, form, sender);
    if fullURL + Pairs(sorted, form) == otherURL + Pairs(sorted, form) {
      SameEnd(fullURL, otherURL, Pairs(sorted, form));
      assert false;
    }
    assert ok ==> mac(token, fullURL + Pairs(sorted, form)) == mac(token, otherURL + Pairs(sorted, form));
  }

  lemma SortedIsDistinct(sorted: seq<string>, keys: seq<string>)
    requires multiset(sorted) == multiset(keys) && Distinct(keys)
    ensures Distinct(sorted) && forall k :: k in sorted <==> k in keys
  {
    forall k ensures k in sorted <==> k in keys {
      assert k in sorted <==> k in multiset(sorted);
      assert k in keys <==> k in multiset(keys);
    }
    forall i, j | 0 <= i < j < |sorted| ensures sorted[i] != sorted[j] {
      AtMostOnce(keys, sorted[i]);
      if sorted[i] == sorted[j] { TwiceIn(sorted, i, j); }
    }
  }

  lemma TwiceIn(xs: seq<string>, i: nat, j: nat)
    requires i < j < |xs| && xs[i] == xs[j]
    ensures multiset(xs)[xs[i]] >= 2
  {
    assert xs == xs[..j] + [xs[j]] + xs[j + 1..];
    assert xs[..j][i] in multiset(xs[..j]);
  }
}
