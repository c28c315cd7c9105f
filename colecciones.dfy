/**
 * Sequence helpers standing for the JavaScript array idioms the engine uses:
 * `filter`, `[...new Set(xs)]`, counting into an object with `forEach`,
 * `Math.max(...xs)`, `Math.min(...xs)` and the `reduce` forms that pick an
 * extreme element.
 */
module Colecciones {

  /** The elements of `s` satisfying `p`, in order (`Array.prototype.filter`). */
  function Filtrar<T(!new)>(s: seq<T>, p: T -> bool): (r: seq<T>)
    ensures |r| <= |s|
    ensures forall x :: x in r <==> x in s && p(x)
    ensures r == [] <==> forall x :: x in s ==> !p(x)
  {
    if s == [] then []
    else if p(s[0]) then [s[0]] + Filtrar(s[1..], p)
    else Filtrar(s[1..], p)
  }

  /** Each element is kept as many times as it occurs in `s` when it satisfies `p`, and dropped otherwise. */
  lemma {:induction false} FiltrarCuenta<T(!new)>(s: seq<T>, p: T -> bool)
    ensures forall x :: multiset(Filtrar(s, p))[x] == if p(x) then multiset(s)[x] else 0
  {
    if s != [] {
      FiltrarCuenta(s[1..], p);
      assert s == [s[0]] + s[1..];
      assert multiset(s) == multiset{s[0]} + multiset(s[1..]);
    }
  }

  /** Filtering keeps the order: the kept elements of `a + b` are those of `a` followed by those of `b`. */
  lemma {:induction false} FiltrarConcatena<T(!new)>(a: seq<T>, b: seq<T>, p: T -> bool)
    ensures Filtrar(a + b, p) == Filtrar(a, p) + Filtrar(b, p)
  {
    if a == [] {
      assert a + b == b;
    } else {
      FiltrarConcatena(a[1..], b, p);
      FiltrarPrimero(a, b, p);
    }
  }

  /** One step of the induction above: the head of `a` is kept or dropped in front of the rest. */
  lemma FiltrarPrimero<T(!new)>(a: seq<T>, b: seq<T>, p: T -> bool)
    requires a != []
    ensures Filtrar(a + b, p) == (if p(a[0]) then [a[0]] else []) + Filtrar(a[1..] + b, p)
  {
    assert (a + b)[0] == a[0] && (a + b)[1..] == a[1..] + b;
  }

  /** Filtering a sequence whose every element satisfies `p` returns it unchanged. */
  lemma {:induction false} FiltrarTodos<T(!new)>(s: seq<T>, p: T -> bool)
    requires forall x :: x in s ==> p(x)
    ensures Filtrar(s, p) == s
  {
    if s != [] {
      assert forall x :: x in s[1..] ==> x in s;
      FiltrarTodos(s[1..], p);
      assert s == [s[0]] + s[1..];
    }
  }

  ghost predicate Distintos<T>(s: seq<T>)
  {
    forall i, j :: 0 <= i < j < |s| ==> s[i] != s[j]
  }

  /** `[...new Set(s)]`: the distinct elements of `s` in order of first occurrence. */
  function SinRepetidos<T(==)>(s: seq<T>): seq<T>
  {
    if s == [] then []
    else
      var r := SinRepetidos(s[..|s| - 1]);
      if s[|s| - 1] in r then r else r + [s[|s| - 1]]
  }

  /** The set built from `s` holds the same elements as `s`, each once. */
  lemma {:induction false} SinRepetidosElementos<T(!new)>(s: seq<T>)
    ensures forall x :: x in SinRepetidos(s) <==> x in s
    ensures Distintos(SinRepetidos(s))
  {
    if s != [] {
      var p := s[..|s| - 1];
      assert s == p + [s[|s| - 1]];
      SinRepetidosElementos(p);
    }
  }

  /** A list without repeats is its own set: `[...new Set(s)]` gives `s` back. */
  lemma {:induction false} SinRepetidosDeDistintos<T>(s: seq<T>)
    requires Distintos(s)
    ensures SinRepetidos(s) == s
  {
    if s != [] {
      var p := s[..|s| - 1];
      assert Distintos(p);
      SinRepetidosDeDistintos(p);
      assert s[|s| - 1] !in p;
      assert s == p + [s[|s| - 1]];
    }
  }

  /** A non-empty list of one repeated element has that element as its only distinct one. */
  lemma {:induction false} SinRepetidosConstante<T>(s: seq<T>, x: T)
    requires s != [] && forall k :: 0 <= k < |s| ==> s[k] == x
    ensures SinRepetidos(s) == [x]
  {
    var p := s[..|s| - 1];
    if p != [] {
      SinRepetidosConstante(p, x);
    }
  }

  /** In a list without repeats, every element occurs exactly once. */
  lemma {:induction false} UnaVezCadaUno<T>(s: seq<T>)
    requires Distintos(s)
    ensures forall x :: x in s ==> multiset(s)[x] == 1
  {
    if s != [] {
      var p := s[..|s| - 1];
      var y := s[|s| - 1];
      assert Distintos(p);
      UnaVezCadaUno(p);
      assert y !in p;
      assert s == p + [y];
      assert multiset(s) == multiset(p) + multiset{y};
    }
  }

  /** The object built by `s.forEach(x => m[x] = (m[x] || 0) + 1)`, as a map. */
  function Contar<T(==)>(s: seq<T>): map<T, nat>
  {
    if s == [] then map[]
    else
      var m := Contar(s[..|s| - 1]);
      m[s[|s| - 1] := Valor(m, s[|s| - 1]) + 1]
  }

  /** The tally has a key for exactly the elements of `s`, holding the number of times each occurs. */
  lemma {:induction false} ContarCuenta<T(!new)>(s: seq<T>)
    ensures forall x :: x in Contar(s) <==> x in s
    ensures forall x :: x in Contar(s) ==> Contar(s)[x] == multiset(s)[x]
  {
    if s != [] {
      var p := s[..|s| - 1];
      var x := s[|s| - 1];
      assert s == p + [x];
      assert multiset(s) == multiset(p) + multiset{x};
      ContarCuenta(p);
    }
  }

  /** A count looked up with `|| 0`. */
  function Valor<T>(m: map<T, nat>, x: T): nat
  {
    if x in m then m[x] else 0
  }

  /** The sum of the counts `m` holds for the keys `claves`. */
  function SumaSobre<T>(claves: seq<T>, m: map<T, nat>): nat
  {
    if claves == [] then 0
    else SumaSobre(claves[..|claves| - 1], m) + Valor(m, claves[|claves| - 1])
  }

  lemma {:induction false} SumaSobreOtraClave<T>(claves: seq<T>, m: map<T, nat>, x: T, v: nat)
    requires x !in claves
    ensures SumaSobre(claves, m[x := v]) == SumaSobre(claves, m)
  {
    if claves != [] {
      SumaSobreOtraClave(claves[..|claves| - 1], m, x, v);
    }
  }

  lemma {:induction false} SumaSobreIncrementa<T>(claves: seq<T>, m: map<T, nat>, x: T)
    requires Distintos(claves) && x in claves
    ensures SumaSobre(claves, m[x := Valor(m, x) + 1]) == SumaSobre(claves, m) + 1
  {
    var p := claves[..|claves| - 1];
    var u := claves[|claves| - 1];
    assert claves == p + [u];
    if u == x {
      assert x !in p;
      SumaSobreOtraClave(p, m, x, Valor(m, x) + 1);
    } else {
      assert x in p;
      SumaSobreIncrementa(p, m, x);
    }
  }

  /** Summing the counts over the distinct elements gives back the length: every element is counted once. */
  lemma {:induction false} ConteosSumanLongitud<T(!new)>(s: seq<T>)
    ensures SumaSobre(SinRepetidos(s), Contar(s)) == |s|
  {
    if s != [] {
      var p := s[..|s| - 1];
      var x := s[|s| - 1];
      ConteosSumanLongitud(p);
      var d := SinRepetidos(p);
      var m := Contar(p);
      SinRepetidosElementos(p);
      ContarCuenta(p);
      assert s == p + [x];
      if x in d {
        SumaSobreIncrementa(d, m, x);
      } else {
        SumaSobreOtraClave(d, m, x, 1);
        assert x !in m;
        assert SinRepetidos(s) == d + [x];
        assert (d + [x])[..|d|] == d;
      }
    }
  }

  lemma ContarAgrega<T(!new)>(s: seq<T>, x: T)
    ensures Contar(s + [x]) == Contar(s)[x := Valor(Contar(s), x) + 1]
  {
    var t := s + [x];
    assert t[..|t| - 1] == s;
    assert t[|t| - 1] == x;
  }

  lemma SinRepetidosAgrega<T(!new)>(s: seq<T>, x: T)
    ensures SinRepetidos(s + [x]) == if x in s then SinRepetidos(s) else SinRepetidos(s) + [x]
  {
    SinRepetidosElementos(s);
    var t := s + [x];
    assert t[..|t| - 1] == s;
    assert t[|t| - 1] == x;
  }

  /** One more step of the counting loop over `s`. */
  lemma PasoConteo<T(!new)>(s: seq<T>, i: nat)
    requires i < |s|
    ensures Contar(s[..i + 1]) == Contar(s[..i])[s[i] := Valor(Contar(s[..i]), s[i]) + 1]
    ensures SinRepetidos(s[..i + 1]) ==
              if s[i] in Contar(s[..i]) then SinRepetidos(s[..i]) else SinRepetidos(s[..i]) + [s[i]]
  {
    assert s[..i + 1] == s[..i] + [s[i]];
    ContarCuenta(s[..i]);
    ContarAgrega(s[..i], s[i]);
    SinRepetidosAgrega(s[..i], s[i]);
  }

  /**
   * `s.forEach(x => { conteo[x] = (conteo[x] || 0) + 1; })` on an empty
   * object: the counts, and the keys in insertion order, which is the order
   * `Object.entries` lists them in.
   */
  method ContarEnOrden<T(==,!new)>(s: seq<T>) returns (conteo: map<T, nat>, claves: seq<T>)
    ensures conteo == Contar(s)
    ensures claves == SinRepetidos(s)
  {
    conteo := map[];
    claves := [];
    var i := 0;
    while i < |s|
      invariant 0 <= i <= |s|
      invariant conteo == Contar(s[..i])
      invariant claves == SinRepetidos(s[..i])
    {
      var x := s[i];
      PasoConteo(s, i);
      if x !in conteo {
        claves := claves + [x];
      }
      conteo := conteo[x := Valor(conteo, x) + 1];
      i := i + 1;
    }
    assert s[..|s|] == s;
  }

  /** `Math.max(...s.map(f))` on a non-empty array. */
  function MaximoDe<T(!new)>(s: seq<T>, f: T -> int): (m: int)
    requires |s| > 0
    ensures exists x :: x in s && f(x) == m
    ensures forall x :: x in s ==> f(x) <= m
  {
    if |s| == 1 then f(s[0])
    else
      var r := MaximoDe(s[1..], f);
      assert forall x :: x in s[1..] ==> x in s;
      if f(s[0]) > r then f(s[0]) else r
  }

  /** `Math.min(...s.map(f))` on a non-empty array. */
  function MinimoDe<T(!new)>(s: seq<T>, f: T -> real): (m: real)
    requires |s| > 0
    ensures exists x :: x in s && f(x) == m
    ensures forall x :: x in s ==> m <= f(x)
  {
    if |s| == 1 then f(s[0])
    else
      var r := MinimoDe(s[1..], f);
      assert forall x :: x in s[1..] ==> x in s;
      if f(s[0]) < r then f(s[0]) else r
  }

  /**
   * The index `s.reduce((a, b) => f(b) > f(a) ? b : a)` ends on: the first
   * element of maximal `f`.
   */
  function PrimerMaximo<T>(s: seq<T>, f: T -> int): (k: nat)
    requires |s| > 0
    ensures k < |s|
    ensures forall j :: 0 <= j < |s| ==> f(s[j]) <= f(s[k])
    ensures forall j :: 0 <= j < k ==> f(s[j]) < f(s[k])
  {
    if |s| == 1 then 0
    else
      var k := PrimerMaximo(s[..|s| - 1], f);
      if f(s[|s| - 1]) > f(s[k]) then |s| - 1 else k
  }

  /**
   * The index `s.reduce((a, b) => f(b) < f(a) ? b : a)` ends on: the first
   * element of minimal `f`.
   */
  function PrimerMinimo<T>(s: seq<T>, f: T -> int): (k: nat)
    requires |s| > 0
    ensures k < |s|
    ensures forall j :: 0 <= j < |s| ==> f(s[k]) <= f(s[j])
    ensures forall j :: 0 <= j < k ==> f(s[k]) < f(s[j])
  {
    if |s| == 1 then 0
    else
      var k := PrimerMinimo(s[..|s| - 1], f);
      if f(s[|s| - 1]) < f(s[k]) then |s| - 1 else k
  }

  /**
   * The index `Object.entries(m).reduce((a, b) => m[a[0]] > m[b[0]] ? a : b)`
   * ends on when the keys of `m` are listed in the order `claves`: ties go to
   * the later key, so it is the last key of maximal count.
   */
  function UltimoMasContado<T>(claves: seq<T>, m: map<T, nat>): (k: nat)
    requires |claves| > 0
    ensures k < |claves|
    ensures forall j :: 0 <= j < |claves| ==> Valor(m, claves[j]) <= Valor(m, claves[k])
    ensures forall j :: k < j < |claves| ==> Valor(m, claves[j]) < Valor(m, claves[k])
  {
    if |claves| == 1 then 0
    else
      var k := UltimoMasContado(claves[..|claves| - 1], m);
      if Valor(m, claves[k]) > Valor(m, claves[|claves| - 1]) then k else |claves| - 1
  }

  /** The most frequent element of `s`, the last one among ties in order of first occurrence. */
  function MasFrecuente<T(==,!new)>(s: seq<T>): (x: T)
    requires |s| > 0
    ensures x in s
    ensures forall y :: y in s ==> multiset(s)[y] <= multiset(s)[x]
  {
    var claves := SinRepetidos(s);
    var m := Contar(s);
    SinRepetidosElementos(s);
    ContarCuenta(s);
    assert s[0] in claves;
    var k := UltimoMasContado(claves, m);
    assert forall y :: y in s ==> exists j :: 0 <= j < |claves| && claves[j] == y;
    claves[k]
  }

  /**
   * Without repeats every element counts once, so the tie rule makes the
   * most frequent element the last one.
   */
  lemma MasFrecuenteDeDistintos<T(!new)>(s: seq<T>)
    requires |s| > 0 && Distintos(s)
    ensures MasFrecuente(s) == s[|s| - 1]
  {
    SinRepetidosDeDistintos(s);
    UnaVezCadaUno(s);
    ContarCuenta(s);
    var m := Contar(s);
    var k := UltimoMasContado(s, m);
    assert s[k] in s && s[|s| - 1] in s;
    assert Valor(m, s[k]) == 1 && Valor(m, s[|s| - 1]) == 1;
    assert k == |s| - 1;
  }
}
