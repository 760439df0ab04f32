/** `order_by(...)` on a text column: code-point lexicographic order, and a sort by it. */
module Ordenacao {

  /** `a` sorts no later than `b`. */
  predicate NomeAntes(a: string, b: string)
    decreases |a|
  {
    a == [] || (b != [] && (a[0] < b[0] || (a[0] == b[0] && NomeAntes(a[1..], b[1..]))))
  }

  lemma {:induction false} NomeAntesReflexivo(a: string)
    ensures NomeAntes(a, a)
    decreases |a|
  {
    if a != [] {
      NomeAntesReflexivo(a[1..]);
    }
  }

  lemma {:induction false} NomeAntesTotal(a: string, b: string)
    ensures NomeAntes(a, b) || NomeAntes(b, a)
    decreases |a|
  {
    if a != [] && b != [] && a[0] == b[0] {
      NomeAntesTotal(a[1..], b[1..]);
    }
  }

  lemma {:induction false} NomeAntesTransitivo(a: string, b: string, c: string)
    requires NomeAntes(a, b) && NomeAntes(b, c)
    ensures NomeAntes(a, c)
    decreases |a|
  {
    if a != [] && b != [] && c != [] && a[0] == b[0] && b[0] == c[0] {
      NomeAntesTransitivo(a[1..], b[1..], c[1..]);
    }
  }

  lemma {:induction false} NomeAntesAntissimetrico(a: string, b: string)
    requires NomeAntes(a, b) && NomeAntes(b, a)
    ensures a == b
    decreases |a|
  {
    if a != [] {
      NomeAntesAntissimetrico(a[1..], b[1..]);
      assert a == [a[0]] + a[1..] && b == [b[0]] + b[1..];
    }
  }

  /** Every element sorts no later than every element after it. */
  predicate Ordenado<T>(s: seq<T>, chave: T -> string) {
    forall i, j :: 0 <= i < j < |s| ==> NomeAntes(chave(s[i]), chave(s[j]))
  }

  function Insere<T>(x: T, s: seq<T>, chave: T -> string): (r: seq<T>)
    ensures multiset(r) == multiset(s) + multiset{x}
    decreases |s|
  {
    if s == [] then [x]
    else if NomeAntes(chave(x), chave(s[0])) then [x] + s
    else
      assert s == [s[0]] + s[1..];
      [s[0]] + Insere(x, s[1..], chave)
  }

  /** Sorts by `chave`; elements with equal keys keep their order. */
  function Ordena<T>(s: seq<T>, chave: T -> string): (r: seq<T>)
    ensures multiset(r) == multiset(s)
    decreases |s|
  {
    if s == [] then []
    else
      assert s == [s[0]] + s[1..];
      Insere(s[0], Ordena(s[1..], chave), chave)
  }

  lemma {:induction false} InsereOrdenado<T>(x: T, s: seq<T>, chave: T -> string)
    requires Ordenado(s, chave)
    ensures Ordenado(Insere(x, s, chave), chave)
    decreases |s|
  {
    if s == [] {
    } else if NomeAntes(chave(x), chave(s[0])) {
      var r := [x] + s;
      forall i, j | 0 <= i < j < |r| ensures NomeAntes(chave(r[i]), chave(r[j])) {
        if i == 0 && j > 1 {
          NomeAntesTransitivo(chave(x), chave(s[0]), chave(s[j - 1]));
        }
      }
    } else {
      NomeAntesTotal(chave(x), chave(s[0]));
      var t := s[1..];
      assert Ordenado(t, chave) by {
        forall i, j | 0 <= i < j < |t| ensures NomeAntes(chave(t[i]), chave(t[j])) {
          assert t[i] == s[i + 1] && t[j] == s[j + 1];
        }
      }
      InsereOrdenado(x, t, chave);
      var resto := Insere(x, t, chave);
      var r := [s[0]] + resto;
      forall i, j | 0 <= i < j < |r| ensures NomeAntes(chave(r[i]), chave(r[j])) {
        if i == 0 {
          var y := resto[j - 1];
          assert y in multiset(resto);
          if y != x {
            assert y in multiset(t);
            var k :| 0 <= k < |t| && t[k] == y;
            assert s[k + 1] == y;
          }
        } else {
          assert r[i] == resto[i - 1] && r[j] == resto[j - 1];
        }
      }
    }
  }

  lemma {:induction false} OrdenaOrdenado<T>(s: seq<T>, chave: T -> string)
    ensures Ordenado(Ordena(s, chave), chave)
    decreases |s|
  {
    if s != [] {
      OrdenaOrdenado(s[1..], chave);
      InsereOrdenado(s[0], Ordena(s[1..], chave), chave);
    }
  }
}
