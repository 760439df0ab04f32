/**
 * The display masks for CNPJ and CEP numbers.  Both are a `re.sub` whose
 * pattern is a fixed number of `\d` groups with no anchors, so the
 * substitution is a left-to-right scan: when the next `Largura(p)`
 * characters are all digits they are replaced by the masked group and the
 * scan resumes after them; otherwise one character is copied.
 */
module Mascara {

  /** `\d`, restricted to the ASCII decimal digits. */
  predicate EhDigito(c: char) {
    '0' <= c <= '9'
  }

  predicate SoDigitos(s: string) {
    forall i :: 0 <= i < |s| ==> EhDigito(s[i])
  }

  /** The digits of `s` in their order, every other character dropped. */
  function Digitos(s: string): (r: string)
    ensures |r| <= |s|
    ensures SoDigitos(r)
  {
    if s == [] then []
    else (if EhDigito(s[0]) then [s[0]] else []) + Digitos(s[1..])
  }

  /** The two patterns: `(\d{2})(\d{3})(\d{3})(\d{4})(\d{2})` and `(\d{5})(\d{3})`. */
  datatype Padrao = Cnpj | Cep

  /** How many consecutive digits the pattern matches. */
  function Largura(p: Padrao): nat {
    match p
    case Cnpj => 14
    case Cep => 8
  }

  /** The replacement template applied to one matched run: `\1.\2.\3/\4-\5` or `\1-\2`. */
  function Substitui(p: Padrao, g: string): string
    requires |g| == Largura(p)
  {
    match p
    case Cnpj => g[..2] + "." + g[2..5] + "." + g[5..8] + "/" + g[8..12] + "-" + g[12..]
    case Cep => g[..5] + "-" + g[5..]
  }

  /** The pattern matches `s` at position `i`. */
  predicate CasaEm(p: Padrao, s: string, i: nat) {
    i + Largura(p) <= |s| && SoDigitos(s[i..i + Largura(p)])
  }

  /** `s` holds a run of `Largura(p)` consecutive digits somewhere. */
  predicate TemOcorrencia(p: Padrao, s: string) {
    exists i: nat | i <= |s| :: CasaEm(p, s, i)
  }

  /** `re.sub(pattern, template, s)` for the pattern `p`. */
  function Sub(p: Padrao, s: string): (r: string)
    ensures |r| >= |s|
    decreases |s|
  {
    if CasaEm(p, s, 0) then Substitui(p, s[..Largura(p)]) + Sub(p, s[Largura(p)..])
    else if s == [] then []
    else [s[0]] + Sub(p, s[1..])
  }

  lemma {:induction false} DigitosConcat(a: string, b: string)
    ensures Digitos(a + b) == Digitos(a) + Digitos(b)
    decreases |a|
  {
    if a != [] {
      assert (a + b)[1..] == a[1..] + b;
      DigitosConcat(a[1..], b);
    } else {
      assert a + b == b;
    }
  }

  lemma {:induction false} DigitosDeDigitos(s: string)
    requires SoDigitos(s)
    ensures Digitos(s) == s
    decreases |s|
  {
    if s != [] {
      DigitosDeDigitos(s[1..]);
    }
  }

  /** Shifting the scan by one character shifts every match position by one. */
  lemma CasaEmCauda(p: Padrao, s: string, i: nat)
    requires s != []
    ensures CasaEm(p, s[1..], i) <==> CasaEm(p, s, i + 1)
  {
    if i + Largura(p) <= |s| - 1 {
      assert s[1..][i..i + Largura(p)] == s[i + 1..i + 1 + Largura(p)];
    }
  }

  /** A string with no run of `Largura(p)` digits comes back unchanged. */
  lemma {:induction false} SubSemOcorrencia(p: Padrao, s: string)
    requires !TemOcorrencia(p, s)
    ensures Sub(p, s) == s
    decreases |s|
  {
    assert !CasaEm(p, s, 0);
    if s != [] {
      forall i: nat ensures !CasaEm(p, s[1..], i) {
        CasaEmCauda(p, s, i);
        assert !CasaEm(p, s, i + 1);
      }
      SubSemOcorrencia(p, s[1..]);
      assert s == [s[0]] + s[1..];
    }
  }

  /** A string holding such a run grows: at least one group was masked. */
  lemma {:induction false} SubComOcorrenciaCresce(p: Padrao, s: string)
    requires TemOcorrencia(p, s)
    ensures |Sub(p, s)| > |s|
    decreases |s|
  {
    if !CasaEm(p, s, 0) {
      var i: nat :| CasaEm(p, s, i);
      assert i > 0;
      CasaEmCauda(p, s, i - 1);
      SubComOcorrenciaCresce(p, s[1..]);
    }
  }

  /** The substitution leaves `s` as it is exactly when `s` holds no run to mask. */
  lemma SubInalteradaSse(p: Padrao, s: string)
    ensures Sub(p, s) == s <==> !TemOcorrencia(p, s)
  {
    if TemOcorrencia(p, s) {
      SubComOcorrenciaCresce(p, s);
    } else {
      SubSemOcorrencia(p, s);
    }
  }

  /** On a string that is exactly one run of digits, the result is that run masked. */
  lemma SubExata(p: Padrao, g: string)
    requires |g| == Largura(p) && SoDigitos(g)
    ensures Sub(p, g) == Substitui(p, g)
  {
    assert g[0..Largura(p)] == g[..Largura(p)] == g;
    assert CasaEm(p, g, 0);
    assert g[Largura(p)..] == [];
  }

  /**
   * Two runs separated by a non-digit are both masked: the scan resumes
   * after the first match instead of stopping there.
   */
  lemma SubDuasOcorrencias(p: Padrao, g1: string, c: char, g2: string)
    requires |g1| == Largura(p) && SoDigitos(g1)
    requires |g2| == Largura(p) && SoDigitos(g2)
    requires !EhDigito(c)
    ensures Sub(p, g1 + [c] + g2) == Substitui(p, g1) + [c] + Substitui(p, g2)
  {
    var w := Largura(p);
    var s := g1 + [c] + g2;
    var resto := [c] + g2;
    assert s[0..w] == s[..w] == g1;
    assert CasaEm(p, s, 0);
    assert s[w..] == resto;
    assert resto[0..w][0] == c;
    assert !CasaEm(p, resto, 0);
    assert resto[1..] == g2;
    SubExata(p, g2);
  }

  /** Where the CNPJ template puts the matched digits and the separators. */
  lemma SubstituiCnpjPosicoes(g: string)
    requires |g| == 14
    ensures var r := Substitui(Cnpj, g);
      && |r| == 18
      && r[2] == '.' && r[6] == '.' && r[10] == '/' && r[15] == '-'
      && r[..2] == g[..2] && r[3..6] == g[2..5] && r[7..10] == g[5..8]
      && r[11..15] == g[8..12] && r[16..] == g[12..]
  {
  }

  /** The CNPJ layout: 18 characters, `.` `.` `/` `-` at 2, 6, 10, 15, the 14 digits in order elsewhere. */
  lemma SubstituiCnpj(g: string)
    requires |g| == 14 && SoDigitos(g)
    ensures var r := Substitui(Cnpj, g);
      && |r| == 18
      && r[2] == '.' && r[6] == '.' && r[10] == '/' && r[15] == '-'
      && (forall i :: 0 <= i < 18 && i !in {2, 6, 10, 15} ==> EhDigito(r[i]))
      && Digitos(r) == g
  {
    var r := Substitui(Cnpj, g);
    SubstituiCnpjPosicoes(g);
    forall i | 0 <= i < 18 && i !in {2, 6, 10, 15} ensures EhDigito(r[i]) {
      if i < 2 { assert r[i] == r[..2][i] == g[i]; }
      else if i < 6 { assert r[i] == r[3..6][i - 3] == g[i - 1]; }
      else if i < 10 { assert r[i] == r[7..10][i - 7] == g[i - 2]; }
      else if i < 15 { assert r[i] == r[11..15][i - 11] == g[i - 3]; }
      else { assert r[i] == r[16..][i - 16] == g[i - 4]; }
    }
    SubstituiCnpjDigitos(g);
  }

  lemma SubstituiCnpjDigitos(g: string)
    requires |g| == 14 && SoDigitos(g)
    ensures Digitos(Substitui(Cnpj, g)) == g
  {
    var a, b, c, d, e := g[..2], g[2..5], g[5..8], g[8..12], g[12..];
    DigitosConcat(a + "." + b + "." + c + "/" + d + "-", e);
    DigitosConcat(a + "." + b + "." + c + "/" + d, "-");
    DigitosConcat(a + "." + b + "." + c + "/", d);
    DigitosConcat(a + "." + b + "." + c, "/");
    DigitosConcat(a + "." + b + ".", c);
    DigitosConcat(a + "." + b, ".");
    DigitosConcat(a + ".", b);
    DigitosConcat(a, ".");
    DigitosDeDigitos(a);
    DigitosDeDigitos(b);
    DigitosDeDigitos(c);
    DigitosDeDigitos(d);
    DigitosDeDigitos(e);
    assert a + b + c + d + e == g;
  }

  /** The CEP layout: 9 characters, `-` at 5, and deleting it gives back the 8 digits. */
  lemma SubstituiCep(g: string)
    requires |g| == 8 && SoDigitos(g)
    ensures var r := Substitui(Cep, g);
      && |r| == 9
      && r[5] == '-'
      && r[..5] + r[6..] == g
      && Digitos(r) == g
  {
    var r := Substitui(Cep, g);
    assert r[..5] == g[..5] && r[6..] == g[5..];
    assert g[..5] + g[5..] == g;
    DigitosConcat(g[..5] + "-", g[5..]);
    DigitosConcat(g[..5], "-");
    DigitosDeDigitos(g[..5]);
    DigitosDeDigitos(g[5..]);
  }

  /** A masked group holds no run to mask again: every window of its width covers a separator. */
  lemma SubstituiSemOcorrencia(p: Padrao, g: string)
    requires |g| == Largura(p) && SoDigitos(g)
    ensures !TemOcorrencia(p, Substitui(p, g))
  {
    var r := Substitui(p, g);
    var sep := if p == Cnpj then 10 else 5;
    if p == Cnpj {
      SubstituiCnpj(g);
    } else {
      SubstituiCep(g);
    }
    assert !EhDigito(r[sep]);
    forall i: nat | i + Largura(p) <= |r| ensures !CasaEm(p, r, i) {
      assert r[i..i + Largura(p)][sep - i] == r[sep];
    }
  }

  /**
   * On every string no longer than the pattern (every value the `max_length`
   * of the masked field admits) masking twice is masking once.
   */
  lemma SubIdempotenteCurta(p: Padrao, s: string)
    requires |s| <= Largura(p)
    ensures Sub(p, Sub(p, s)) == Sub(p, s)
  {
    if CasaEm(p, s, 0) {
      assert s[0..Largura(p)] == s;
      SubExata(p, s);
      SubstituiSemOcorrencia(p, s);
      SubSemOcorrencia(p, Substitui(p, s));
    } else {
      assert !TemOcorrencia(p, s);
      SubSemOcorrencia(p, s);
    }
  }

  /**
   * Longer strings break idempotence: on 27 digits the CNPJ mask masks the
   * first 14 and copies the other 13, which join the last two masked digits
   * into a run of 15.
   */
  lemma CnpjNaoIdempotente(s: string)
    requires |s| == 27 && SoDigitos(s)
    ensures Sub(Cnpj, Sub(Cnpj, s)) != Sub(Cnpj, s)
  {
    var g, b := s[..14], s[14..];
    assert s[0..14] == g;
    assert CasaEm(Cnpj, s, 0);
    assert !TemOcorrencia(Cnpj, b);
    SubSemOcorrencia(Cnpj, b);
    var r := Substitui(Cnpj, g);
    SubstituiCnpj(g);
    var t := Sub(Cnpj, s);
    assert t == r + b;
    forall j | 0 <= j < 14 ensures EhDigito(t[16..30][j]) {
      if j < 2 {
        assert t[16..30][j] == r[16 + j];
      } else {
        assert t[16..30][j] == b[j - 2];
      }
    }
    assert CasaEm(Cnpj, t, 16);
    SubComOcorrenciaCresce(Cnpj, t);
  }

  /** The same for the CEP mask on 15 digits: the copied 7 join the last 3 masked ones. */
  lemma CepNaoIdempotente(s: string)
    requires |s| == 15 && SoDigitos(s)
    ensures Sub(Cep, Sub(Cep, s)) != Sub(Cep, s)
  {
    var g, b := s[..8], s[8..];
    assert s[0..8] == g;
    assert CasaEm(Cep, s, 0);
    assert !TemOcorrencia(Cep, b);
    SubSemOcorrencia(Cep, b);
    var r := Substitui(Cep, g);
    SubstituiCep(g);
    var t := Sub(Cep, s);
    assert t == r + b;
    forall j | 0 <= j < 8 ensures EhDigito(t[6..14][j]) {
      if j < 3 {
        assert t[6..14][j] == r[6 + j] == g[5 + j];
      } else {
        assert t[6..14][j] == b[j - 3];
      }
    }
    assert CasaEm(Cep, t, 6);
    SubComOcorrenciaCresce(Cep, t);
  }
}
