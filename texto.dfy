/**
 * The three string operations the inventories use to search by name:
 * Python's `str.strip()`, `str.lower()` and the substring test `q in s`.
 * Strings are sequences of code points, as in Python 3.
 */
module Texto {

  /** Python's `str.isspace()` for one character (the characters `strip()` removes). */
  predicate EsEspacio(c: char) {
    || c == ' '
    || ('\t' <= c <= '\r')              // \t \n \v \f \r
    || ('\U{1c}' <= c <= '\U{1f}')      // file, group, record and unit separators
    || c == '\U{85}' || c == '\U{a0}' || c == '\U{1680}'
    || ('\U{2000}' <= c <= '\U{200a}')
    || c == '\U{2028}' || c == '\U{2029}' || c == '\U{202f}' || c == '\U{205f}' || c == '\U{3000}'
  }

  /** An upper-case letter of Basic Latin or Latin-1, which `str.lower()` maps to the character 32 code points higher. */
  predicate EsMayuscula(c: char) {
    ('A' <= c <= 'Z') || ('\U{c0}' <= c <= '\U{de}' && c != '\U{d7}')
  }

  /** `str.lower()` on one character of Basic Latin or Latin-1. */
  function MinusculaChar(c: char): (r: char)
    ensures !EsMayuscula(r)
    ensures EsMayuscula(c) ==> r as int == c as int + 32
    ensures !EsMayuscula(c) ==> r == c
  {
    if EsMayuscula(c) then (c as int + 32) as char else c
  }

  /** `s.lower()`: the string keeps its length and each character is lowered in place. */
  function Minusculas(s: string): (r: string)
    ensures |r| == |s|
    ensures forall i :: 0 <= i < |s| ==> r[i] == MinusculaChar(s[i])
  {
    if s == [] then [] else [MinusculaChar(s[0])] + Minusculas(s[1..])
  }

  /** Lowering twice is lowering once. */
  lemma MinusculasIdempotente(s: string)
    ensures Minusculas(Minusculas(s)) == Minusculas(s)
  {
    var once := Minusculas(s);
    assert forall i :: 0 <= i < |s| ==> MinusculaChar(once[i]) == once[i];
  }

  /** Leading whitespace removed (`s.lstrip()`). */
  function QuitarIniciales(s: string): (r: string)
    ensures |r| <= |s| && r == s[|s| - |r|..]
    ensures forall k :: 0 <= k < |s| - |r| ==> EsEspacio(s[k])
    ensures r != [] ==> !EsEspacio(r[0])
  {
    if s != [] && EsEspacio(s[0]) then QuitarIniciales(s[1..]) else s
  }

  /** Trailing whitespace removed (`s.rstrip()`). */
  function QuitarFinales(s: string): (r: string)
    ensures |r| <= |s| && r == s[..|r|]
    ensures forall k :: |r| <= k < |s| ==> EsEspacio(s[k])
    ensures r != [] ==> !EsEspacio(r[|r| - 1])
  {
    if s != [] && EsEspacio(s[|s| - 1]) then QuitarFinales(s[..|s| - 1]) else s
  }

  /** `r` is the slice of `s` at position `i`, and everything of `s` around it is whitespace. */
  ghost predicate RecorteEn(s: string, r: string, i: int) {
    && 0 <= i <= |s| - |r| && r == s[i..i + |r|]
    && (forall k :: 0 <= k < i ==> EsEspacio(s[k]))
    && (forall k :: i + |r| <= k < |s| ==> EsEspacio(s[k]))
  }

  /** `s.strip()`: leading, then trailing whitespace removed. */
  function Recortar(s: string): (r: string)
    ensures |r| <= |s|
    ensures exists i :: RecorteEn(s, r, i)
    ensures r != [] ==> !EsEspacio(r[0]) && !EsEspacio(r[|r| - 1])
  {
    var t := QuitarIniciales(s);
    var r := QuitarFinales(t);
    RecortarEsRecorte(s);
    assert r != [] ==> r[0] == t[0];
    r
  }

  /** Dropping leading, then trailing whitespace leaves a slice with only whitespace around it. */
  lemma RecortarEsRecorte(s: string)
    ensures RecorteEn(s, QuitarFinales(QuitarIniciales(s)), |s| - |QuitarIniciales(s)|)
  {
    RecorteDeTrozos(s, QuitarIniciales(s), QuitarFinales(QuitarIniciales(s)));
  }

  /** A whitespace-led suffix `t` of `s`, cut to a prefix `r` followed by whitespace, leaves `r` as the slice. */
  lemma RecorteDeTrozos(s: string, t: string, r: string)
    requires |t| <= |s| && t == s[|s| - |t|..] && forall k :: 0 <= k < |s| - |t| ==> EsEspacio(s[k])
    requires |r| <= |t| && r == t[..|r|] && forall k :: |r| <= k < |t| ==> EsEspacio(t[k])
    ensures RecorteEn(s, r, |s| - |t|)
  {
    var i := |s| - |t|;
    PrefijoDeSufijo(s, t, r, i);
    BlancosDeSufijo(s, t, r, i);
  }

  /** A prefix of the suffix from `i` is the slice from `i` of that length. */
  lemma PrefijoDeSufijo(s: string, t: string, r: string, i: nat)
    requires i <= |s| && t == s[i..] && |r| <= |t| && r == t[..|r|]
    ensures r == s[i..i + |r|]
  {
    assert forall k :: 0 <= k < |r| ==> r[k] == s[i + k];
  }

  /** Whitespace after a prefix of the suffix from `i` is whitespace of `s` after the slice. */
  lemma BlancosDeSufijo(s: string, t: string, r: string, i: nat)
    requires i <= |s| && t == s[i..] && |r| <= |t|
    requires forall k :: |r| <= k < |t| ==> EsEspacio(t[k])
    ensures forall k :: i + |r| <= k < |s| ==> EsEspacio(s[k])
  {
    forall k | i + |r| <= k < |s|
      ensures EsEspacio(s[k])
    {
      assert s[k] == t[k - i];
    }
  }

  /** Stripping an already stripped string changes nothing. */
  lemma RecortarIdempotente(s: string)
    ensures Recortar(Recortar(s)) == Recortar(s)
  {
    var r := Recortar(s);
    if r != [] {
      assert QuitarIniciales(r) == r;
      assert QuitarFinales(r) == r;
    }
  }

  /** Lowering never creates or removes whitespace. */
  lemma MinusculaConservaEspacio(c: char)
    ensures EsEspacio(MinusculaChar(c)) == EsEspacio(c)
  {
  }

  /** Lowering commutes with dropping the first character. */
  lemma MinusculasSinPrimero(s: string)
    requires s != []
    ensures Minusculas(s)[1..] == Minusculas(s[1..])
  {
  }

  /** Lowering commutes with dropping the last character. */
  lemma MinusculasSinUltimo(s: string)
    requires s != []
    ensures Minusculas(s)[..|s| - 1] == Minusculas(s[..|s| - 1])
  {
    var n := |s| - 1;
    forall k | 0 <= k < n
      ensures Minusculas(s)[..n][k] == Minusculas(s[..n])[k]
    {
      assert s[..n][k] == s[k];
    }
  }

  lemma {:induction false} QuitarInicialesMinusculas(s: string)
    ensures QuitarIniciales(Minusculas(s)) == Minusculas(QuitarIniciales(s))
    decreases |s|
  {
    if s != [] {
      MinusculaConservaEspacio(s[0]);
      assert Minusculas(s)[0] == MinusculaChar(s[0]);
      if EsEspacio(s[0]) {
        MinusculasSinPrimero(s);
        QuitarInicialesMinusculas(s[1..]);
      }
    }
  }

  lemma {:induction false} QuitarFinalesMinusculas(s: string)
    ensures QuitarFinales(Minusculas(s)) == Minusculas(QuitarFinales(s))
    decreases |s|
  {
    if s != [] {
      var n := |s| - 1;
      MinusculaConservaEspacio(s[n]);
      assert Minusculas(s)[n] == MinusculaChar(s[n]);
      var m := Minusculas(s);
      if EsEspacio(s[n]) {
        MinusculasSinUltimo(s);
        assert QuitarFinales(m) == QuitarFinales(m[..n]);
        assert QuitarFinales(s) == QuitarFinales(s[..n]);
        QuitarFinalesMinusculas(s[..n]);
      } else {
        assert QuitarFinales(m) == m;
        assert QuitarFinales(s) == s;
      }
    }
  }

  /** `s.lower().strip() == s.strip().lower()`. */
  lemma RecortarMinusculas(s: string)
    ensures Recortar(Minusculas(s)) == Minusculas(Recortar(s))
  {
    QuitarInicialesMinusculas(s);
    QuitarFinalesMinusculas(QuitarIniciales(s));
  }

  /** Position `i` of `t` starts a copy of `p`. */
  predicate EnPosicion(p: string, t: string, i: int) {
    0 <= i <= |t| - |p| && t[i..i + |p|] == p
  }

  /** Some position of `t` starts a copy of `p`. */
  ghost predicate Aparece(p: string, t: string) {
    exists i :: EnPosicion(p, t, i)
  }

  /** Python's `p in t` for strings: a left-to-right scan for `p` inside `t`. */
  predicate Contiene(t: string, p: string)
    ensures Contiene(t, p) ==> |p| <= |t|
    ensures |p| == |t| ==> (Contiene(t, p) <==> p == t)
    decreases |t|
  {
    if |p| > |t| then false
    else if t[..|p|] == p then true
    else Contiene(t[1..], p)
  }

  /** The scan finds `p` exactly when `p` occurs somewhere in `t`. */
  lemma {:induction false} ContieneSiAparece(t: string, p: string)
    ensures Contiene(t, p) <==> Aparece(p, t)
    decreases |t|
  {
    if |p| > |t| {
    } else if t[..|p|] == p {
      assert EnPosicion(p, t, 0);
    } else {
      assert Contiene(t, p) == Contiene(t[1..], p);
      ContieneSiAparece(t[1..], p);
      AparecePorCola(p, t);
    }
  }

  /** When `p` is not at the start of `t`, it occurs in `t` exactly when it occurs in the rest of `t`. */
  lemma AparecePorCola(p: string, t: string)
    requires t != [] && !EnPosicion(p, t, 0)
    ensures Aparece(p, t) <==> Aparece(p, t[1..])
  {
    if Aparece(p, t) {
      var i :| EnPosicion(p, t, i);
      assert t[1..][i - 1..i - 1 + |p|] == t[i..i + |p|];
      assert EnPosicion(p, t[1..], i - 1);
    }
    if Aparece(p, t[1..]) {
      var i :| EnPosicion(p, t[1..], i);
      assert t[i + 1..i + 1 + |p|] == t[1..][i..i + |p|];
      assert EnPosicion(p, t, i + 1);
    }
  }

  /** An occurrence survives lowering both strings. */
  lemma MinusculasEnPosicion(p: string, t: string, i: int)
    requires EnPosicion(p, t, i)
    ensures EnPosicion(Minusculas(p), Minusculas(t), i)
  {
    var lt, lp := Minusculas(t), Minusculas(p);
    forall k | 0 <= k < |p|
      ensures lt[i..i + |p|][k] == lp[k]
    {
      assert t[i..i + |p|][k] == p[k];
    }
  }

  /** The empty string occurs in every string (`"" in t` is true). */
  lemma ContieneVacio(t: string)
    ensures Contiene(t, "")
  {
    assert t[..0] == "";
  }

  /**
   * The search test of both inventories: the query is stripped and lowered,
   * the name lowered, and the query must occur in the name.
   */
  predicate NombreCoincide(nombre: string, consulta: string)
    ensures NombreCoincide(nombre, consulta) ==> |Recortar(consulta)| <= |nombre|
  {
    Contiene(Minusculas(nombre), Minusculas(Recortar(consulta)))
  }

  /** The case of the name does not matter. */
  lemma NombreSinMayusculas(nombre: string, consulta: string)
    ensures NombreCoincide(Minusculas(nombre), consulta) == NombreCoincide(nombre, consulta)
  {
    MinusculasIdempotente(nombre);
  }

  /** The case of the query does not matter. */
  lemma {:induction false} ConsultaSinMayusculas(nombre: string, consulta: string)
    ensures NombreCoincide(nombre, Minusculas(consulta)) == NombreCoincide(nombre, consulta)
  {
    RecortarMinusculas(consulta);
    MinusculasIdempotente(Recortar(consulta));
  }

  /** Blanks around the query do not matter. */
  lemma ConsultaSinBordes(nombre: string, consulta: string)
    ensures NombreCoincide(nombre, Recortar(consulta)) == NombreCoincide(nombre, consulta)
  {
    RecortarIdempotente(consulta);
  }

  /** A query that is blank after stripping matches every name. */
  lemma ConsultaEnBlancoCoincideSiempre(nombre: string, consulta: string)
    requires Recortar(consulta) == ""
    ensures NombreCoincide(nombre, consulta)
  {
    assert Minusculas("") == "";
    ContieneVacio(Minusculas(nombre));
  }

  /** Searching for "lap", with or without blanks around it, finds "Lapiz" and "LAPTOP", not "Borrador". */
  lemma EjemploLap()
    ensures NombreCoincide("Lapiz", "lap") && NombreCoincide("Lapiz", " lap ")
    ensures NombreCoincide("LAPTOP", "lap") && NombreCoincide("LAPTOP", " lap ")
    ensures !NombreCoincide("Borrador", "lap")
  {
    EjemploLapiz();
    EjemploLaptop();
    EjemploBorrador();
    RecorteEjemplo();
    ConsultaSinBordes("Lapiz", " lap ");
    ConsultaSinBordes("LAPTOP", " lap ");
  }

  lemma EjemploLapiz()
    ensures NombreCoincide("Lapiz", " lap ")
  {
    assert Minusculas("Lapiz") == "lapiz" && Minusculas("lap") == "lap";
    PrefijoContiene("lapiz", "lap");
    RecorteEjemplo();
  }

  lemma EjemploLaptop()
    ensures NombreCoincide("LAPTOP", "lap")
  {
    assert Minusculas("LAPTOP") == "laptop" && Minusculas("lap") == "lap";
    PrefijoContiene("laptop", "lap");
    RecorteEjemplo();
  }

  lemma EjemploBorrador()
    ensures !NombreCoincide("Borrador", "lap")
  {
    assert Minusculas("Borrador") == "borrador" && Minusculas("lap") == "lap";
    NoContieneEjemplo();
    RecorteEjemplo();
  }

  lemma PrefijoContiene(t: string, p: string)
    requires |p| <= |t| && t[..|p|] == p
    ensures Contiene(t, p)
  {
  }

  /** A word that neither starts nor ends with whitespace is its own strip, also between two blanks. */
  lemma {:induction false} RecortarRodeado(p: string)
    requires p != [] && !EsEspacio(p[0]) && !EsEspacio(p[|p| - 1])
    ensures Recortar(p) == p && Recortar([' '] + p + [' ']) == p
  {
    var s := [' '] + p + [' '];
    assert s[1..] == p + [' '];
    assert (p + [' '])[..|p|] == p;
  }

  lemma RecorteEjemplo()
    ensures Recortar(" lap ") == "lap" && Recortar("lap") == "lap"
  {
    assert " lap " == [' '] + "lap" + [' '];
    RecortarRodeado("lap");
  }

  lemma NoContieneEjemplo()
    ensures !Contiene("borrador", "lap")
  {
    assert !Contiene("or", "lap");
    assert "dor"[..3][0] != "lap"[0] && "dor"[1..] == "or";
    assert !Contiene("dor", "lap");
    assert "ador"[..3][0] != "lap"[0] && "ador"[1..] == "dor";
    assert !Contiene("ador", "lap");
    assert "rador"[..3][0] != "lap"[0] && "rador"[1..] == "ador";
    assert !Contiene("rador", "lap");
    assert "rrador"[..3][0] != "lap"[0] && "rrador"[1..] == "rador";
    assert !Contiene("rrador", "lap");
    assert "orrador"[..3][0] != "lap"[0] && "orrador"[1..] == "rrador";
    assert !Contiene("orrador", "lap");
    assert "borrador"[..3][0] != "lap"[0] && "borrador"[1..] == "orrador";
  }
}
