/**
 * The inventory template tags: rewriting the current query string,
 * dictionary lookup by a dynamic key, and the Chilean currency format.
 */
module InventarioTags {
  import opened Wrappers
  import opened Texto
  import opened Aritmetica

  // ---------------------------------------------------------------------------
  // url_with_params

  /** A keyword argument's value as a template passes it. */
  datatype Valor = Cadena(s: string) | Entero(n: int) | Nulo

  /** Python truthiness of the value. */
  predicate Verdadero(v: Valor) {
    match v
    case Cadena(s) => s != []
    case Entero(n) => n != 0
    case Nulo => false
  }

  /** The value as it lands in the query string. */
  function ComoTexto(v: Valor): string {
    match v
    case Cadena(s) => s
    case Entero(n) => IntToString(n)
    case Nulo => "None"
  }

  /** A query dictionary: each key with its list of values, in insertion order. */
  type Consulta = seq<(string, seq<string>)>

  ghost predicate ClavesDistintas(q: Consulta) {
    forall i, j :: 0 <= i < j < |q| ==> q[i].0 != q[j].0
  }

  function Claves(q: Consulta): (ks: seq<string>)
    ensures |ks| == |q| && forall i :: 0 <= i < |q| ==> ks[i] == q[i].0
  {
    if q == [] then [] else [q[0].0] + Claves(q[1..])
  }

  /** The values stored under a key, if the key is present. */
  function Valores(q: Consulta, k: string): (r: Option<seq<string>>)
    ensures r.None? <==> forall i :: 0 <= i < |q| ==> q[i].0 != k
    ensures r.Some? ==> exists i :: 0 <= i < |q| && q[i] == (k, r.value)
  {
    if q == [] then None
    else if q[0].0 == k then Some(q[0].1)
    else
      var r := Valores(q[1..], k);
      assert r.Some? ==> exists i :: 0 <= i < |q| && q[i] == (k, r.value) by {
        if r.Some? {
          var i :| 0 <= i < |q[1..]| && q[1..][i] == (k, r.value);
          assert q[i + 1] == (k, r.value);
        }
      }
      r
  }

  /** `query_dict[key] = value`: the key now holds the single value, keeping its place, or is appended. */
  function Poner(q: Consulta, k: string, v: string): Consulta {
    if q == [] then [(k, [v])]
    else if q[0].0 == k then [(k, [v])] + q[1..]
    else [q[0]] + Poner(q[1..], k, v)
  }

  /** `del query_dict[key]`. */
  function Quitar(q: Consulta, k: string): Consulta {
    if q == [] then []
    else if q[0].0 == k then q[1..]
    else [q[0]] + Quitar(q[1..], k)
  }

  lemma {:induction false} PonerEfecto(q: Consulta, k: string, v: string, k': string)
    ensures Valores(Poner(q, k, v), k') == if k' == k then Some([v]) else Valores(q, k')
    ensures Claves(Poner(q, k, v)) == if Valores(q, k).Some? then Claves(q) else Claves(q) + [k]
  {
    if q != [] && q[0].0 != k {
      PonerEfecto(q[1..], k, v, k');
      assert Poner(q, k, v)[1..] == Poner(q[1..], k, v);
      assert Claves(q) == [q[0].0] + Claves(q[1..]);
    } else if q != [] {
      assert Poner(q, k, v)[1..] == q[1..];
    }
  }

  lemma {:induction false} QuitarEfecto(q: Consulta, k: string, k': string)
    requires ClavesDistintas(q)
    ensures Valores(Quitar(q, k), k') == if k' == k then None else Valores(q, k')
  {
    if q != [] && q[0].0 != k {
      QuitarEfecto(q[1..], k, k');
      assert Quitar(q, k)[1..] == Quitar(q[1..], k);
    } else if q != [] && k' != k {
      assert Quitar(q, k) == q[1..];
    }
  }

  lemma {:induction false} PonerQuitarDistintas(q: Consulta, k: string, v: string)
    requires ClavesDistintas(q)
    ensures ClavesDistintas(Poner(q, k, v)) && ClavesDistintas(Quitar(q, k))
  {
    if q != [] {
      PonerQuitarDistintas(q[1..], k, v);
      var p := Poner(q, k, v);
      var d := Quitar(q, k);
      if q[0].0 != k {
        assert Valores(q[1..], q[0].0).None? by {
          forall i | 0 <= i < |q[1..]| ensures q[1..][i].0 != q[0].0 {
            assert q[1..][i] == q[i + 1];
          }
        }
        forall j | 1 <= j < |p| ensures p[j].0 != q[0].0 {
          assert p[1..] == Poner(q[1..], k, v);
          PonerEfecto(q[1..], k, v, q[0].0);
          assert p[1..][j - 1] == p[j];
        }
        forall j | 1 <= j < |d| ensures d[j].0 != q[0].0 {
          assert d[1..] == Quitar(q[1..], k);
          QuitarEfecto(q[1..], k, q[0].0);
          assert d[1..][j - 1] == d[j];
        }
      } else {
        forall j | 1 <= j < |p| ensures p[j].0 != k {
          assert p[j] == q[j];
        }
      }
    }
  }

  /** The last value given for a key among the keyword arguments. */
  function UltimoValor(kwargs: seq<(string, Valor)>, k: string): Option<Valor> {
    if kwargs == [] then None
    else if kwargs[|kwargs| - 1].0 == k then Some(kwargs[|kwargs| - 1].1)
    else UltimoValor(kwargs[..|kwargs| - 1], k)
  }

  /** The query after every keyword argument: truthy values set their key, falsy ones remove it if present. */
  function ConsultaResultante(q: Consulta, kwargs: seq<(string, Valor)>): Consulta {
    if kwargs == [] then q
    else
      var q0 := ConsultaResultante(q, kwargs[..|kwargs| - 1]);
      var (k, v) := kwargs[|kwargs| - 1];
      if Verdadero(v) then Poner(q0, k, ComoTexto(v))
      else if Valores(q0, k).Some? then Quitar(q0, k)
      else q0
  }

  /**
   * A key named by a keyword argument ends with that argument's value, or
   * gone when the value is falsy; every other key keeps what it had.
   */
  lemma {:induction false} ConsultaResultanteEfecto(q: Consulta, kwargs: seq<(string, Valor)>, k: string)
    requires ClavesDistintas(q)
    ensures ClavesDistintas(ConsultaResultante(q, kwargs))
    ensures Valores(ConsultaResultante(q, kwargs), k) ==
            match UltimoValor(kwargs, k)
            case None => Valores(q, k)
            case Some(v) => if Verdadero(v) then Some([ComoTexto(v)]) else None
  {
    if kwargs != [] {
      var previos := kwargs[..|kwargs| - 1];
      ConsultaResultanteEfecto(q, previos, k);
      var q0 := ConsultaResultante(q, previos);
      var (k1, v1) := kwargs[|kwargs| - 1];
      PonerQuitarDistintas(q0, k1, ComoTexto(v1));
      PonerEfecto(q0, k1, ComoTexto(v1), k);
      QuitarEfecto(q0, k1, k);
    }
  }

  predicate NoReservado(c: char) {
    'A' <= c <= 'Z' || 'a' <= c <= 'z' || '0' <= c <= '9' || c == '_' || c == '.' || c == '-' || c == '~'
  }

  /** The UTF-8 bytes of a character. */
  function Utf8(c: char): (bs: seq<nat>)
    ensures 1 <= |bs| <= 4 && forall i :: 0 <= i < |bs| ==> bs[i] < 256
    ensures c as int < 0x80 ==> bs == [c as int]
  {
    var n := c as int;
    if n < 0x80 then [n]
    else if n < 0x800 then [0xC0 + n / 64, 0x80 + n % 64]
    else if n < 0x10000 then [0xE0 + n / 4096, 0x80 + n / 64 % 64, 0x80 + n % 64]
    else [0xF0 + n / 262144 % 8, 0x80 + n / 4096 % 64, 0x80 + n / 64 % 64, 0x80 + n % 64]
  }

  function HexDigito(d: nat): (c: char)
    requires d < 16
    ensures '0' <= c <= '9' || 'A' <= c <= 'F'
  {
    if d < 10 then DigitChar(d) else (55 + d) as char
  }

  function PorCiento(bs: seq<nat>): (r: string)
    requires forall i :: 0 <= i < |bs| ==> bs[i] < 256
    ensures |r| == 3 * |bs|
    ensures forall i :: 0 <= i < |r| ==> r[i] == '%' || '0' <= r[i] <= '9' || 'A' <= r[i] <= 'F'
  {
    if bs == [] then [] else ['%', HexDigito(bs[0] / 16), HexDigito(bs[0] % 16)] + PorCiento(bs[1..])
  }

  /** quote_plus: unreserved characters stay, a space becomes '+', everything else its %XX UTF-8 bytes. */
  function Escapar(s: string): (r: string)
    ensures forall i :: 0 <= i < |r| ==>
              NoReservado(r[i]) || r[i] == '+' || r[i] == '%' || '0' <= r[i] <= '9' || 'A' <= r[i] <= 'F'
  {
    if s == [] then []
    else (if NoReservado(s[0]) then [s[0]] else if s[0] == ' ' then "+" else PorCiento(Utf8(s[0]))) + Escapar(s[1..])
  }

  /** An escaped text never holds the separators '&' and '=', so the encoded pairs split back unambiguously. */
  lemma EscaparSinSeparadores(s: string)
    ensures forall i :: 0 <= i < |Escapar(s)| ==> Escapar(s)[i] != '&' && Escapar(s)[i] != '='
  {
  }

  /** An ASCII letter-and-digit text is left as it is. */
  lemma {:induction false} EscaparAlfanumerico(s: string)
    requires forall i :: 0 <= i < |s| ==> NoReservado(s[i])
    ensures Escapar(s) == s
  {
    if s != [] {
      EscaparAlfanumerico(s[1..]);
    }
  }

  /** "key=value" for every value of every key, in order. */
  function Pares(q: Consulta): seq<string> {
    if q == [] then []
    else ParesDe(q[0].0, q[0].1) + Pares(q[1..])
  }

  function ParesDe(k: string, vs: seq<string>): seq<string> {
    if vs == [] then [] else [Escapar(k) + "=" + Escapar(vs[0])] + ParesDe(k, vs[1..])
  }

  function Unir(ps: seq<string>): string {
    if ps == [] then ""
    else if |ps| == 1 then ps[0]
    else ps[0] + "&" + Unir(ps[1..])
  }

  /** QueryDict.urlencode. */
  function Codificar(q: Consulta): string {
    Unir(Pares(q))
  }

  /**
   * url_with_params: copies the current query and applies the keyword
   * arguments one by one; the result is '' for an empty query, else '?' and
   * the encoded query.
   */
  method UrlConParametros(get: Consulta, kwargs: seq<(string, Valor)>) returns (url: string)
    ensures ConsultaResultante(get, kwargs) == [] ==> url == ""
    ensures ConsultaResultante(get, kwargs) != [] ==> url == "?" + Codificar(ConsultaResultante(get, kwargs))
  {
    var consulta := get;
    var i := 0;
    while i < |kwargs|
      invariant 0 <= i <= |kwargs|
      invariant consulta == ConsultaResultante(get, kwargs[..i])
    {
      var (k, v) := kwargs[i];
      assert kwargs[..i + 1][..i] == kwargs[..i];
      if Verdadero(v) {
        consulta := Poner(consulta, k, ComoTexto(v));
      } else if Valores(consulta, k).Some? {
        consulta := Quitar(consulta, k);
      }
      i := i + 1;
    }
    assert kwargs[..i] == kwargs;
    url := if consulta == [] then "" else "?" + Codificar(consulta);
  }

  /** Arguments for keys the query does not hold, all falsy, leave the URL as the bare current query. */
  lemma {:induction false} FalsosSinEfecto(q: Consulta, kwargs: seq<(string, Valor)>)
    requires forall i :: 0 <= i < |kwargs| ==> !Verdadero(kwargs[i].1) && Valores(q, kwargs[i].0).None?
    ensures ConsultaResultante(q, kwargs) == q
  {
    if kwargs != [] {
      FalsosSinEfecto(q, kwargs[..|kwargs| - 1]);
    }
  }

  // ---------------------------------------------------------------------------
  // get_item

  /** `dictionary.get(key)`. */
  function ObtenerItem<K, V>(d: map<K, V>, k: K): (r: Option<V>)
    ensures r.Some? <==> k in d
    ensures r.Some? ==> r.value == d[k]
  {
    if k in d then Some(d[k]) else None
  }

  /** A lookup after storing a key finds what was stored, and other keys are unaffected. */
  lemma ObtenerItemTrasGuardar<K, V>(d: map<K, V>, k: K, v: V, k': K)
    ensures ObtenerItem(d[k := v], k') == if k' == k then Some(v) else ObtenerItem(d, k')
  {
  }

  // ---------------------------------------------------------------------------
  // format_currency

  /** What the filter receives: a two-decimal amount (in hundredths), a text, or None. */
  datatype Monto = MontoDecimal(centesimos: int) | MontoTexto(s: string) | MontoNulo

  /** The filter's output: the formatted text, or its input unchanged when `int()` refuses it. */
  datatype Formato = Formateado(texto: string) | SinCambio(original: Monto)

  /** `int(value)`: a decimal is cut toward zero, a text must be a signed integer. */
  function AEntero(v: Monto): Option<int> {
    match v
    case MontoDecimal(c) => Some(TruncDiv(c, 100))
    case MontoTexto(s) => ParseInt(s)
    case MontoNulo => None
  }

  /** Groups a digit string in threes from the right, separated by '.'. */
  function Miles(s: string): (r: string)
    ensures s != [] ==> |r| == |s| + (|s| - 1) / 3
  {
    if |s| <= 3 then s else Miles(s[..|s| - 3]) + "." + s[|s| - 3..]
  }

  /** The text with every '.' removed. */
  function SinPuntos(s: string): string {
    if s == [] then [] else (if s[0] == '.' then [] else [s[0]]) + SinPuntos(s[1..])
  }

  lemma {:induction false} SinPuntosConcat(a: string, b: string)
    ensures SinPuntos(a + b) == SinPuntos(a) + SinPuntos(b)
  {
    if a == [] {
      assert a + b == b;
    } else {
      var c := a + b;
      var cabeza := if a[0] == '.' then [] else [a[0]];
      assert c[0] == a[0] && c[1..] == a[1..] + b;
      SinPuntosConcat(a[1..], b);
      var resto := SinPuntos(a[1..]);
      assert SinPuntos(c) == cabeza + (resto + SinPuntos(b));
      assert cabeza + (resto + SinPuntos(b)) == (cabeza + resto) + SinPuntos(b);
    }
  }

  lemma {:induction false} SinPuntosDigitos(s: string)
    requires AllDigits(s)
    ensures SinPuntos(s) == s
  {
    if s != [] {
      SinPuntosDigitos(s[1..]);
    }
  }

  /** Dropping the separators gives the digits back. */
  lemma {:induction false} MilesSinPuntos(s: string)
    requires AllDigits(s)
    ensures SinPuntos(Miles(s)) == s
  {
    if |s| <= 3 {
      SinPuntosDigitos(s);
    } else {
      var a := s[..|s| - 3];
      var b := s[|s| - 3..];
      DigitosPartidos(s, |s| - 3);
      MilesSinPuntos(a);
      SinPuntosDigitos(b);
      SinPuntosSeparados(Miles(a), b);
      assert s == a + b;
    }
  }

  /** A separator between two pieces disappears, and the pieces lose their own separators. */
  lemma SinPuntosSeparados(m: string, b: string)
    ensures SinPuntos(m + "." + b) == SinPuntos(m) + SinPuntos(b)
  {
    var x := m + ".";
    SinPuntosConcat(x, b);
    SinPuntosConcat(m, ".");
    SinPuntosPunto();
    assert SinPuntos(x) == SinPuntos(m);
  }

  lemma SinPuntosPunto()
    ensures SinPuntos(".") == []
  {
    assert "."[1..] == [];
  }

  /** Both pieces of a digit string are digit strings. */
  lemma DigitosPartidos(s: string, k: nat)
    requires AllDigits(s) && k <= |s|
    ensures AllDigits(s[..k]) && AllDigits(s[k..])
  {
    forall i | 0 <= i < |s| - k ensures IsDigit(s[k..][i]) {
      assert s[k..][i] == s[k + i];
    }
  }

  /** A separator stands exactly at every fourth place counted from the right. */
  lemma {:induction false} MilesPosiciones(s: string)
    requires AllDigits(s)
    ensures forall i :: 0 <= i < |Miles(s)| ==> (Miles(s)[i] == '.' <==> (|Miles(s)| - i) % 4 == 0)
  {
    var r := Miles(s);
    if |s| > 3 {
      var a := s[..|s| - 3];
      var b := s[|s| - 3..];
      var m := Miles(a);
      DigitosPartidos(s, |s| - 3);
      MilesPosiciones(a);
      assert r == m + "." + b;
      forall i | 0 <= i < |r| ensures r[i] == '.' <==> (|r| - i) % 4 == 0 {
        SeparadorEn(m, b, i);
      }
    }
  }

  /** A place of `m + "." + b`, with three digits in `b`, is a separator exactly when it is in `m` or is the new one. */
  lemma SeparadorEn(m: string, b: string, i: nat)
    requires |b| == 3 && AllDigits(b) && i < |m| + 4
    requires i < |m| ==> (m[i] == '.' <==> (|m| - i) % 4 == 0)
    ensures (m + "." + b)[i] == '.' <==> (|m| + 4 - i) % 4 == 0
  {
    var r := m + "." + b;
    if i < |m| {
      assert r[i] == m[i];
      assert |m| + 4 - i == (|m| - i) + 4;
    } else if i > |m| {
      assert r[i] == b[i - |m| - 1];
    }
  }

  function Signo(n: int): string {
    if n < 0 then "-" else ""
  }

  /** format_currency: '$', the integer's sign, its digits grouped by '.'; an unconvertible input comes back as it was. */
  function FormatCurrency(v: Monto): (r: Formato)
    ensures r.SinCambio? <==> AEntero(v).None?
    ensures r.SinCambio? ==> r.original == v
    ensures r.Formateado? ==> |r.texto| >= 2 && r.texto[0] == '$'
  {
    match AEntero(v)
    case Some(n) =>
      var m: nat := if n < 0 then -n else n;
      Formateado("$" + Signo(n) + Miles(NatToString(m)))
    case None => SinCambio(v)
  }

  /** Reading the formatted text back, without '$' and separators, gives the integer that was formatted. */
  lemma FormatCurrencyRoundTrip(v: Monto)
    requires AEntero(v).Some?
    ensures ParseInt(SinPuntos(FormatCurrency(v).texto[1..])) == AEntero(v)
  {
    var n := AEntero(v).value;
    var m: nat := if n < 0 then -n else n;
    TextoSinSimbolo(v, n, m);
    LeerGrupos(n, m);
  }

  /** After the '$' comes the sign and the grouped digits of the magnitude. */
  lemma TextoSinSimbolo(v: Monto, n: int, m: nat)
    requires AEntero(v) == Some(n) && m == if n < 0 then -n else n
    ensures FormatCurrency(v).Formateado? && FormatCurrency(v).texto[1..] == Signo(n) + Miles(NatToString(m))
  {
    var grupos := Signo(n) + Miles(NatToString(m));
    assert FormatCurrency(v).texto == "$" + grupos;
    TrasElPrimero('$', grupos);
  }

  lemma TrasElPrimero(c: char, s: string)
    ensures ([c] + s)[1..] == s
  {
  }

  /** Removing the separators from the signed, grouped digits and parsing gives the integer back. */
  lemma LeerGrupos(n: int, m: nat)
    requires m == if n < 0 then -n else n
    ensures ParseInt(SinPuntos(Signo(n) + Miles(NatToString(m)))) == Some(n)
  {
    SinPuntosConcat(Signo(n), Miles(NatToString(m)));
    MilesSinPuntos(NatToString(m));
    assert SinPuntos(Signo(n)) == Signo(n);
    assert Signo(n) + NatToString(m) == IntToString(n);
    ParseIntRoundTrip(n);
  }

  /** A decimal is cut toward zero before formatting: -1234.99 shows as "$-1.234". */
  lemma FormatCurrencyEjemplo()
    ensures FormatCurrency(MontoDecimal(-123499)) == Formateado("$-1.234")
  {
    assert TruncDiv(-123499, 100) == -1234;
    assert NatToString(1234) == "1234";
    assert "1234"[..1] == "1" && "1234"[1..] == "234";
    assert Miles("1234") == "1.234";
  }
}
