/**
 * The integer and text rules of the server-rendered pages' script
 * (static/js/main.js): `TurneroUtils.timeDifference`, the table search
 * triggered by `data-search` inputs, and the `data-auto-refresh` interval.
 * JavaScript's `%`, `Math.floor`, `toLowerCase`, `includes` and `parseInt`
 * are written out for integers and strings.
 */
module TurneroUtils {
  import opened Wrappers
  import Texto

  const MS_POR_MINUTO := 60000
  const MS_POR_SEGUNDO := 1000

  // ---------------------------------------------------------------------------
  // timeDifference
  // ---------------------------------------------------------------------------

  /** Division truncated toward zero, the quotient JavaScript's `%` goes with. */
  function CocienteJs(a: int, b: int): int
    requires b > 0
  {
    if a >= 0 then a / b else -((-a) / b)
  }

  /**
   * JavaScript's `%`: the remainder of truncated division, so it takes the
   * sign of the dividend.
   */
  function RestoJs(a: int, b: int): (r: int)
    requires b > 0
    ensures a >= 0 ==> 0 <= r < b
    ensures a < 0 ==> -b < r <= 0
    ensures a == CocienteJs(a, b) * b + r
  {
    if a >= 0 then a % b
    else
      var q := (-a) / b;
      assert -a == q * b + (-a) % b;
      assert -q * b == -(q * b);
      -((-a) % b)
  }

  /** `Math.floor(diff / 60000)`; Dafny's `/` by a positive divisor already rounds down. */
  function Minutos(diff: int): int
  {
    diff / MS_POR_MINUTO
  }

  /** `Math.floor((diff % 60000) / 1000)`. */
  function Segundos(diff: int): int
  {
    RestoJs(diff, MS_POR_MINUTO) / MS_POR_SEGUNDO
  }

  /** `padStart(2, '0')`. */
  function RellenarDos(s: string): (r: string)
    ensures |r| >= 2
    ensures |s| >= 2 ==> r == s
    ensures |s| < 2 ==> r == seq(2 - |s|, _ => '0') + s
  {
    if |s| < 2 then seq(2 - |s|, _ => '0') + s else s
  }

  /** `timeDifference(start, end)` on millisecond timestamps. */
  function TimeDifference(inicio: int, fin: int): (r: string)
    ensures fin >= inicio ==> |r| >= 4 && r[|r| - 3] == ':' && Texto.SoloDigitos(r[|r| - 2..])
  {
    var diff := fin - inicio;
    var segundos := RellenarDos(Texto.IntToString(Segundos(diff)));
    var texto := Texto.IntToString(Minutos(diff)) + ":" + segundos;
    if diff >= 0 then
      SegundosDosCifras(diff);
      assert texto[|texto| - 2..] == segundos;
      texto
    else texto
  }

  /** For a non-negative span the seconds group is exactly two digits. */
  lemma SegundosDosCifras(diff: int)
    requires diff >= 0
    ensures var s := RellenarDos(Texto.IntToString(Segundos(diff))); |s| == 2 && Texto.SoloDigitos(s)
  {
    TimeDifferenceCotas(diff);
    var n := Segundos(diff);
    if n >= 10 {
      assert Texto.NatToString(n) == Texto.NatToString(n / 10) + [Texto.CaracterDigito(n % 10)];
    }
  }

  /** For a non-negative span the parts are whole minutes and 0..59 seconds that bracket it to the second. */
  lemma TimeDifferenceCotas(diff: int)
    requires diff >= 0
    ensures Minutos(diff) >= 0 && 0 <= Segundos(diff) < 60
    ensures Minutos(diff) * MS_POR_MINUTO + Segundos(diff) * MS_POR_SEGUNDO <= diff
    ensures diff < Minutos(diff) * MS_POR_MINUTO + Segundos(diff) * MS_POR_SEGUNDO + MS_POR_SEGUNDO
  {
    var m, r := diff / MS_POR_MINUTO, diff % MS_POR_MINUTO;
    assert diff == m * MS_POR_MINUTO + r;
    var s := r / MS_POR_SEGUNDO;
    assert r == s * MS_POR_SEGUNDO + r % MS_POR_SEGUNDO;
  }

  /**
   * For a negative span the minutes are negative and the seconds part lies
   * between -60 and 0 (a span of -59999 ms gives -60, since the truncated
   * remainder is then floored).
   */
  lemma TimeDifferenceNegativa(diff: int)
    requires diff < 0
    ensures Minutos(diff) < 0 && -60 <= Segundos(diff) <= 0
  {
  }

  /** Position of the first `c` in `s`. */
  function Indice(s: string, c: char): (r: Option<nat>)
    ensures r.Some? ==> r.value < |s| && s[r.value] == c && forall k :: 0 <= k < r.value ==> s[k] != c
    ensures r.None? ==> forall k :: 0 <= k < |s| ==> s[k] != c
  {
    if s == [] then None
    else if s[0] == c then Some(0)
    else match Indice(s[1..], c)
      case None => None
      case Some(k) => Some(k + 1)
  }

  /** Reads back a non-negative "M:SS" text: the two digit groups around the first colon. */
  function LeerReloj(s: string): Option<(nat, nat)>
  {
    match Indice(s, ':')
    case None => None
    case Some(k) =>
      var m, seg := s[..k], s[k + 1..];
      if m != [] && seg != [] && Texto.SoloDigitos(m) && Texto.SoloDigitos(seg)
      then Some((Texto.DigitsValue(m), Texto.DigitsValue(seg)))
      else None
  }

  /** Leading zeros do not change the value of a digit string. */
  lemma {:induction false} DigitsValueCeros(z: nat, s: string)
    requires Texto.SoloDigitos(s)
    ensures Texto.SoloDigitos(seq(z, _ => '0') + s)
    ensures Texto.DigitsValue(seq(z, _ => '0') + s) == Texto.DigitsValue(s)
    decreases |s|
  {
    var p := seq(z, _ => '0') + s;
    if s == [] {
      assert p == seq(z, _ => '0');
      Ceros(z);
    } else {
      var q := s[..|s| - 1];
      DigitsValueCeros(z, q);
      assert p[..|p| - 1] == seq(z, _ => '0') + q;
    }
  }

  lemma {:induction false} Ceros(z: nat)
    ensures Texto.SoloDigitos(seq(z, _ => '0'))
    ensures Texto.DigitsValue(seq(z, _ => '0')) == 0
  {
    if z > 0 {
      Ceros(z - 1);
      assert seq(z, _ => '0')[..z - 1] == seq(z - 1, _ => '0');
    }
  }

  /** Two digit groups joined by a colon are read back as their values. */
  lemma LeerDosGrupos(m: string, p: string)
    requires m != [] && p != [] && Texto.SoloDigitos(m) && Texto.SoloDigitos(p)
    ensures LeerReloj(m + ":" + p) == Some((Texto.DigitsValue(m), Texto.DigitsValue(p)))
  {
    var texto := m + ":" + p;
    assert texto[..|m|] == m;
    assert texto[|m| + 1..] == p;
    IndiceTrasPrefijo(m, ':', p);
  }

  /** In `m + [c] + resto`, with no `c` in `m`, the first `c` is right after `m`. */
  lemma {:induction false} IndiceTrasPrefijo(m: string, c: char, resto: string)
    requires forall k :: 0 <= k < |m| ==> m[k] != c
    ensures Indice(m + [c] + resto, c) == Some(|m|)
  {
    if m != [] {
      assert (m + [c] + resto)[1..] == m[1..] + [c] + resto;
      IndiceTrasPrefijo(m[1..], c, resto);
    }
  }

  /** Reading the text of a non-negative span gives back its minutes and seconds. */
  lemma LeerTimeDifference(inicio: int, fin: int)
    requires fin - inicio >= 0
    ensures LeerReloj(TimeDifference(inicio, fin)) == Some((Minutos(fin - inicio), Segundos(fin - inicio)))
  {
    var diff := fin - inicio;
    TimeDifferenceCotas(diff);
    var m, s := Texto.NatToString(Minutos(diff)), Texto.NatToString(Segundos(diff));
    assert TimeDifference(inicio, fin) == m + ":" + RellenarDos(s);
    var z := if |s| < 2 then 2 - |s| else 0;
    DigitsValueCeros(z, s);
    assert RellenarDos(s) == seq(z, _ => '0') + s;
    Texto.DigitsValueNatToString(Minutos(diff));
    Texto.DigitsValueNatToString(Segundos(diff));
    LeerDosGrupos(m, RellenarDos(s));
  }

  // ---------------------------------------------------------------------------
  // Table search
  // ---------------------------------------------------------------------------

  /** `toLowerCase` on ASCII and Latin-1 capitals. */
  function MinusculaChar(c: char): (r: char)
  {
    if 'A' <= c <= 'Z' || (0xC0 <= c as int <= 0xDE && c as int != 0xD7)
    then (c as int + 32) as char
    else c
  }

  function Minusculas(s: string): (r: string)
    ensures |r| == |s|
    ensures forall k :: 0 <= k < |s| ==> r[k] == MinusculaChar(s[k])
  {
    seq(|s|, k requires 0 <= k < |s| => MinusculaChar(s[k]))
  }

  /** Lowering twice is lowering once. */
  lemma MinusculasIdempotente(s: string)
    ensures Minusculas(Minusculas(s)) == Minusculas(s)
  {
  }

  /** `texto.includes(termino)`, scanning from the left. */
  function Contiene(texto: string, termino: string): (r: bool)
    ensures termino == [] ==> r
    ensures r ==> |termino| <= |texto|
    decreases |texto|
  {
    if termino <= texto then true
    else if texto == [] then false
    else Contiene(texto[1..], termino)
  }

  /** `termino` occurs in `texto` starting at position `i`. */
  predicate ApareceEn(texto: string, termino: string, i: int)
  {
    0 <= i && i + |termino| <= |texto| && texto[i..i + |termino|] == termino
  }

  /** `includes` holds exactly when the term occurs at some position. */
  lemma {:induction false} ContieneSiiAparece(texto: string, termino: string)
    ensures Contiene(texto, termino) <==> exists i :: ApareceEn(texto, termino, i)
    decreases |texto|
  {
    if termino <= texto {
      assert texto[0..|termino|] == termino;
      assert ApareceEn(texto, termino, 0);
    } else if texto != [] {
      var cola := texto[1..];
      ContieneSiiAparece(cola, termino);
      forall i | ApareceEn(texto, termino, i) ensures ApareceEn(cola, termino, i - 1) {
        assert i != 0;
        AparecerEnCola(texto, termino, i - 1);
      }
      forall i | ApareceEn(cola, termino, i) ensures ApareceEn(texto, termino, i + 1) {
        AparecerEnCola(texto, termino, i);
      }
    }
  }

  /** Dropping the first character moves every occurrence one place to the left. */
  lemma AparecerEnCola(texto: string, termino: string, i: int)
    requires texto != [] && 0 <= i
    ensures ApareceEn(texto, termino, i + 1) <==> ApareceEn(texto[1..], termino, i)
  {
    if i + |termino| <= |texto| - 1 {
      assert texto[1..][i..i + |termino|] == texto[i + 1..i + 1 + |termino|];
    }
  }

  const MOSTRAR := ""
  const OCULTAR := "none"

  /** The `style.display` a row gets for what was typed in the search box. */
  function Display(textContent: string, valor: string): (d: string)
    ensures d == MOSTRAR || d == OCULTAR
  {
    if Contiene(Minusculas(textContent), Minusculas(valor)) then MOSTRAR else OCULTAR
  }

  /** A row is shown exactly when the lowered term occurs in its lowered text. */
  lemma DisplaySiiAparece(textContent: string, valor: string)
    ensures Display(textContent, valor) == MOSTRAR <==>
              exists i :: ApareceEn(Minusculas(textContent), Minusculas(valor), i)
  {
    ContieneSiiAparece(Minusculas(textContent), Minusculas(valor));
  }

  /** An empty search box shows every row. */
  lemma BusquedaVaciaMuestraTodo(textContent: string)
    ensures Display(textContent, "") == MOSTRAR
  {
  }

  /** The search ignores letter case in the term. */
  lemma BusquedaSinMayusculas(textContent: string, valor: string)
    ensures Display(textContent, Minusculas(valor)) == Display(textContent, valor)
  {
    MinusculasIdempotente(valor);
  }

  /** A `tbody tr` row: its text and its `style.display`. */
  class FilaDom {
    const textContent: string
    var display: string

    constructor (texto: string, estilo: string)
      ensures textContent == texto && display == estilo
    {
      textContent := texto;
      display := estilo;
    }
  }

  /**
   * The `input` handler of a `data-search` box: when the table exists, every
   * row is shown or hidden by its own text; when it does not, nothing changes.
   */
  method AlBuscar(valor: string, tabla: Option<seq<FilaDom>>)
    modifies set f | tabla.Some? && f in tabla.value
    ensures tabla.Some? ==> forall f :: f in tabla.value ==> f.display == Display(f.textContent, valor)
  {
    if tabla.None? {
      return;
    }
    var filas := tabla.value;
    var termino := Minusculas(valor);
    var i := 0;
    while i < |filas|
      invariant 0 <= i <= |filas|
      invariant forall k :: 0 <= k < i ==> filas[k].display == Display(filas[k].textContent, valor)
    {
      var texto := Minusculas(filas[i].textContent);
      if Contiene(texto, termino) {
        filas[i].display := MOSTRAR;
      } else {
        filas[i].display := OCULTAR;
      }
      i := i + 1;
    }
  }

  // ---------------------------------------------------------------------------
  // Auto-refresh interval
  // ---------------------------------------------------------------------------

  const INTERVALO_POR_DEFECTO := 30000

  /** JavaScript white space and line terminators, which `parseInt` skips at the start. */
  predicate EspacioJs(c: char)
  {
    var n := c as int;
    n == 0x09 || n == 0x0A || n == 0x0B || n == 0x0C || n == 0x0D || n == 0x20 || n == 0xA0
    || n == 0x1680 || (0x2000 <= n <= 0x200A) || n == 0x2028 || n == 0x2029 || n == 0x202F
    || n == 0x205F || n == 0x3000 || n == 0xFEFF
  }

  function SinEspaciosIniciales(s: string): (r: string)
    ensures |r| <= |s|
    ensures r == [] || !EspacioJs(r[0])
  {
    if s != [] && EspacioJs(s[0]) then SinEspaciosIniciales(s[1..]) else s
  }

  /** The value of `c` as a digit in base `base`, if it is one. */
  function DigitoEnBase(c: char, base: nat): (r: Option<nat>)
    requires base == 10 || base == 16
    ensures r.Some? ==> r.value < base
  {
    var d :=
      if '0' <= c <= '9' then Some(c as int - '0' as int)
      else if 'a' <= c <= 'z' then Some(c as int - 'a' as int + 10)
      else if 'A' <= c <= 'Z' then Some(c as int - 'A' as int + 10)
      else None;
    if d.Some? && d.value < base then Some(d.value as nat) else None
  }

  /** Length of the longest prefix of `s` made of digits in `base`. */
  function PrefijoDigitos(s: string, base: nat): (n: nat)
    requires base == 10 || base == 16
    ensures n <= |s|
    ensures forall k :: 0 <= k < n ==> DigitoEnBase(s[k], base).Some?
    ensures n < |s| ==> DigitoEnBase(s[n], base).None?
  {
    if s != [] && DigitoEnBase(s[0], base).Some? then 1 + PrefijoDigitos(s[1..], base) else 0
  }

  function ValorEnBase(s: string, base: nat): nat
    requires base == 10 || base == 16
    requires forall k :: 0 <= k < |s| ==> DigitoEnBase(s[k], base).Some?
  {
    if s == [] then 0 else ValorEnBase(s[..|s| - 1], base) * base + DigitoEnBase(s[|s| - 1], base).value
  }

  /**
   * `parseInt(s)` without a radix: skip leading white space, read an optional
   * sign, switch to base 16 after `0x`/`0X`, then read the longest run of
   * digits; None stands for NaN (no digit at all).
   */
  function ParseInt(s: string): (r: Option<int>)
    ensures SinEspaciosIniciales(s) == [] ==> r.None?
    ensures r.Some? && r.value < 0 ==> SinEspaciosIniciales(s)[0] == '-'
  {
    var t := SinEspaciosIniciales(s);
    var negativo := t != [] && t[0] == '-';
    var u := if t != [] && (t[0] == '-' || t[0] == '+') then t[1..] else t;
    var hex := |u| >= 2 && u[0] == '0' && (u[1] == 'x' || u[1] == 'X');
    var base: nat := if hex then 16 else 10;
    var v := if hex then u[2..] else u;
    var n := PrefijoDigitos(v, base);
    if n == 0 then None
    else
      var magnitud: int := ValorEnBase(v[..n], base);
      Some(if negativo then -magnitud else magnitud)
  }

  /** `parseInt(attr) || 30000`: NaN and zero fall back to 30 seconds. */
  function IntervaloAutoRefresco(atributo: string): (r: int)
    ensures r != 0
    ensures ParseInt(atributo).None? ==> r == INTERVALO_POR_DEFECTO
    ensures ParseInt(atributo) == Some(0) ==> r == INTERVALO_POR_DEFECTO
    ensures ParseInt(atributo).Some? && ParseInt(atributo).value != 0 ==> r == ParseInt(atributo).value
  {
    match ParseInt(atributo)
    case None => INTERVALO_POR_DEFECTO
    case Some(n) => if n == 0 then INTERVALO_POR_DEFECTO else n
  }

  /** Decimal digits are read in base 10 as `Texto` reads them. */
  lemma {:induction false} ValorEnBaseDecimal(s: string)
    requires Texto.SoloDigitos(s)
    ensures forall k :: 0 <= k < |s| ==> DigitoEnBase(s[k], 10).Some?
    ensures ValorEnBase(s, 10) == Texto.DigitsValue(s)
  {
    if s != [] {
      ValorEnBaseDecimal(s[..|s| - 1]);
    }
  }

  lemma {:induction false} PrefijoTodo(s: string)
    requires Texto.SoloDigitos(s)
    ensures PrefijoDigitos(s, 10) == |s|
  {
    if s != [] {
      PrefijoTodo(s[1..]);
    }
  }

  /** A plain run of decimal digits that does not start with "0x" parses to its value. */
  lemma ParseIntDigitos(s: string)
    requires s != [] && Texto.SoloDigitos(s)
    requires !(|s| >= 2 && s[0] == '0' && (s[1] == 'x' || s[1] == 'X'))
    ensures ParseInt(s) == Some(Texto.DigitsValue(s))
  {
    assert !EspacioJs(s[0]);
    assert SinEspaciosIniciales(s) == s;
    PrefijoTodo(s);
    assert s[..|s|] == s;
    ValorEnBaseDecimal(s);
  }

  /** `parseInt` reads back a number's decimal rendering. */
  lemma ParseIntNatToString(n: nat)
    ensures ParseInt(Texto.NatToString(n)) == Some(n)
  {
    var s := Texto.NatToString(n);
    assert |s| >= 2 ==> Texto.EsDigito(s[1]);
    ParseIntDigitos(s);
    Texto.DigitsValueNatToString(n);
  }

  /** A positive number in the attribute is the interval; "0" and an empty value give 30000. */
  lemma IntervaloDeNumero(n: nat)
    ensures IntervaloAutoRefresco(Texto.NatToString(n)) == if n == 0 then INTERVALO_POR_DEFECTO else n
    ensures IntervaloAutoRefresco("") == INTERVALO_POR_DEFECTO
  {
    ParseIntNatToString(n);
  }
}
