/** The report admin: file size display, the short log detail, and who is recorded as a record's author. */
module ReportesAdmin {
  import opened Wrappers
  import opened Texto

  // ---------------------------------------------------------------------------
  // ReporteAdmin.tamaño_archivo_display

  /**
   * The tenths in n / d rounded to the nearest, ties to even, as the
   * one-decimal format rounds the exact quotient.
   */
  function Decimas(n: nat, d: nat): (t: nat)
    requires d > 0
    ensures 2 * (t * d - 10 * n) <= d && 2 * (10 * n - t * d) <= d
    ensures (2 * (t * d - 10 * n) == d || 2 * (10 * n - t * d) == d) ==> t % 2 == 0
  {
    var q := 10 * n / d;
    var resto := 10 * n % d;
    assert 10 * n == q * d + resto;
    if 2 * resto > d then
      assert (q + 1) * d - 10 * n == d - resto;
      q + 1
    else if 2 * resto < d then q
    else if q % 2 == 0 then q
    else
      assert (q + 1) * d - 10 * n == d - resto;
      q + 1
  }

  /** A number of tenths written with one decimal. */
  function TextoDecimas(t: nat): string {
    NatToString(t / 10) + "." + [DigitChar(t % 10)]
  }

  /** The size column: "N/A" without a size, plain bytes below 1024, else KB or MB with one decimal. */
  function TamanoArchivoDisplay(tamano: Option<int>): (r: string)
    ensures tamano.None? || tamano.value == 0 ==> r == "N/A"
    ensures tamano.Some? && tamano.value != 0 && tamano.value < 1024 ==> r == IntToString(tamano.value) + " bytes"
    ensures tamano.Some? && 1024 <= tamano.value < 1024 * 1024 ==> r == TextoDecimas(Decimas(tamano.value, 1024)) + " KB"
    ensures tamano.Some? && 1024 * 1024 <= tamano.value ==> r == TextoDecimas(Decimas(tamano.value, 1024 * 1024)) + " MB"
  {
    match tamano
    case None => "N/A"
    case Some(n) =>
      if n == 0 then "N/A"
      else if n < 1024 then IntToString(n) + " bytes"
      else if n < 1024 * 1024 then TextoDecimas(Decimas(n, 1024)) + " KB"
      else TextoDecimas(Decimas(n, 1024 * 1024)) + " MB"
  }

  /** Every size shown in KB reads between 1.0 and 1024.0. */
  lemma KilobytesAcotados(n: nat)
    requires 1024 <= n < 1024 * 1024
    ensures 10 <= Decimas(n, 1024) <= 10240
  {
  }

  /** 1536 bytes read "1.5 KB"; 2304 bytes, exactly 2.25 KB, round to even: "2.2 KB"; one byte short of a megabyte reads "1024.0 KB". */
  lemma TamanoArchivoEjemplos()
    ensures TamanoArchivoDisplay(Some(1536)) == "1.5 KB"
    ensures TamanoArchivoDisplay(Some(2304)) == "2.2 KB"
    ensures TamanoArchivoDisplay(Some(1024 * 1024 - 1)) == "1024.0 KB"
  {
    TamanoKilo(1536, 1, 5);
    assert NatToString(1) == "1";
    TamanoKilo(2304, 2, 2);
    assert NatToString(2) == "2";
    TamanoKilo(1024 * 1024 - 1, 1024, 0);
    assert NatToString(1024) == "1024";
  }

  /** A size under a megabyte whose rounded tenths of a kilobyte are known reads as those digits and "KB". */
  lemma TamanoKilo(bytes: nat, enteros: nat, decima: nat)
    requires 1024 <= bytes < 1024 * 1024
    requires decima < 10 && Decimas(bytes, 1024) == enteros * 10 + decima
    ensures TamanoArchivoDisplay(Some(bytes)) == NatToString(enteros) + "." + [DigitChar(decima)] + " KB"
  {
    assert Decimas(bytes, 1024) / 10 == enteros && Decimas(bytes, 1024) % 10 == decima;
  }

  // ---------------------------------------------------------------------------
  // LogReporteAdmin.detalle_corto

  /** The detail cut to 50 characters, with "..." when something was cut; "-" for no detail. */
  function DetalleCorto(detalle: Option<string>): (r: string)
    ensures detalle.None? || detalle.value == [] ==> r == "-"
    ensures detalle.Some? && 0 < |detalle.value| <= 50 ==> r == detalle.value
    ensures detalle.Some? && |detalle.value| > 50 ==> |r| == 53 && r[..50] == detalle.value[..50] && r[50..] == "..."
  {
    match detalle
    case None => "-"
    case Some(s) =>
      if s == [] then "-" else Take(s, 50) + (if |s| > 50 then "..." else "")
  }

  /** A 51-character detail and a 53-character one ending in "..." show the same text. */
  lemma DetalleCortoColision()
    ensures var largo := seq(51, i => 'a');
            var corto := seq(50, i => 'a') + "...";
            largo != corto && DetalleCorto(Some(largo)) == DetalleCorto(Some(corto))
  {
    var largo := seq(51, i => 'a');
    var corto := seq(50, i => 'a') + "...";
    assert largo[50] != corto[50];
    assert largo[..50] == corto[..50];
  }

  // ---------------------------------------------------------------------------
  // save_model of ReporteAdmin and ConfiguracionReporteAdmin

  type Id = nat

  datatype Reporte = Reporte(nombre: string, generadoPor: Option<Id>, archivoPath: Option<string>, tamanoArchivo: Option<int>)

  datatype ConfiguracionReporte = ConfiguracionReporte(nombre: string, creadoPor: Option<Id>, activo: bool)

  /** A report added through the admin is recorded as generated by the acting user; an edited one keeps its author. */
  function GuardarReporte(r: Reporte, cambio: bool, usuario: Id): (s: Reporte)
    ensures !cambio ==> s.generadoPor == Some(usuario)
    ensures cambio ==> s == r
    ensures s.(generadoPor := r.generadoPor) == r
  {
    if !cambio then r.(generadoPor := Some(usuario)) else r
  }

  /** A configuration added through the admin is recorded as created by the acting user; an edited one keeps its creator. */
  function GuardarConfiguracion(c: ConfiguracionReporte, cambio: bool, usuario: Id): (s: ConfiguracionReporte)
    ensures !cambio ==> s.creadoPor == Some(usuario)
    ensures cambio ==> s == c
    ensures s.(creadoPor := c.creadoPor) == c
  {
    if !cambio then c.(creadoPor := Some(usuario)) else c
  }

  /** Whatever the form said, the author is whoever added the record, and later edits by others keep it. */
  lemma AutorPermanece(r: Reporte, c: ConfiguracionReporte, creador: Id, editor: Id)
    ensures GuardarReporte(GuardarReporte(r, false, creador), true, editor).generadoPor == Some(creador)
    ensures GuardarConfiguracion(GuardarConfiguracion(c, false, creador), true, editor).creadoPor == Some(creador)
  {
  }
}
