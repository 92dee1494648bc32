/** The session list of the user admin: how a session's duration is shown. */
module UsuariosAdmin {
  import opened Wrappers
  import opened Texto
  import opened UsuariosModels

  /**
   * Whole hours and the remaining whole minutes of a number of seconds,
   * both rounded down (floor division, as for a negative length too).
   */
  function HorasMinutos(segundos: int): (hm: (int, nat))
    ensures hm.1 < 60
    ensures hm.0 * 3600 + hm.1 * 60 <= segundos < hm.0 * 3600 + hm.1 * 60 + 60
  {
    (segundos / 3600, (segundos % 3600) / 60)
  }

  /** The split is the only one with those bounds. */
  lemma HorasMinutosUnico(segundos: int, h: int, m: nat)
    requires m < 60 && h * 3600 + m * 60 <= segundos < h * 3600 + m * 60 + 60
    ensures HorasMinutos(segundos) == (h, m)
  {
  }

  /**
   * duracion_display: "<h>h <m>m" for a session with a non-zero length,
   * otherwise "En curso" while it is active and "N/A" once it is not.
   */
  function DuracionDisplay(s: Sesion): (r: string)
    ensures (Duracion(s).None? || Duracion(s).value == 0) ==> r == (if s.activa then "En curso" else "N/A")
    ensures Duracion(s).Some? && Duracion(s).value != 0 ==>
              r == IntToString(HorasMinutos(Duracion(s).value).0) + "h " + NatToString(HorasMinutos(Duracion(s).value).1) + "m"
  {
    match Duracion(s)
    case Some(d) =>
      if d != 0 then
        var hm := HorasMinutos(d);
        IntToString(hm.0) + "h " + NatToString(hm.1) + "m"
      else if s.activa then "En curso" else "N/A"
    case None => if s.activa then "En curso" else "N/A"
  }

  /** A session ended 3725 seconds after it began shows "1h 2m". */
  lemma DuracionDisplayEjemplo()
    ensures DuracionDisplay(Sesion(1, 100, Some(3825), false)) == "1h 2m"
  {
    HorasMinutosUnico(3725, 1, 2);
    assert NatToString(1) == "1";
    assert NatToString(2) == "2";
  }

  /** A session that ended the second it began reads as still open, or as N/A, never as "0h 0m". */
  lemma DuracionCeroSinHoras(s: Sesion)
    requires s.fechaFin == Some(s.fechaInicio)
    ensures DuracionDisplay(s) == (if s.activa then "En curso" else "N/A")
  {
  }
}
