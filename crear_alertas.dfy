/**
 * The test-alert script crear_alertas.py: for a fixed list of product codes,
 * raise an ACTIVA alert for each known product that has none.
 */
module CrearAlertas {
  import opened Wrappers
  import opened InventarioModels

  const CODIGOS_PRUEBA: seq<string> := ["AM004", "BB001", "LM002", "TX002"]

  /**
   * One code: an unknown code is skipped (Producto.DoesNotExist), a product
   * with an ACTIVA alert is skipped, and otherwise one alert is appended.
   */
  function AlertaPara(t: Tablas, codigo: string, ahora: nat): (r: Tablas)
    ensures r.(alertas := t.alertas) == t
    ensures t.alertas <= r.alertas && |r.alertas| <= |t.alertas| + 1
    ensures (|r.alertas| == |t.alertas| + 1) <==>
            BuscarCodigo(t.productos, codigo).Some? && !TieneActiva(t.alertas, BuscarCodigo(t.productos, codigo).value.id)
  {
    match BuscarCodigo(t.productos, codigo)
    case None => t
    case Some(p) =>
      if TieneActiva(t.alertas, p.id) then t
      else t.(alertas := t.alertas + [NuevaAlerta(p.id, None, StockTotal(t.stocks, p.id), p.stockMinimo, ahora, None)])
  }

  /**
   * A raised alert snapshots the product's current total and minimum, has
   * no area and is ACTIVA; nothing about the product being low on stock is
   * asked, so a product above its minimum gets one too.
   */
  lemma AlertaParaNueva(t: Tablas, codigo: string, ahora: nat)
    requires BuscarCodigo(t.productos, codigo).Some?
    requires !TieneActiva(t.alertas, BuscarCodigo(t.productos, codigo).value.id)
    ensures var p := BuscarCodigo(t.productos, codigo).value;
            var a := AlertaPara(t, codigo, ahora).alertas[|t.alertas|];
            && a.producto == p.id && a.area == None && a.estado == Activa
            && a.stockActual == StockTotal(t.stocks, p.id) && a.stockMinimo == p.stockMinimo
  {
  }

  /** The loop over the codes. */
  function CrearAlertasPrueba(t: Tablas, codigos: seq<string>, ahora: nat): (r: Tablas)
    ensures r.(alertas := t.alertas) == t
    ensures t.alertas <= r.alertas
  {
    if codigos == [] then t else AlertaPara(CrearAlertasPrueba(t, codigos[..|codigos| - 1], ahora), codigos[|codigos| - 1], ahora)
  }

  /** An ACTIVA alert stays once present, since rows are only appended. */
  lemma TieneActivaPrefijo(alertas: seq<AlertaStock>, mas: seq<AlertaStock>, p: Id)
    requires alertas <= mas && TieneActiva(alertas, p)
    ensures TieneActiva(mas, p)
  {
    var i :| 0 <= i < |alertas| && alertas[i].producto == p && alertas[i].estado == Activa;
    assert mas[i] == alertas[i];
  }

  /** Afterwards every known code's product has an ACTIVA alert. */
  lemma {:induction false} CrearAlertasCubre(t: Tablas, codigos: seq<string>, ahora: nat, k: nat)
    requires k < |codigos| && BuscarCodigo(t.productos, codigos[k]).Some?
    ensures TieneActiva(CrearAlertasPrueba(t, codigos, ahora).alertas, BuscarCodigo(t.productos, codigos[k]).value.id)
  {
    var n := |codigos| - 1;
    var medio := CrearAlertasPrueba(t, codigos[..n], ahora);
    var p := BuscarCodigo(t.productos, codigos[k]).value;
    if k < n {
      assert codigos[..n][k] == codigos[k];
      CrearAlertasCubre(t, codigos[..n], ahora, k);
      TieneActivaPrefijo(medio.alertas, AlertaPara(medio, codigos[n], ahora).alertas, p.id);
    } else if !TieneActiva(medio.alertas, p.id) {
      var r := AlertaPara(medio, codigos[n], ahora);
      assert r.alertas[|medio.alertas|].producto == p.id && r.alertas[|medio.alertas|].estado == Activa;
    }
  }

  /** When every known code already has its ACTIVA alert, the loop changes nothing. */
  lemma {:induction false} CrearAlertasSinEfecto(t: Tablas, codigos: seq<string>, ahora: nat)
    requires forall k :: 0 <= k < |codigos| && BuscarCodigo(t.productos, codigos[k]).Some? ==>
               TieneActiva(t.alertas, BuscarCodigo(t.productos, codigos[k]).value.id)
    ensures CrearAlertasPrueba(t, codigos, ahora) == t
  {
    if codigos != [] {
      var n := |codigos| - 1;
      assert forall k :: 0 <= k < n ==> codigos[..n][k] == codigos[k];
      CrearAlertasSinEfecto(t, codigos[..n], ahora);
    }
  }

  /** Re-running the script, at any later time, creates no alert. */
  lemma CrearAlertasIdempotente(t: Tablas, codigos: seq<string>, ahora: nat, despues: nat)
    ensures CrearAlertasPrueba(CrearAlertasPrueba(t, codigos, ahora), codigos, despues) == CrearAlertasPrueba(t, codigos, ahora)
  {
    var r := CrearAlertasPrueba(t, codigos, ahora);
    forall k | 0 <= k < |codigos| && BuscarCodigo(r.productos, codigos[k]).Some?
      ensures TieneActiva(r.alertas, BuscarCodigo(r.productos, codigos[k]).value.id)
    {
      CrearAlertasCubre(t, codigos, ahora, k);
    }
    CrearAlertasSinEfecto(r, codigos, despues);
  }

  /** No product ever gets a second ACTIVA alert. */
  lemma AlertaParaUnica(t: Tablas, codigo: string, ahora: nat)
    requires UnaActivaPorProducto(t.alertas)
    ensures UnaActivaPorProducto(AlertaPara(t, codigo, ahora).alertas)
  {
  }

  lemma {:induction false} CrearAlertasUnica(t: Tablas, codigos: seq<string>, ahora: nat)
    requires UnaActivaPorProducto(t.alertas)
    ensures UnaActivaPorProducto(CrearAlertasPrueba(t, codigos, ahora).alertas)
  {
    if codigos != [] {
      CrearAlertasUnica(t, codigos[..|codigos| - 1], ahora);
      AlertaParaUnica(CrearAlertasPrueba(t, codigos[..|codigos| - 1], ahora), codigos[|codigos| - 1], ahora);
    }
  }

  /** crear_alertas_prueba, on the tables in place; `ahora` stands for the creation timestamp. */
  method CrearAlertasDePrueba(db: Inventario, ahora: nat)
    modifies db
    ensures db.Estado() == CrearAlertasPrueba(old(db.Estado()), CODIGOS_PRUEBA, ahora)
  {
    var codigos := CODIGOS_PRUEBA;
    var i := 0;
    while i < |codigos|
      invariant 0 <= i <= |codigos|
      invariant db.Estado() == CrearAlertasPrueba(old(db.Estado()), codigos[..i], ahora)
    {
      CrearAlertasPruebaPaso(old(db.Estado()), codigos, i, ahora);
      AlertaDePrueba(db, codigos[i], ahora);
      i := i + 1;
    }
    assert codigos[..i] == codigos;
  }

  /** One pass of the loop body, on the tables in place. */
  method AlertaDePrueba(db: Inventario, codigo: string, ahora: nat)
    modifies db
    ensures db.Estado() == AlertaPara(old(db.Estado()), codigo, ahora)
  {
    var producto := BuscarCodigo(db.productos, codigo);
    if producto.Some? && !TieneActiva(db.alertas, producto.value.id) {
      var p := producto.value;
      db.alertas := db.alertas + [NuevaAlerta(p.id, None, StockTotal(db.stocks, p.id), p.stockMinimo, ahora, None)];
    }
  }

  lemma CrearAlertasPruebaPaso(t: Tablas, codigos: seq<string>, i: nat, ahora: nat)
    requires i < |codigos|
    ensures CrearAlertasPrueba(t, codigos[..i + 1], ahora) == AlertaPara(CrearAlertasPrueba(t, codigos[..i], ahora), codigos[i], ahora)
  {
    assert codigos[..i + 1][..i] == codigos[..i];
  }
}
