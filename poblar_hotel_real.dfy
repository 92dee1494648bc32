/**
 * The deterministic parts of poblar_hotel_real.py: the base quantity a
 * product gets in an area, and the loop that raises an ACTIVA alert for
 * every product at or below its minimum taken in whole units. The script
 * runs outside any transaction, so an error stops the loop with the alerts
 * created so far kept.
 */
module PoblarHotelReal {
  import opened Wrappers
  import opened Texto
  import opened Aritmetica
  import opened InventarioModels

  /**
   * The base quantity of a product in an area, in hundredths: in an area
   * whose name contains "Habitaciones" a quarter of its whole-unit minimum
   * (rounded down), elsewhere the whole-unit minimum times the random factor.
   */
  function CantidadBase(areaNombre: string, stockMinimo: Centesimos, factor: nat): (q: Centesimos)
    requires 1 <= factor <= 3
    ensures q % 100 == 0
    ensures Contains(areaNombre, "Habitaciones") ==>
              4 * (q / 100) <= TruncDiv(stockMinimo, 100) < 4 * (q / 100) + 4
    ensures !Contains(areaNombre, "Habitaciones") ==> q == TruncDiv(stockMinimo, 100) * factor * 100
  {
    var unidades := TruncDiv(stockMinimo, 100);
    if Contains(areaNombre, "Habitaciones") then unidades / 4 * 100 else unidades * factor * 100
  }

  /**
   * Stock get_or_create on (producto, area): an existing row is kept as it
   * is, a missing one is created with the quantity chosen (the base, or the
   * random low quantity, which is a parameter here).
   */
  function ColocarStock(stocks: seq<Stock>, p: Id, a: Id, cantidad: Centesimos): seq<Stock> {
    if Buscar(stocks, p, a).Some? then stocks else stocks + [Stock(p, a, cantidad)]
  }

  /** Only the cell (p, a) can change, and only from missing to the quantity chosen; rows are never rewritten. */
  lemma ColocarStockEfecto(stocks: seq<Stock>, p: Id, a: Id, cantidad: Centesimos)
    ensures stocks <= ColocarStock(stocks, p, a, cantidad)
    ensures Buscar(ColocarStock(stocks, p, a, cantidad), p, a) ==
            if Buscar(stocks, p, a).Some? then Buscar(stocks, p, a) else Some(cantidad)
    ensures forall p', a' :: !(p' == p && a' == a) ==>
              Buscar(ColocarStock(stocks, p, a, cantidad), p', a') == Buscar(stocks, p', a')
  {
    forall p', a' {
      BuscarFijar(stocks, p, a, cantidad, p', a');
    }
  }

  /** With a non-negative quantity the stock table stays valid. */
  lemma ColocarStockPreservaTabla(stocks: seq<Stock>, p: Id, a: Id, cantidad: Centesimos)
    requires TablaStockValida(stocks) && cantidad >= 0
    ensures TablaStockValida(ColocarStock(stocks, p, a, cantidad))
  {
    FijarPreservaTabla(stocks, p, a, cantidad);
  }

  /** `int(producto.stock_minimo)`, in hundredths: the minimum cut to whole units toward zero. */
  function MinimoEntero(stockMinimo: Centesimos): (r: Centesimos)
    ensures r % 100 == 0
    ensures stockMinimo >= 0 ==> 0 <= r <= stockMinimo < r + 100
    ensures stockMinimo < 0 ==> r - 100 < stockMinimo <= r
  {
    TruncDiv(stockMinimo, 100) * 100
  }

  /** `stock_total <= int(producto.stock_minimo)`. */
  predicate AmeritaAlerta(total: Centesimos, stockMinimo: Centesimos) {
    total <= MinimoEntero(stockMinimo)
  }

  /** With a non-negative minimum the script's test is stricter than tiene_stock_bajo. */
  lemma AmeritaImplicaStockBajo(stocks: seq<Stock>, prod: Producto)
    requires prod.stockMinimo >= 0
    ensures AmeritaAlerta(StockTotal(stocks, prod.id), prod.stockMinimo) ==> TieneStockBajo(stocks, prod)
  {
  }

  /** For a minimum in whole units the two tests agree. */
  lemma AmeritaMinimoEntero(total: Centesimos, stockMinimo: Centesimos)
    requires stockMinimo % 100 == 0
    ensures AmeritaAlerta(total, stockMinimo) <==> total <= stockMinimo
  {
    DivExacta(stockMinimo, 100, stockMinimo / 100);
    TruncDivFloor(stockMinimo, 100);
  }

  /** A product holding 10.25 against a minimum of 10.50 is low on stock, yet the script raises no alert for it. */
  lemma UmbralTruncadoDifiere()
    ensures var stocks := [Stock(1, 1, 1025)];
            var prod := Producto(1, "BEB001", "Vino", "Bebidas", "UN", 1050, None, true);
            TieneStockBajo(stocks, prod) && !AmeritaAlerta(StockTotal(stocks, prod.id), prod.stockMinimo)
  {
    var stocks := [Stock(1, 1, 1025)];
    assert stocks[..0] == [];
    assert StockTotal(stocks, 1) == 1025;
  }

  /** str() of a two-decimal value: sign, whole units, a point, two digits. */
  function DecimalTexto(c: Centesimos): string {
    var m: nat := if c < 0 then -c else c;
    (if c < 0 then "-" else "") + NatToString(m / 100) + "." + ZeroPad(NatToString(m % 100), 2)
  }

  /** The total as the script prints it: `sum` over no rows is the integer 0. */
  function TextoTotal(stocks: seq<Stock>, p: Id): string {
    if Cuenta(stocks, DelProducto(p)) == 0 then "0" else DecimalTexto(StockTotal(stocks, p))
  }

  function Observacion(stocks: seq<Stock>, prod: Producto): string {
    "Stock crítico: " + TextoTotal(stocks, prod.id) + " unidades disponibles (mínimo: " + DecimalTexto(prod.stockMinimo) + ")"
  }

  /** An empty filter means no ACTIVA alert of the product, and back. */
  lemma SinActivas(alertas: seq<AlertaStock>, p: Id)
    ensures Filtrar(alertas, ActivaDe(p)) == [] <==> !TieneActiva(alertas, p)
  {
    if TieneActiva(alertas, p) {
      var i :| 0 <= i < |alertas| && alertas[i].producto == p && alertas[i].estado == Activa;
      assert ActivaDe(p)(alertas[i]);
    }
  }

  /** Under the one-active-alert invariant the get_or_create lookup finds at most one row. */
  lemma {:induction false} ActivasAlMenosUna(alertas: seq<AlertaStock>, p: Id)
    requires UnaActivaPorProducto(alertas)
    ensures |Filtrar(alertas, ActivaDe(p))| <= 1
  {
    if alertas != [] {
      var previas := alertas[..|alertas| - 1];
      var ultima := alertas[|alertas| - 1];
      assert UnaActivaPorProducto(previas);
      ActivasAlMenosUna(previas, p);
      if ActivaDe(p)(ultima) {
        assert !TieneActiva(previas, p);
        SinActivas(previas, p);
      }
    }
  }

  /**
   * One product: if the script's test holds, AlertaStock get_or_create
   * (producto, estado='ACTIVA') keeps an existing active alert untouched and
   * otherwise appends one; two active alerts make the lookup fail. The flag
   * says whether an alert was created.
   */
  function AlertaPoblar(t: Tablas, prod: Producto, ahora: nat): (r: Result<(Tablas, bool), Fallo>)
    ensures r.Err? <==> AmeritaAlerta(StockTotal(t.stocks, prod.id), prod.stockMinimo) && |Filtrar(t.alertas, ActivaDe(prod.id))| > 1
    ensures r.Ok? ==> r.value.0.(alertas := t.alertas) == t && t.alertas <= r.value.0.alertas
    ensures r.Ok? ==> |r.value.0.alertas| == |t.alertas| + (if r.value.1 then 1 else 0)
    ensures r.Ok? && r.value.1 ==>
              && AmeritaAlerta(StockTotal(t.stocks, prod.id), prod.stockMinimo) && !TieneActiva(t.alertas, prod.id)
              && r.value.0.alertas[|t.alertas|].producto == prod.id && r.value.0.alertas[|t.alertas|].estado == Activa
              && r.value.0.alertas[|t.alertas|].stockActual == StockTotal(t.stocks, prod.id)
              && r.value.0.alertas[|t.alertas|].stockMinimo == prod.stockMinimo
  {
    var total := StockTotal(t.stocks, prod.id);
    if !AmeritaAlerta(total, prod.stockMinimo) then Ok((t, false))
    else
      var activas := Filtrar(t.alertas, ActivaDe(prod.id));
      if |activas| > 1 then Err(VariosResultados)
      else if |activas| == 1 then Ok((t, false))
      else
        SinActivas(t.alertas, prod.id);
        var a := NuevaAlerta(prod.id, None, total, prod.stockMinimo, ahora, Some(Observacion(t.stocks, prod)));
        Ok((t.(alertas := t.alertas + [a]), true))
  }

  /** The loop's outcome: the tables, the number of alerts created, and the error that stopped it, if any. */
  datatype Resultado = Resultado(t: Tablas, creadas: nat, fallo: Option<Fallo>)

  /** The loop over every product. */
  function GenerarAlertas(t: Tablas, productos: seq<Producto>, ahora: nat): (r: Resultado)
    ensures r.t.(alertas := t.alertas) == t && t.alertas <= r.t.alertas
    ensures |r.t.alertas| == |t.alertas| + r.creadas
  {
    if productos == [] then Resultado(t, 0, None)
    else
      var r0 := GenerarAlertas(t, productos[..|productos| - 1], ahora);
      if r0.fallo.Some? then r0 else Avance(r0.t, r0.creadas, productos[|productos| - 1], ahora)
  }

  /** One product after a clean prefix: its failure stops the loop, its new alert is counted. */
  function Avance(t: Tablas, creadas: nat, prod: Producto, ahora: nat): Resultado {
    match AlertaPoblar(t, prod, ahora)
    case Err(e) => Resultado(t, creadas, Some(e))
    case Ok((t', creada)) => Resultado(t', creadas + (if creada then 1 else 0), None)
  }

  /**
   * From tables with at most one ACTIVA alert per product the loop never
   * fails, keeps that invariant, and every alert it adds is warranted by
   * the script's test.
   */
  lemma {:induction false} GenerarAlertasCorrecto(t: Tablas, productos: seq<Producto>, ahora: nat)
    requires UnaActivaPorProducto(t.alertas)
    ensures GenerarAlertas(t, productos, ahora).fallo.None?
    ensures UnaActivaPorProducto(GenerarAlertas(t, productos, ahora).t.alertas)
    ensures forall i :: |t.alertas| <= i < |GenerarAlertas(t, productos, ahora).t.alertas| ==>
              var a := GenerarAlertas(t, productos, ahora).t.alertas[i];
              a.estado == Activa && AmeritaAlerta(a.stockActual, a.stockMinimo)
  {
    if productos != [] {
      var previos := productos[..|productos| - 1];
      var prod := productos[|productos| - 1];
      GenerarAlertasCorrecto(t, previos, ahora);
      var r0 := GenerarAlertas(t, previos, ahora);
      ActivasAlMenosUna(r0.t.alertas, prod.id);
    }
  }

  /** Afterwards every product the test flags has an ACTIVA alert (new or pre-existing). */
  lemma {:induction false} GenerarAlertasCubre(t: Tablas, productos: seq<Producto>, ahora: nat, k: nat)
    requires UnaActivaPorProducto(t.alertas)
    requires k < |productos| && AmeritaAlerta(StockTotal(t.stocks, productos[k].id), productos[k].stockMinimo)
    ensures TieneActiva(GenerarAlertas(t, productos, ahora).t.alertas, productos[k].id)
  {
    var n := |productos| - 1;
    var previos := productos[..n];
    var prod := productos[n];
    GenerarAlertasCorrecto(t, previos, ahora);
    var r0 := GenerarAlertas(t, previos, ahora);
    ActivasAlMenosUna(r0.t.alertas, prod.id);
    var paso := AlertaPoblar(r0.t, prod, ahora);
    assert GenerarAlertas(t, productos, ahora).t == paso.value.0;
    if k < n {
      assert previos[k] == productos[k];
      GenerarAlertasCubre(t, previos, ahora, k);
      ActivaSePreserva(r0.t.alertas, paso.value.0.alertas, productos[k].id);
    } else {
      AlertaPoblarCubre(r0.t, prod, ahora);
    }
  }

  /** An ACTIVA alert stays in the table when rows are appended. */
  lemma ActivaSePreserva(antes: seq<AlertaStock>, despues: seq<AlertaStock>, p: Id)
    requires antes <= despues && TieneActiva(antes, p)
    ensures TieneActiva(despues, p)
  {
    var i :| 0 <= i < |antes| && antes[i].producto == p && antes[i].estado == Activa;
    assert despues[i] == antes[i];
  }

  /** A flagged product leaves the step with an ACTIVA alert, whether it found one or created it. */
  lemma AlertaPoblarCubre(t: Tablas, prod: Producto, ahora: nat)
    requires UnaActivaPorProducto(t.alertas)
    requires AmeritaAlerta(StockTotal(t.stocks, prod.id), prod.stockMinimo)
    ensures AlertaPoblar(t, prod, ahora).Ok?
    ensures TieneActiva(AlertaPoblar(t, prod, ahora).value.0.alertas, prod.id)
  {
    ActivasAlMenosUna(t.alertas, prod.id);
    SinActivas(t.alertas, prod.id);
    var r := AlertaPoblar(t, prod, ahora).value;
    if r.1 {
      assert r.0.alertas[|t.alertas|].producto == prod.id;
    } else {
      ActivaSePreserva(t.alertas, r.0.alertas, prod.id);
    }
  }

  /** The alert loop (Producto.objects.all()), on the tables in place; `ahora` stands for the creation timestamp. */
  method GenerarAlertasStockBajo(db: Inventario, ahora: nat) returns (creadas: nat, r: Result<(), Fallo>)
    modifies db
    ensures var res := GenerarAlertas(old(db.Estado()), old(db.productos), ahora);
            && db.Estado() == res.t && creadas == res.creadas
            && (r.Err? <==> res.fallo.Some?) && (r.Err? ==> res.fallo == Some(r.error))
  {
    var productos := db.productos;
    ghost var t0 := db.Estado();
    var fallo: Option<Fallo> := None;
    creadas := 0;
    var i := 0;
    while i < |productos| && fallo.None?
      invariant 0 <= i <= |productos|
      invariant GenerarAlertas(t0, productos[..i], ahora) == Resultado(db.Estado(), creadas, fallo)
    {
      GenerarAlertasPaso(t0, productos, i, ahora, db.Estado(), creadas);
      creadas, fallo := AvanzarAlertas(db, creadas, productos[i], ahora);
      i := i + 1;
    }
    if fallo.Some? {
      PrefijoConFallo(t0, productos, i, ahora);
      r := Err(fallo.value);
    } else {
      assert productos[..i] == productos;
      r := Ok(());
    }
  }

  /** The loop body with its counter: one product checked in place, the count and the failure carried on. */
  method AvanzarAlertas(db: Inventario, creadas: nat, prod: Producto, ahora: nat) returns (cuenta: nat, fallo: Option<Fallo>)
    modifies db
    ensures Avance(old(db.Estado()), creadas, prod, ahora) == Resultado(db.Estado(), cuenta, fallo)
  {
    var paso := RevisarProducto(db, prod, ahora);
    cuenta, fallo := creadas, None;
    if paso.Err? {
      fallo := Some(paso.error);
    } else if paso.value {
      cuenta := creadas + 1;
    }
  }

  /** One iteration (lines 178-191) in place: the alert, if any, is appended to the table. */
  method RevisarProducto(db: Inventario, prod: Producto, ahora: nat) returns (r: Result<bool, Fallo>)
    modifies db
    ensures match AlertaPoblar(old(db.Estado()), prod, ahora)
            case Ok((t, creada)) => r == Ok(creada) && db.Estado() == t
            case Err(e) => r == Err(e) && db.Estado() == old(db.Estado())
  {
    var total := StockTotal(db.stocks, prod.id);
    if total > MinimoEntero(prod.stockMinimo) {
      return Ok(false);
    }
    var activas := Filtrar(db.alertas, ActivaDe(prod.id));
    if |activas| > 1 {
      return Err(VariosResultados);
    }
    if |activas| == 1 {
      return Ok(false);
    }
    db.alertas := db.alertas + [NuevaAlerta(prod.id, None, total, prod.stockMinimo, ahora, Some(Observacion(db.stocks, prod)))];
    r := Ok(true);
  }

  /** The loop over one more product is the loop so far followed by that product's iteration. */
  lemma GenerarAlertasPaso(t: Tablas, productos: seq<Producto>, i: nat, ahora: nat, antes: Tablas, creadas: nat)
    requires i < |productos|
    requires GenerarAlertas(t, productos[..i], ahora) == Resultado(antes, creadas, None)
    ensures GenerarAlertas(t, productos[..i + 1], ahora) == Avance(antes, creadas, productos[i], ahora)
  {
    assert productos[..i + 1][..i] == productos[..i];
  }

  /** Once the loop has failed, the remaining products change nothing. */
  lemma {:induction false} PrefijoConFallo(t: Tablas, productos: seq<Producto>, k: nat, ahora: nat)
    requires k <= |productos|
    requires GenerarAlertas(t, productos[..k], ahora).fallo.Some?
    ensures GenerarAlertas(t, productos, ahora) == GenerarAlertas(t, productos[..k], ahora)
  {
    if k < |productos| {
      var previos := productos[..|productos| - 1];
      assert previos[..k] == productos[..k];
      PrefijoConFallo(t, previos, k, ahora);
    } else {
      assert productos[..k] == productos;
    }
  }
}
