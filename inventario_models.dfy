/**
 * The inventory tables of inventario/models.py: areas, products, per-area
 * stock rows, the movement log, low-stock alerts, purchase entries and their
 * detail lines, with the aggregate queries the rest of the system uses
 * (product total, inclusive low-stock test, line values) and the ledger/log
 * agreement relation that the routines are measured against.
 *
 * Quantities and prices are Decimal(…, 2) columns, held here as integers in
 * hundredths (Centesimos). A quantity times a price is exact in
 * ten-thousandths (Importe).
 */
module InventarioModels {
  import opened Wrappers

  type Id = nat
  /** A two-decimal value in hundredths: 12.34 is 1234. */
  type Centesimos = int
  /** A quantity times a price, in ten-thousandths. */
  type Importe = int

  datatype TipoArea = Bodega | Cocina | Habitacion | Bar | Limpieza | Recepcion

  /** The code stored in Area.tipo. */
  function CodigoTipoArea(t: TipoArea): string {
    match t
    case Bodega => "BODEGA"
    case Cocina => "COCINA"
    case Habitacion => "HABITACION"
    case Bar => "BAR"
    case Limpieza => "LIMPIEZA"
    case Recepcion => "RECEPCION"
  }

  datatype Area = Area(id: Id, nombre: string, tipo: TipoArea, activo: bool)

  datatype Producto = Producto(
    id: Id,
    codigo: string,
    nombre: string,
    categoria: string,
    unidad: string,
    stockMinimo: Centesimos,
    precioUnitario: Option<Centesimos>,
    activo: bool)

  /** One row of the Stock table: the quantity of a product held in an area. */
  datatype Stock = Stock(producto: Id, area: Id, cantidad: Centesimos)

  datatype TipoMovimiento = Entrada | Salida | Ajuste | Transferencia

  datatype Motivo = Compra | Devolucion | Consumo | Venta | Perdida | AjusteInventario | PorTransferencia | Inicial

  /**
   * One row of the movement log. The links to the purchase entry (by its
   * unique number) and to the entry detail (by id) are optional references.
   */
  datatype Movimiento = Movimiento(
    producto: Id,
    areaOrigen: Option<Id>,
    areaDestino: Option<Id>,
    tipo: TipoMovimiento,
    motivo: Motivo,
    cantidad: Centesimos,
    precioUnitario: Option<Centesimos>,
    usuario: Id,
    entrada: Option<string>,
    detalleEntrada: Option<Id>)

  datatype EstadoAlerta = Activa | Resuelta | Ignorada

  /** Timestamps (fechaCreacion, fechaResolucion) are caller-supplied ordinals. */
  datatype AlertaStock = AlertaStock(
    producto: Id,
    area: Option<Id>,
    stockActual: Centesimos,
    stockMinimo: Centesimos,
    estado: EstadoAlerta,
    fechaCreacion: nat,
    fechaResolucion: Option<nat>,
    resueltoPor: Option<Id>,
    observaciones: Option<string>)

  datatype EntradaStock = EntradaStock(
    numero: string,
    proveedor: Option<Id>,
    fechaCompra: int,
    totalCompra: Option<Importe>,
    registradoPor: Id)

  datatype DetalleEntradaStock = DetalleEntradaStock(
    id: Id,
    entrada: string,
    producto: Id,
    areaDestino: Id,
    cantidad: Centesimos,
    precioUnitario: Option<Centesimos>)

  /** A freshly created alert: the estado column defaults to ACTIVA and nothing is resolved yet. */
  function NuevaAlerta(producto: Id, area: Option<Id>, actual: Centesimos, minimo: Centesimos,
                       fecha: nat, observaciones: Option<string>): (a: AlertaStock)
    ensures a.estado == Activa && a.fechaResolucion == None && a.resueltoPor == None
    ensures a.producto == producto && a.area == area && a.stockActual == actual && a.stockMinimo == minimo
  {
    AlertaStock(producto, area, actual, minimo, Activa, fecha, None, None, observaciones)
  }

  /** Selects the ACTIVA alerts of one product. */
  function ActivaDe(p: Id): AlertaStock -> bool {
    (a: AlertaStock) => a.producto == p && a.estado == Activa
  }

  /** `AlertaStock.objects.filter(producto=p, estado='ACTIVA').exists()`. */
  predicate TieneActiva(alertas: seq<AlertaStock>, p: Id) {
    exists i :: 0 <= i < |alertas| && alertas[i].producto == p && alertas[i].estado == Activa
  }

  /** The invariant the alert-raising routines keep: no product has two ACTIVA alerts. */
  ghost predicate UnaActivaPorProducto(alertas: seq<AlertaStock>) {
    forall i, j :: 0 <= i < j < |alertas| && alertas[i].estado == Activa && alertas[j].estado == Activa ==>
      alertas[i].producto != alertas[j].producto
  }

  // ---------------------------------------------------------------------------
  // The Stock table: lookup, get-or-create-and-set, sums

  /** unique_together = ['producto', 'area']. */
  ghost predicate ClavesUnicas(stocks: seq<Stock>) {
    forall i, j :: 0 <= i < j < |stocks| ==>
      stocks[i].producto != stocks[j].producto || stocks[i].area != stocks[j].area
  }

  /** MinValueValidator(0) on Stock.cantidad. */
  ghost predicate CantidadesNoNegativas(stocks: seq<Stock>) {
    forall i :: 0 <= i < |stocks| ==> stocks[i].cantidad >= 0
  }

  ghost predicate TablaStockValida(stocks: seq<Stock>) {
    ClavesUnicas(stocks) && CantidadesNoNegativas(stocks)
  }

  /** The quantity of the (producto, area) row, if there is one. */
  function Buscar(stocks: seq<Stock>, p: Id, a: Id): (r: Option<Centesimos>)
    ensures r.None? <==> forall i :: 0 <= i < |stocks| ==> stocks[i].producto != p || stocks[i].area != a
    ensures r.Some? ==> exists i :: 0 <= i < |stocks| && stocks[i] == Stock(p, a, r.value)
  {
    if stocks == [] then None
    else if stocks[0].producto == p && stocks[0].area == a then
      assert stocks[0] == Stock(p, a, stocks[0].cantidad);
      Some(stocks[0].cantidad)
    else
      var r := Buscar(stocks[1..], p, a);
      assert r.Some? ==> exists i :: 0 <= i < |stocks| && stocks[i] == Stock(p, a, r.value) by {
        if r.Some? {
          var i :| 0 <= i < |stocks[1..]| && stocks[1..][i] == Stock(p, a, r.value);
          assert stocks[i + 1] == Stock(p, a, r.value);
        }
      }
      r
  }

  /** The quantity held at (producto, area); a missing row holds nothing. */
  function CantidadEn(stocks: seq<Stock>, p: Id, a: Id): Centesimos {
    Buscar(stocks, p, a).GetOr(0)
  }

  /**
   * get_or_create the (producto, area) row, then set its cantidad and save:
   * an existing row keeps its place and takes the new quantity, a missing row
   * is appended.
   */
  function Fijar(stocks: seq<Stock>, p: Id, a: Id, q: Centesimos): (r: seq<Stock>)
    ensures |r| == if Buscar(stocks, p, a).Some? then |stocks| else |stocks| + 1
    ensures Buscar(stocks, p, a).None? ==> r == stocks + [Stock(p, a, q)]
  {
    if stocks == [] then [Stock(p, a, q)]
    else if stocks[0].producto == p && stocks[0].area == a then [stocks[0].(cantidad := q)] + stocks[1..]
    else [stocks[0]] + Fijar(stocks[1..], p, a, q)
  }

  /** After Fijar the row holds q and every other row reads as before. */
  lemma {:induction false} BuscarFijar(stocks: seq<Stock>, p: Id, a: Id, q: Centesimos, p': Id, a': Id)
    ensures Buscar(Fijar(stocks, p, a, q), p', a') == if p' == p && a' == a then Some(q) else Buscar(stocks, p', a')
  {
    if stocks != [] && !(stocks[0].producto == p && stocks[0].area == a) {
      BuscarFijar(stocks[1..], p, a, q, p', a');
      assert Fijar(stocks, p, a, q)[1..] == Fijar(stocks[1..], p, a, q);
    } else if stocks != [] {
      assert Fijar(stocks, p, a, q)[1..] == stocks[1..];
    }
  }

  /** Fijar keeps the table a function of (producto, area), and keeps quantities non-negative. */
  lemma {:induction false} FijarPreservaTabla(stocks: seq<Stock>, p: Id, a: Id, q: Centesimos)
    requires ClavesUnicas(stocks)
    ensures ClavesUnicas(Fijar(stocks, p, a, q))
    ensures CantidadesNoNegativas(stocks) && q >= 0 ==> CantidadesNoNegativas(Fijar(stocks, p, a, q))
  {
    if stocks != [] {
      var t := stocks[1..];
      assert ClavesUnicas(t) by {
        forall i, j | 0 <= i < j < |t| ensures t[i].producto != t[j].producto || t[i].area != t[j].area {
          assert t[i] == stocks[i + 1] && t[j] == stocks[j + 1];
        }
      }
      var r := Fijar(stocks, p, a, q);
      if stocks[0].producto == p && stocks[0].area == a {
        forall i, j | 0 <= i < j < |r| ensures r[i].producto != r[j].producto || r[i].area != r[j].area {
          assert r[j] == stocks[j];
          if i > 0 { assert r[i] == stocks[i]; }
        }
      } else {
        FijarPreservaTabla(t, p, a, q);
        var rt := Fijar(t, p, a, q);
        assert r == [stocks[0]] + rt;
        forall j | 0 < j < |r| ensures r[0].producto != r[j].producto || r[0].area != r[j].area {
          var x := r[j];
          assert x == rt[j - 1];
          BuscarFijar(t, p, a, q, x.producto, x.area);
          if !(x.producto == p && x.area == a) {
            // x was already in the tail, which stocks[0] differs from
            var k :| 0 <= k < |t| && t[k] == Stock(x.producto, x.area, Buscar(t, x.producto, x.area).value);
            assert stocks[k + 1] == t[k];
          }
        }
        if CantidadesNoNegativas(stocks) && q >= 0 {
          assert CantidadesNoNegativas(t) by {
            forall i | 0 <= i < |t| ensures t[i].cantidad >= 0 { assert t[i] == stocks[i + 1]; }
          }
        }
      }
    }
  }

  /** The sum of cantidad over the rows that `enFila` selects. */
  function Suma(stocks: seq<Stock>, enFila: Stock -> bool): Centesimos {
    if stocks == [] then 0
    else Suma(stocks[..|stocks| - 1], enFila) + (if enFila(stocks[|stocks| - 1]) then stocks[|stocks| - 1].cantidad else 0)
  }

  /** The number of rows that `enFila` selects. */
  function Cuenta(stocks: seq<Stock>, enFila: Stock -> bool): nat {
    if stocks == [] then 0
    else Cuenta(stocks[..|stocks| - 1], enFila) + (if enFila(stocks[|stocks| - 1]) then 1 else 0)
  }

  lemma {:induction false} SumaSinFilas(stocks: seq<Stock>, enFila: Stock -> bool)
    requires Cuenta(stocks, enFila) == 0
    ensures Suma(stocks, enFila) == 0
  {
    if stocks != [] {
      SumaSinFilas(stocks[..|stocks| - 1], enFila);
    }
  }

  lemma {:induction false} SumaNoNegativa(stocks: seq<Stock>, enFila: Stock -> bool)
    requires CantidadesNoNegativas(stocks)
    ensures Suma(stocks, enFila) >= 0
  {
    if stocks != [] {
      SumaNoNegativa(stocks[..|stocks| - 1], enFila);
    }
  }

  /** No selected row has anything, so the aggregate is Decimal('0'). */
  lemma {:induction false} SumaCeroSinSeleccion(stocks: seq<Stock>, enFila: Stock -> bool)
    requires forall i :: 0 <= i < |stocks| ==> !enFila(stocks[i])
    ensures Suma(stocks, enFila) == 0 && Cuenta(stocks, enFila) == 0
  {
    if stocks != [] {
      SumaCeroSinSeleccion(stocks[..|stocks| - 1], enFila);
    }
  }

  /** Selects the rows of one product. */
  function DelProducto(p: Id): Stock -> bool {
    (s: Stock) => s.producto == p
  }

  /** Selects the rows of one area. */
  function DelArea(a: Id): Stock -> bool {
    (s: Stock) => s.area == a
  }

  /** Producto.stock_total: the sum of its rows over every area, Decimal('0') when it has none. */
  function StockTotal(stocks: seq<Stock>, p: Id): Centesimos {
    Suma(stocks, DelProducto(p))
  }

  lemma StockTotalSinFilas(stocks: seq<Stock>, p: Id)
    requires forall i :: 0 <= i < |stocks| ==> stocks[i].producto != p
    ensures StockTotal(stocks, p) == 0
  {
    SumaCeroSinSeleccion(stocks, DelProducto(p));
  }

  lemma StockTotalNoNegativo(stocks: seq<Stock>, p: Id)
    requires CantidadesNoNegativas(stocks)
    ensures StockTotal(stocks, p) >= 0
  {
    SumaNoNegativa(stocks, DelProducto(p));
  }

  /** Producto.tiene_stock_bajo: total at or below the minimum (inclusive). */
  predicate TieneStockBajo(stocks: seq<Stock>, prod: Producto) {
    StockTotal(stocks, prod.id) <= prod.stockMinimo
  }

  /** The boundary is inclusive: a total exactly at the minimum is low, one unit (0.01) above is not. */
  lemma StockBajoFrontera(stocks: seq<Stock>, prod: Producto)
    ensures StockTotal(stocks, prod.id) == prod.stockMinimo ==> TieneStockBajo(stocks, prod)
    ensures StockTotal(stocks, prod.id) == prod.stockMinimo + 1 ==> !TieneStockBajo(stocks, prod)
  {
  }

  // ---------------------------------------------------------------------------
  // Line values

  /** `cantidad * precio_unitario if precio_unitario else None`: a missing or zero price gives None. */
  function ImporteSiPrecio(cantidad: Centesimos, precio: Option<Centesimos>): (r: Option<Importe>)
    ensures r.None? <==> precio.None? || precio.value == 0
  {
    if precio.Some? && precio.value != 0 then Some(cantidad * precio.value) else None
  }

  /** Movimiento.valor_total. */
  function ValorTotal(m: Movimiento): Option<Importe> {
    ImporteSiPrecio(m.cantidad, m.precioUnitario)
  }

  /** DetalleEntradaStock.subtotal. */
  function Subtotal(d: DetalleEntradaStock): Option<Importe> {
    ImporteSiPrecio(d.cantidad, d.precioUnitario)
  }

  /**
   * With the model's field constraints (quantity at least 0.01, price not
   * negative) a present value is the exact product and is at least the
   * quantity; and `(precio or 0) * cantidad`, the form other code sums, is
   * the value with None read as zero.
   */
  lemma ImporteSiPrecioPropiedades(cantidad: Centesimos, precio: Option<Centesimos>)
    requires cantidad >= 1 && (precio.Some? ==> precio.value >= 0)
    ensures ImporteSiPrecio(cantidad, precio).Some? ==>
              ImporteSiPrecio(cantidad, precio).value == cantidad * precio.value >= cantidad
    ensures precio.GetOr(0) * cantidad == ImporteSiPrecio(cantidad, precio).GetOr(0)
  {
    if precio.Some? && precio.value != 0 {
      assert cantidad * precio.value >= cantidad * 1;
    }
  }

  // ---------------------------------------------------------------------------
  // Ledger and movement log

  /** The signed effect of one movement on the (producto, area) balance. */
  function Efecto(m: Movimiento, p: Id, a: Id): Centesimos {
    if m.producto != p then 0
    else (if m.areaDestino == Some(a) then m.cantidad else 0) - (if m.areaOrigen == Some(a) then m.cantidad else 0)
  }

  /** The balance of (producto, area) recomputed from the movement log alone. */
  function Neto(movs: seq<Movimiento>, p: Id, a: Id): Centesimos {
    if movs == [] then 0 else Neto(movs[..|movs| - 1], p, a) + Efecto(movs[|movs| - 1], p, a)
  }

  lemma NetoAgregar(movs: seq<Movimiento>, m: Movimiento, p: Id, a: Id)
    ensures Neto(movs + [m], p, a) == Neto(movs, p, a) + Efecto(m, p, a)
  {
    assert (movs + [m])[..|movs|] == movs;
  }

  /** Every stock row equals the signed sum of the movements recorded for it. */
  ghost predicate LibroCuadra(stocks: seq<Stock>, movs: seq<Movimiento>) {
    forall p, a :: CantidadEn(stocks, p, a) == Neto(movs, p, a)
  }

  // ---------------------------------------------------------------------------
  // Deleting rows

  /** The rows a `.exclude(...)` keeps, in their order: `filter(...).delete()` leaves exactly these. */
  function Filtrar<T>(s: seq<T>, conservar: T -> bool): (r: seq<T>)
    ensures |r| <= |s|
    ensures forall i :: 0 <= i < |r| ==> r[i] in s && conservar(r[i])
    ensures forall i :: 0 <= i < |s| && conservar(s[i]) ==> s[i] in r
  {
    if s == [] then []
    else
      var r0 := Filtrar(s[..|s| - 1], conservar);
      assert s == s[..|s| - 1] + [s[|s| - 1]];
      if conservar(s[|s| - 1]) then r0 + [s[|s| - 1]] else r0
  }

  /** A row inserted at the end is kept or dropped on its own; the earlier rows filter as before. */
  lemma FiltrarAgregar<T>(s: seq<T>, x: T, conservar: T -> bool)
    ensures Filtrar(s + [x], conservar) == if conservar(x) then Filtrar(s, conservar) + [x] else Filtrar(s, conservar)
  {
    assert (s + [x])[..|s|] == s;
  }

  /** Walking a table row by row: the next row joins the kept prefix exactly when it is kept. */
  lemma FiltrarPaso<T>(s: seq<T>, i: nat, conservar: T -> bool)
    requires i < |s|
    ensures Filtrar(s[..i + 1], conservar) == if conservar(s[i]) then Filtrar(s[..i], conservar) + [s[i]] else Filtrar(s[..i], conservar)
  {
    assert s[..i + 1] == s[..i] + [s[i]];
    FiltrarAgregar(s[..i], s[i], conservar);
  }

  /** A filter that selects nothing deletes nothing. */
  lemma {:induction false} FiltrarNada<T>(s: seq<T>, conservar: T -> bool)
    requires forall i :: 0 <= i < |s| ==> conservar(s[i])
    ensures Filtrar(s, conservar) == s
  {
    if s != [] {
      FiltrarNada(s[..|s| - 1], conservar);
      assert s == s[..|s| - 1] + [s[|s| - 1]];
    }
  }

  /** A filter that selects no row finds nothing. */
  lemma {:induction false} FiltrarVacio<T>(s: seq<T>, conservar: T -> bool)
    requires forall i :: 0 <= i < |s| ==> !conservar(s[i])
    ensures Filtrar(s, conservar) == []
  {
    if s != [] {
      FiltrarVacio(s[..|s| - 1], conservar);
    }
  }

  /** Deleting rows keeps any relation that held between every earlier and later row. */
  lemma {:induction false} FiltrarPreservaPares<T>(s: seq<T>, conservar: T -> bool, rel: (T, T) -> bool)
    requires forall i, j :: 0 <= i < j < |s| ==> rel(s[i], s[j])
    ensures forall i, j :: 0 <= i < j < |Filtrar(s, conservar)| ==> rel(Filtrar(s, conservar)[i], Filtrar(s, conservar)[j])
  {
    if s != [] {
      var s0 := s[..|s| - 1];
      var ultimo := s[|s| - 1];
      FiltrarPreservaPares(s0, conservar, rel);
      var r0 := Filtrar(s0, conservar);
      var r := Filtrar(s, conservar);
      if conservar(ultimo) {
        assert r == r0 + [ultimo];
        forall i, j | 0 <= i < j < |r| ensures rel(r[i], r[j]) {
          if j == |r| - 1 {
            assert r[i] in s0 by { assert r[i] == r0[i]; }
            var k :| 0 <= k < |s0| && s0[k] == r[i];
            assert s[k] == r[i] && r[j] == ultimo;
            assert rel(s[k], s[|s| - 1]);
          } else {
            assert r[i] == r0[i] && r[j] == r0[j];
            assert rel(r0[i], r0[j]);
          }
        }
      } else {
        assert r == r0;
        forall i, j | 0 <= i < j < |r| ensures rel(r[i], r[j]) {
          assert rel(r0[i], r0[j]);
        }
      }
    }
  }

  /** Deleting rows keeps any property every row had. */
  lemma FiltrarPreservaTodos<T>(s: seq<T>, conservar: T -> bool, prop: T -> bool)
    requires forall i :: 0 <= i < |s| ==> prop(s[i])
    ensures forall i :: 0 <= i < |Filtrar(s, conservar)| ==> prop(Filtrar(s, conservar)[i])
  {
    var r := Filtrar(s, conservar);
    forall i | 0 <= i < |r| ensures prop(r[i]) {
      assert r[i] in s;
      var k :| 0 <= k < |s| && s[k] == r[i];
    }
  }

  // ---------------------------------------------------------------------------
  // The tables

  /** The product with this code, if any (codigo is unique). */
  function BuscarCodigo(productos: seq<Producto>, codigo: string): (r: Option<Producto>)
    ensures r.Some? ==> r.value in productos && r.value.codigo == codigo
    ensures r.None? <==> forall i :: 0 <= i < |productos| ==> productos[i].codigo != codigo
  {
    if productos == [] then None
    else if productos[|productos| - 1].codigo == codigo then Some(productos[|productos| - 1])
    else
      var r := BuscarCodigo(productos[..|productos| - 1], codigo);
      assert forall i :: 0 <= i < |productos| - 1 ==> productos[..|productos| - 1][i] == productos[i];
      r
  }

  ghost predicate ProductosValidos(productos: seq<Producto>, cota: nat) {
    && (forall i :: 0 <= i < |productos| ==>
          productos[i].stockMinimo >= 0 && productos[i].id < cota &&
          (productos[i].precioUnitario.Some? ==> productos[i].precioUnitario.value >= 0))
    && (forall i, j :: 0 <= i < j < |productos| ==>
          productos[i].codigo != productos[j].codigo && productos[i].id != productos[j].id)
  }

  ghost predicate MovimientosValidos(movs: seq<Movimiento>) {
    forall i :: 0 <= i < |movs| ==> movs[i].cantidad >= 1
  }

  ghost predicate DetallesValidos(detalles: seq<DetalleEntradaStock>, cota: nat) {
    forall i :: 0 <= i < |detalles| ==> detalles[i].cantidad >= 1 && detalles[i].id < cota
  }

  /** numero_entrada is unique. */
  ghost predicate NumerosUnicos(entradas: seq<EntradaStock>) {
    forall i, j :: 0 <= i < j < |entradas| ==> entradas[i].numero != entradas[j].numero
  }

  predicate ExisteEntrada(entradas: seq<EntradaStock>, numero: string) {
    exists i :: 0 <= i < |entradas| && entradas[i].numero == numero
  }

  /** A snapshot of every inventario table, the value the routines are specified against. */
  datatype Tablas = Tablas(
    productos: seq<Producto>,
    areas: seq<Area>,
    stocks: seq<Stock>,
    movimientos: seq<Movimiento>,
    alertas: seq<AlertaStock>,
    entradas: seq<EntradaStock>,
    detallesEntrada: seq<DetalleEntradaStock>,
    siguienteId: nat)

  /** The table constraints of inventario/models.py that the database or the routines keep. */
  ghost predicate TablasValidas(t: Tablas) {
    && TablaStockValida(t.stocks)
    && ProductosValidos(t.productos, t.siguienteId)
    && MovimientosValidos(t.movimientos)
    && DetallesValidos(t.detallesEntrada, t.siguienteId)
    && NumerosUnicos(t.entradas)
  }

  /** Errors the ORM raises inside the routines; each aborts the surrounding transaction. */
  datatype Fallo =
    | ErrorDeTipo        // arithmetic on None (TypeError)
    | ClaveDuplicada     // a unique constraint rejected an insert (IntegrityError)
    | Protegido          // a PROTECT foreign key blocked a delete (ProtectedError)
    | VariosResultados   // get/get_or_create matched several rows (MultipleObjectsReturned)
    | CampoNulo          // a NOT NULL column was given None (IntegrityError)

  /** The inventario tables, updated in place by the routines that seed and curate them. */
  class Inventario {
    var productos: seq<Producto>
    var areas: seq<Area>
    var stocks: seq<Stock>
    var movimientos: seq<Movimiento>
    var alertas: seq<AlertaStock>
    var entradas: seq<EntradaStock>
    var detallesEntrada: seq<DetalleEntradaStock>
    /** Next primary key; every product and entry-detail id is below it. */
    var siguienteId: nat

    function Estado(): Tablas
      reads this
    {
      Tablas(productos, areas, stocks, movimientos, alertas, entradas, detallesEntrada, siguienteId)
    }

    ghost predicate Valid()
      reads this
    {
      TablasValidas(Estado())
    }

    /** Replaces every table at once: the commit of a transaction, or its rollback to a snapshot. */
    method Restaurar(t: Tablas)
      modifies this
      ensures Estado() == t
    {
      productos, areas, stocks, movimientos := t.productos, t.areas, t.stocks, t.movimientos;
      alertas, entradas, detallesEntrada, siguienteId := t.alertas, t.entradas, t.detallesEntrada, t.siguienteId;
    }

    constructor ()
      ensures Valid()
      ensures Estado() == Tablas([], [], [], [], [], [], [], 1)
    {
      productos, areas, stocks, movimientos := [], [], [], [];
      alertas, entradas, detallesEntrada := [], [], [];
      siguienteId := 1;
    }
  }
}
