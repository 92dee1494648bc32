/**
 * The three ledger-touching steps of the seed_db management command
 * (reportes/management/commands/seed_db.py): products and their per-area
 * stock, the FAC-0001 purchase entry with its ENTRADA movements, and the
 * PED-2025-0001 order with a simulated half reception.
 *
 * The command runs inside one transaction: an error in any step leaves
 * every table as it was. Users, categories, areas, suppliers and reports,
 * which the command only get-or-creates, are outside this model; the areas
 * and suppliers are taken as they stand.
 */
module SeedDb {
  import opened Wrappers
  import opened InventarioModels
  import PedidosModels

  // ---------------------------------------------------------------------------
  // Step 1: products and per-area stock

  /** One row of the product list the command seeds; minimum and price in hundredths. */
  datatype Semilla = Semilla(
    codigo: string,
    nombre: string,
    categoria: string,
    unidad: string,
    stockMinimo: Centesimos,
    precio: Centesimos)

  const SEMILLAS: seq<Semilla> := [
    Semilla("ALIM-001", "Arroz 1kg", "Alimentos y Despensa", "KG", 1000, 150000),
    Semilla("ALIM-002", "Harina 1kg", "Alimentos y Despensa", "KG", 500, 90000),
    Semilla("BEB-001", "Agua 500ml", "Bebidas", "BOT", 2000, 40000),
    Semilla("BEB-002", "Cerveza 330ml", "Bebidas", "BOT", 3000, 80000),
    Semilla("LIM-001", "Detergente 5L", "Limpieza y Aseo", "LT", 200, 800000),
    Semilla("AMN-001", "Shampoo Hotel 30ml", "Amenities y Aseo Personal", "ML", 5000, 12000),
    Semilla("FRU-001", "Manzana", "Frutas y Verduras", "KG", 500, 200000)
  ]

  ghost predicate SemillasValidas(defs: seq<Semilla>) {
    && (forall i :: 0 <= i < |defs| ==> defs[i].stockMinimo >= 0 && defs[i].precio >= 0)
    && (forall i, j :: 0 <= i < j < |defs| ==> defs[i].codigo != defs[j].codigo)
  }

  lemma SemillasDefinidasValidas()
    ensures SemillasValidas(SEMILLAS)
  {
    SemillasNoNegativas();
    CodigosSemillaDistintos();
  }

  lemma SemillasNoNegativas()
    ensures forall i :: 0 <= i < |SEMILLAS| ==> SEMILLAS[i].stockMinimo >= 0 && SEMILLAS[i].precio >= 0
  {
  }

  /** The seven seeded codes are pairwise different: each pair differs in its first, second or last character. */
  lemma CodigosSemillaDistintos()
    ensures forall i, j :: 0 <= i < j < |SEMILLAS| ==> SEMILLAS[i].codigo != SEMILLAS[j].codigo
  {
    forall i, j | 0 <= i < j < |SEMILLAS|
      ensures SEMILLAS[i].codigo != SEMILLAS[j].codigo
    {
      var a, b := SEMILLAS[i].codigo, SEMILLAS[j].codigo;
      assert a[0] != b[0] || a[1] != b[1] || a[|a| - 1] != b[|b| - 1];
    }
  }

  /** The target quantity of a Stock row, by the type of its area: 100, 30, 50, 20, otherwise 10. */
  function Meta(tipo: TipoArea): (q: Centesimos)
    ensures q >= 1000
  {
    match tipo
    case Bodega => 10000
    case Cocina => 3000
    case Bar => 5000
    case Habitacion => 2000
    case _ => 1000
  }

  function Max(a: int, b: int): int {
    if a >= b then a else b
  }

  /**
   * Stock get_or_create at the target, then `if stock.cantidad < cantidad`
   * raise it: a missing row is created at the target, a lower one is raised,
   * a higher one is left alone.
   */
  function Elevar(stocks: seq<Stock>, p: Id, a: Id, meta: Centesimos): seq<Stock> {
    match Buscar(stocks, p, a)
    case None => stocks + [Stock(p, a, meta)]
    case Some(q) => if q < meta then Fijar(stocks, p, a, meta) else stocks
  }

  /** The row ends at max(old, target), a missing row counting as 0; no other row changes. */
  lemma ElevarEfecto(stocks: seq<Stock>, p: Id, a: Id, meta: Centesimos, p': Id, a': Id)
    requires meta >= 0
    ensures Buscar(Elevar(stocks, p, a, meta), p', a') ==
            if p' == p && a' == a then Some(Max(CantidadEn(stocks, p, a), meta)) else Buscar(stocks, p', a')
  {
    BuscarFijar(stocks, p, a, meta, p', a');
  }

  lemma ElevarPreservaTabla(stocks: seq<Stock>, p: Id, a: Id, meta: Centesimos)
    requires TablaStockValida(stocks) && meta >= 0
    ensures TablaStockValida(Elevar(stocks, p, a, meta))
  {
    FijarPreservaTabla(stocks, p, a, meta);
  }

  /**
   * The raise writes no movement: when the ledger agreed with the movement
   * log and a row is raised, it no longer does.
   */
  lemma ElevarRompeLibro(stocks: seq<Stock>, movs: seq<Movimiento>, p: Id, a: Id, meta: Centesimos)
    requires LibroCuadra(stocks, movs)
    requires 0 <= CantidadEn(stocks, p, a) < meta
    ensures !LibroCuadra(Elevar(stocks, p, a, meta), movs)
  {
    ElevarEfecto(stocks, p, a, meta, p, a);
    assert CantidadEn(Elevar(stocks, p, a, meta), p, a) == meta != Neto(movs, p, a);
  }

  /** The inner loop `for area in Area.objects.all()`. */
  function ElevarEnAreas(stocks: seq<Stock>, p: Id, areas: seq<Area>): seq<Stock> {
    if areas == [] then stocks
    else
      var u := areas[|areas| - 1];
      Elevar(ElevarEnAreas(stocks, p, areas[..|areas| - 1]), p, u.id, Meta(u.tipo))
  }

  ghost predicate IdsDistintos(areas: seq<Area>) {
    forall i, j :: 0 <= i < j < |areas| ==> areas[i].id != areas[j].id
  }

  /** Rows of other products, and of areas not in the list, are untouched. */
  lemma {:induction false} ElevarEnAreasFuera(stocks: seq<Stock>, p: Id, areas: seq<Area>, p': Id, a': Id)
    requires p' != p || forall k :: 0 <= k < |areas| ==> areas[k].id != a'
    ensures Buscar(ElevarEnAreas(stocks, p, areas), p', a') == Buscar(stocks, p', a')
  {
    if areas != [] {
      var u := areas[|areas| - 1];
      var previas := areas[..|areas| - 1];
      assert forall k :: 0 <= k < |previas| ==> previas[k] == areas[k];
      ElevarEnAreasFuera(stocks, p, previas, p', a');
      ElevarEfecto(ElevarEnAreas(stocks, p, previas), p, u.id, Meta(u.tipo), p', a');
    }
  }

  /** Every area gets a row of the product holding max(old, target). */
  lemma {:induction false} ElevarEnAreasMeta(stocks: seq<Stock>, p: Id, areas: seq<Area>, k: nat)
    requires IdsDistintos(areas) && k < |areas|
    ensures Buscar(ElevarEnAreas(stocks, p, areas), p, areas[k].id) ==
            Some(Max(CantidadEn(stocks, p, areas[k].id), Meta(areas[k].tipo)))
  {
    var u := areas[|areas| - 1];
    var previas := areas[..|areas| - 1];
    var medio := ElevarEnAreas(stocks, p, previas);
    assert forall i :: 0 <= i < |previas| ==> previas[i] == areas[i];
    ElevarEfecto(medio, p, u.id, Meta(u.tipo), p, areas[k].id);
    if k == |areas| - 1 {
      ElevarEnAreasFuera(stocks, p, previas, p, u.id);
    } else {
      ElevarEnAreasMeta(stocks, p, previas, k);
    }
  }

  lemma {:induction false} ElevarEnAreasValida(stocks: seq<Stock>, p: Id, areas: seq<Area>)
    requires TablaStockValida(stocks)
    ensures TablaStockValida(ElevarEnAreas(stocks, p, areas))
  {
    if areas != [] {
      var u := areas[|areas| - 1];
      ElevarEnAreasValida(stocks, p, areas[..|areas| - 1]);
      ElevarPreservaTabla(ElevarEnAreas(stocks, p, areas[..|areas| - 1]), p, u.id, Meta(u.tipo));
    }
  }

  /** An existing product is saved with the seeded price and minimum; its name and the rest stay. */
  function Actualizado(prod: Producto, d: Semilla): Producto {
    prod.(precioUnitario := Some(d.precio), stockMinimo := d.stockMinimo)
  }

  function NuevoProducto(id: Id, d: Semilla): Producto {
    Producto(id, d.codigo, d.nombre, d.categoria, d.unidad, d.stockMinimo, Some(d.precio), true)
  }

  /** `producto.save()`: the row with the product's id takes its new values. */
  function Reemplazar(productos: seq<Producto>, prod: Producto): (r: seq<Producto>)
    ensures |r| == |productos|
  {
    seq(|productos|, i requires 0 <= i < |productos| => if productos[i].id == prod.id then prod else productos[i])
  }

  /** Producto get_or_create by codigo, then the overwrite of an existing row. */
  function AsegurarSemilla(t: Tablas, d: Semilla): (r: (Tablas, Producto))
    ensures r.1.codigo == d.codigo && r.1.precioUnitario == Some(d.precio) && r.1.stockMinimo == d.stockMinimo
    ensures r.0.(productos := t.productos, siguienteId := t.siguienteId) == t
    ensures match BuscarCodigo(t.productos, d.codigo)
            case Some(p) =>
              && r.1.id == p.id && r.1.nombre == p.nombre && r.1.categoria == p.categoria
              && r.1.unidad == p.unidad && r.1.activo == p.activo
              && |r.0.productos| == |t.productos| && r.0.siguienteId == t.siguienteId
            case None =>
              && r.1.nombre == d.nombre && r.1.categoria == d.categoria && r.1.unidad == d.unidad
              && r.0.productos == t.productos + [r.1] && r.1.id == t.siguienteId
  {
    match BuscarCodigo(t.productos, d.codigo)
    case Some(p) =>
      var q := Actualizado(p, d);
      (t.(productos := Reemplazar(t.productos, q)), q)
    case None =>
      var q := NuevoProducto(t.siguienteId, d);
      (t.(productos := t.productos + [q], siguienteId := t.siguienteId + 1), q)
  }

  /** One iteration of the product loop. */
  function SembrarUno(t: Tablas, d: Semilla): (r: Tablas)
    ensures r.movimientos == t.movimientos && r.areas == t.areas && r.alertas == t.alertas
    ensures r.entradas == t.entradas && r.detallesEntrada == t.detallesEntrada
  {
    var (t1, p) := AsegurarSemilla(t, d);
    t1.(stocks := ElevarEnAreas(t1.stocks, p.id, t1.areas))
  }

  /** _create_productos_y_stocks over a list of definitions. */
  function SembrarProductos(t: Tablas, defs: seq<Semilla>): Tablas {
    if defs == [] then t else SembrarUno(SembrarProductos(t, defs[..|defs| - 1]), defs[|defs| - 1])
  }

  /** The step adds no movement: the movement log and the entries are exactly as before. */
  lemma {:induction false} SembrarProductosSinMovimientos(t: Tablas, defs: seq<Semilla>)
    ensures SembrarProductos(t, defs).movimientos == t.movimientos
    ensures SembrarProductos(t, defs).entradas == t.entradas
    ensures SembrarProductos(t, defs).areas == t.areas
    ensures SembrarProductos(t, defs).detallesEntrada == t.detallesEntrada
  {
    if defs != [] {
      SembrarProductosSinMovimientos(t, defs[..|defs| - 1]);
    }
  }

  lemma AsegurarSemillaValida(t: Tablas, d: Semilla)
    requires TablasValidas(t) && d.stockMinimo >= 0 && d.precio >= 0
    ensures TablasValidas(AsegurarSemilla(t, d).0)
  {
    var r := AsegurarSemilla(t, d);
    match BuscarCodigo(t.productos, d.codigo)
    case Some(p) =>
      var q := Actualizado(p, d);
      assert r.0.productos == Reemplazar(t.productos, q);
      assert exists i :: 0 <= i < |t.productos| && t.productos[i] == p;
    case None =>
  }

  lemma SembrarUnoValido(t: Tablas, d: Semilla)
    requires TablasValidas(t) && d.stockMinimo >= 0 && d.precio >= 0
    ensures TablasValidas(SembrarUno(t, d))
  {
    var (t1, p) := AsegurarSemilla(t, d);
    AsegurarSemillaValida(t, d);
    ElevarEnAreasValida(t1.stocks, p.id, t1.areas);
  }

  lemma {:induction false} SembrarProductosValido(t: Tablas, defs: seq<Semilla>)
    requires TablasValidas(t) && SemillasValidas(defs)
    ensures TablasValidas(SembrarProductos(t, defs))
  {
    if defs != [] {
      SembrarProductosValido(t, defs[..|defs| - 1]);
      SembrarUnoValido(SembrarProductos(t, defs[..|defs| - 1]), defs[|defs| - 1]);
    }
  }

  /** The inner loop, raising one product's rows area by area. */
  method ElevarStocks(db: Inventario, p: Id)
    modifies db
    ensures db.Estado() == old(db.Estado()).(stocks := ElevarEnAreas(old(db.stocks), p, db.areas))
  {
    ghost var t0 := db.Estado();
    var areas := db.areas;
    var i := 0;
    while i < |areas|
      invariant 0 <= i <= |areas|
      invariant db.Estado() == t0.(stocks := ElevarEnAreas(t0.stocks, p, areas[..i]))
    {
      assert areas[..i + 1][..i] == areas[..i];
      ElevarEnArea(db, p, areas[i]);
      i := i + 1;
    }
    assert areas[..i] == areas;
  }

  /** One area of the inner loop: the row is created at the target, or raised to it when below. */
  method ElevarEnArea(db: Inventario, p: Id, area: Area)
    modifies db
    ensures db.Estado() == old(db.Estado()).(stocks := Elevar(old(db.stocks), p, area.id, Meta(area.tipo)))
  {
    var cantidad := Meta(area.tipo);
    var existente := Buscar(db.stocks, p, area.id);
    if existente.None? {
      db.stocks := db.stocks + [Stock(p, area.id, cantidad)];
    } else if existente.value < cantidad {
      db.stocks := Fijar(db.stocks, p, area.id, cantidad);
    }
  }

  /** One product: get_or_create it (or overwrite its price and minimum), then raise its stock rows. */
  method SembrarProducto(db: Inventario, d: Semilla) returns (prod: Producto)
    modifies db
    ensures db.Estado() == SembrarUno(old(db.Estado()), d)
    ensures prod == AsegurarSemilla(old(db.Estado()), d).1
  {
    var encontrado := BuscarCodigo(db.productos, d.codigo);
    if encontrado.Some? {
      prod := Actualizado(encontrado.value, d);
      db.productos := Reemplazar(db.productos, prod);
    } else {
      prod := NuevoProducto(db.siguienteId, d);
      db.productos := db.productos + [prod];
      db.siguienteId := db.siguienteId + 1;
    }
    ElevarStocks(db, prod.id);
  }

  /** _create_productos_y_stocks. */
  method CrearProductosYStocks(db: Inventario, defs: seq<Semilla>)
    requires db.Valid() && SemillasValidas(defs)
    modifies db
    ensures db.Valid()
    ensures db.Estado() == SembrarProductos(old(db.Estado()), defs)
  {
    var i := 0;
    while i < |defs|
      invariant 0 <= i <= |defs|
      invariant db.Estado() == SembrarProductos(old(db.Estado()), defs[..i])
    {
      assert defs[..i + 1][..i] == defs[..i];
      var _ := SembrarProducto(db, defs[i]);
      i := i + 1;
    }
    assert defs[..i] == defs;
    SembrarProductosValido(old(db.Estado()), defs);
  }

  // ---------------------------------------------------------------------------
  // Step 2: the FAC-0001 entry and its ENTRADA movements

  const NUMERO_SEMILLA: string := "FAC-0001"
  const CANTIDAD_DETALLE: Centesimos := 5000

  /** `Model.objects.all()[:n]`, taken in table order. */
  function Primeros<T>(s: seq<T>, n: nat): (r: seq<T>)
    ensures |r| <= n && r <= s
    ensures |s| >= n ==> |r| == n
  {
    if |s| <= n then s else s[..n]
  }

  /** `Area.objects.filter(tipo='BODEGA').first()`, taken in table order. */
  function PrimeraBodega(areas: seq<Area>): (r: Option<Id>)
    ensures r.None? <==> forall i :: 0 <= i < |areas| ==> areas[i].tipo != Bodega
    ensures r.Some? ==> exists i :: 0 <= i < |areas| && areas[i].tipo == Bodega && areas[i].id == r.value
  {
    if areas == [] then None
    else if areas[0].tipo == Bodega then Some(areas[0].id)
    else
      var r := PrimeraBodega(areas[1..]);
      assert forall i :: 0 <= i < |areas| - 1 ==> areas[1..][i] == areas[i + 1];
      r
  }

  /** The detail get_or_create looks up this (entrada, producto, area_destino). */
  function Coincide(numero: string, p: Id, a: Id): DetalleEntradaStock -> bool {
    (d: DetalleEntradaStock) => d.entrada == numero && d.producto == p && d.areaDestino == a
  }

  /** The defaults of a created detail: 50 units at the product's price, a missing or zero price read as 0. */
  function NuevoDetalle(id: Id, numero: string, prod: Producto, bodega: Id): DetalleEntradaStock {
    DetalleEntradaStock(id, numero, prod.id, bodega, CANTIDAD_DETALLE, Some(prod.precioUnitario.GetOr(0)))
  }

  /** The ENTRADA/COMPRA movement written for a created detail, linked to it and to its entry. */
  function MovimientoDeDetalle(d: DetalleEntradaStock, admin: Id): Movimiento {
    Movimiento(d.producto, None, Some(d.areaDestino), Entrada, Compra, d.cantidad, d.precioUnitario,
               admin, Some(d.entrada), Some(d.id))
  }

  /**
   * One iteration of the detail loop: get_or_create the detail and, only
   * when it is new, append its movement. With no BODEGA area the lookup
   * finds nothing and the insert of a NULL area_destino fails; with several
   * matching details get_or_create fails too. This is the intended
   * iteration, in which the movement create succeeds; PasoDetalleEscrito
   * below is the iteration as the command writes it.
   */
  function PasoDetalle(t: Tablas, numero: string, prod: Producto, bodega: Option<Id>, admin: Id)
    : (r: Result<(Tablas, DetalleEntradaStock), Fallo>)
    ensures r.Err? <==> bodega.None? || |Filtrar(t.detallesEntrada, Coincide(numero, prod.id, bodega.value))| > 1
    ensures r.Ok? ==>
              r.value.0.(movimientos := t.movimientos, detallesEntrada := t.detallesEntrada, siguienteId := t.siguienteId) == t
  {
    if bodega.None? then Err(CampoNulo)
    else
      var encontrados := Filtrar(t.detallesEntrada, Coincide(numero, prod.id, bodega.value));
      if |encontrados| > 1 then Err(VariosResultados)
      else if |encontrados| == 1 then Ok((t, encontrados[0]))
      else
        var d := NuevoDetalle(t.siguienteId, numero, prod, bodega.value);
        Ok((t.(detallesEntrada := t.detallesEntrada + [d], movimientos := t.movimientos + [MovimientoDeDetalle(d, admin)],
               siguienteId := t.siguienteId + 1), d))
  }

  /**
   * A movement is appended exactly when the detail is new, and then it
   * records the detail's product, quantity and price into the bodega; a
   * detail found again changes nothing.
   */
  lemma PasoDetalleMovimiento(t: Tablas, numero: string, prod: Producto, bodega: Option<Id>, admin: Id)
    requires PasoDetalle(t, numero, prod, bodega, admin).Ok?
    ensures (|PasoDetalle(t, numero, prod, bodega, admin).value.0.movimientos| > |t.movimientos|) <==>
            Filtrar(t.detallesEntrada, Coincide(numero, prod.id, bodega.value)) == []
    ensures Filtrar(t.detallesEntrada, Coincide(numero, prod.id, bodega.value)) == [] ==>
              var d := PasoDetalle(t, numero, prod, bodega, admin).value.1;
              && PasoDetalle(t, numero, prod, bodega, admin).value.0.detallesEntrada == t.detallesEntrada + [d]
              && PasoDetalle(t, numero, prod, bodega, admin).value.0.movimientos == t.movimientos + [MovimientoDeDetalle(d, admin)]
              && d.producto == prod.id && d.areaDestino == bodega.value && d.cantidad == CANTIDAD_DETALLE
    ensures Filtrar(t.detallesEntrada, Coincide(numero, prod.id, bodega.value)) != [] ==>
              PasoDetalle(t, numero, prod, bodega, admin).value.0 == t
  {
  }

  /**
   * The movement is appended without touching Stock: from a ledger that
   * agreed with the log, a new detail leaves the bodega row 50 short of its
   * movements.
   */
  lemma PasoDetalleRompeLibro(t: Tablas, numero: string, prod: Producto, bodega: Option<Id>, admin: Id)
    requires LibroCuadra(t.stocks, t.movimientos)
    requires bodega.Some? && Filtrar(t.detallesEntrada, Coincide(numero, prod.id, bodega.value)) == []
    ensures PasoDetalle(t, numero, prod, bodega, admin).Ok?
    ensures var t' := PasoDetalle(t, numero, prod, bodega, admin).value.0;
            && CantidadEn(t'.stocks, prod.id, bodega.value) + CANTIDAD_DETALLE == Neto(t'.movimientos, prod.id, bodega.value)
            && !LibroCuadra(t'.stocks, t'.movimientos)
  {
    var d := NuevoDetalle(t.siguienteId, numero, prod, bodega.value);
    NetoAgregar(t.movimientos, MovimientoDeDetalle(d, admin), prod.id, bodega.value);
  }

  /** `total += (detalle.precio_unitario or Decimal('0')) * detalle.cantidad` over the loop's details. */
  function TotalDetalles(ds: seq<DetalleEntradaStock>): Importe {
    if ds == [] then 0
    else TotalDetalles(ds[..|ds| - 1]) + ds[|ds| - 1].precioUnitario.GetOr(0) * ds[|ds| - 1].cantidad
  }

  /** The sum of DetalleEntradaStock.subtotal over the details, a None subtotal counting as 0. */
  function SumaSubtotales(ds: seq<DetalleEntradaStock>): Importe {
    if ds == [] then 0 else SumaSubtotales(ds[..|ds| - 1]) + Subtotal(ds[|ds| - 1]).GetOr(0)
  }

  /** The stored total is the sum of the details' subtotals. */
  lemma {:induction false} TotalEsSumaDeSubtotales(ds: seq<DetalleEntradaStock>)
    ensures TotalDetalles(ds) == SumaSubtotales(ds)
  {
    if ds != [] {
      TotalEsSumaDeSubtotales(ds[..|ds| - 1]);
    }
  }

  /** The detail loop over the selected products. */
  function Detalles(t: Tablas, numero: string, productos: seq<Producto>, bodega: Option<Id>, admin: Id)
    : Result<(Tablas, seq<DetalleEntradaStock>), Fallo>
  {
    if productos == [] then Ok((t, []))
    else
      match Detalles(t, numero, productos[..|productos| - 1], bodega, admin)
      case Err(e) => Err(e)
      case Ok((t1, ds)) =>
        match PasoDetalle(t1, numero, productos[|productos| - 1], bodega, admin)
        case Err(e) => Err(e)
        case Ok((t2, d)) => Ok((t2, ds + [d]))
  }

  /** An error in an iteration aborts the loop with that error. */
  lemma {:induction false} DetallesAborta(t: Tablas, numero: string, productos: seq<Producto>, k: nat, bodega: Option<Id>, admin: Id)
    requires k <= |productos|
    requires Detalles(t, numero, productos[..k], bodega, admin).Err?
    ensures Detalles(t, numero, productos, bodega, admin) == Detalles(t, numero, productos[..k], bodega, admin)
  {
    if k < |productos| {
      var previos := productos[..|productos| - 1];
      assert previos[..k] == productos[..k];
      DetallesAborta(t, numero, previos, k, bodega, admin);
    } else {
      assert productos[..k] == productos;
    }
  }

  /** The loop changes only the details, the movements and the id counter. */
  lemma {:induction false} DetallesConserva(t: Tablas, numero: string, productos: seq<Producto>, bodega: Option<Id>, admin: Id)
    requires Detalles(t, numero, productos, bodega, admin).Ok?
    ensures var t' := Detalles(t, numero, productos, bodega, admin).value.0;
            t'.(movimientos := t.movimientos, detallesEntrada := t.detallesEntrada, siguienteId := t.siguienteId) == t
  {
    if productos != [] {
      DetallesConserva(t, numero, productos[..|productos| - 1], bodega, admin);
    }
  }

  ghost predicate IdsProductoDistintos(productos: seq<Producto>) {
    forall i, j :: 0 <= i < j < |productos| ==> productos[i].id != productos[j].id
  }

  /** Each product's lookup finds exactly its own detail, the k-th product the k-th detail. */
  ghost predicate Encuentra(detalles: seq<DetalleEntradaStock>, numero: string, productos: seq<Producto>, b: Id,
                            ds: seq<DetalleEntradaStock>) {
    |ds| == |productos| &&
    forall k :: 0 <= k < |productos| ==> Filtrar(detalles, Coincide(numero, productos[k].id, b)) == [ds[k]]
  }

  /** A detail for another product does not disturb the lookups. */
  lemma EncuentraAgregar(detalles: seq<DetalleEntradaStock>, numero: string, productos: seq<Producto>, b: Id,
                         ds: seq<DetalleEntradaStock>, d: DetalleEntradaStock)
    requires Encuentra(detalles, numero, productos, b, ds)
    requires forall k :: 0 <= k < |productos| ==> productos[k].id != d.producto
    ensures Encuentra(detalles + [d], numero, productos, b, ds)
  {
    forall k | 0 <= k < |productos|
      ensures Filtrar(detalles + [d], Coincide(numero, productos[k].id, b)) == [ds[k]]
    {
      FiltrarAgregar(detalles, d, Coincide(numero, productos[k].id, b));
    }
  }

  lemma EncuentraUltimo(detalles: seq<DetalleEntradaStock>, numero: string, productos: seq<Producto>, b: Id,
                        ds: seq<DetalleEntradaStock>, q: Producto, d: DetalleEntradaStock)
    requires Encuentra(detalles, numero, productos, b, ds)
    requires Filtrar(detalles, Coincide(numero, q.id, b)) == [d]
    ensures Encuentra(detalles, numero, productos + [q], b, ds + [d])
  {
    assert forall k :: 0 <= k < |productos| ==> (productos + [q])[k] == productos[k] && (ds + [d])[k] == ds[k];
  }

  /**
   * After the loop over distinct products, each product's lookup finds
   * exactly the one detail the loop used for it.
   */
  lemma {:induction false} DetallesUnicos(t: Tablas, numero: string, productos: seq<Producto>, bodega: Option<Id>, admin: Id)
    requires IdsProductoDistintos(productos)
    requires Detalles(t, numero, productos, bodega, admin).Ok?
    ensures productos != [] ==> bodega.Some?
    ensures bodega.Some? ==>
              Encuentra(Detalles(t, numero, productos, bodega, admin).value.0.detallesEntrada, numero, productos, bodega.value,
                        Detalles(t, numero, productos, bodega, admin).value.1)
  {
    if productos != [] {
      var n := |productos| - 1;
      var previos := productos[..n];
      var q := productos[n];
      assert productos == previos + [q];
      assert IdsProductoDistintos(previos);
      assert forall k :: 0 <= k < |previos| ==> previos[k].id != q.id by {
        assert forall k :: 0 <= k < |previos| ==> previos[k] == productos[k];
      }
      DetallesUnicos(t, numero, previos, bodega, admin);
      var r1 := Detalles(t, numero, previos, bodega, admin).value;
      var r2 := PasoDetalle(r1.0, numero, q, bodega, admin).value;
      EncuentraPaso(r1.0, numero, previos, q, bodega, admin, r1.1);
      DetallesUltimo(t, numero, productos, bodega, admin, r1.0, r1.1, r2.0, r2.1);
    }
  }

  /** One more distinct product keeps every lookup finding exactly its detail. */
  lemma EncuentraPaso(t1: Tablas, numero: string, previos: seq<Producto>, q: Producto, bodega: Option<Id>, admin: Id,
                      ds: seq<DetalleEntradaStock>)
    requires bodega.Some? && Encuentra(t1.detallesEntrada, numero, previos, bodega.value, ds)
    requires forall k :: 0 <= k < |previos| ==> previos[k].id != q.id
    requires PasoDetalle(t1, numero, q, bodega, admin).Ok?
    ensures Encuentra(PasoDetalle(t1, numero, q, bodega, admin).value.0.detallesEntrada, numero, previos + [q], bodega.value,
                      ds + [PasoDetalle(t1, numero, q, bodega, admin).value.1])
  {
    var r2 := PasoDetalle(t1, numero, q, bodega, admin).value;
    var b := bodega.value;
    if Filtrar(t1.detallesEntrada, Coincide(numero, q.id, b)) == [] {
      FiltrarAgregar(t1.detallesEntrada, r2.1, Coincide(numero, q.id, b));
      EncuentraAgregar(t1.detallesEntrada, numero, previos, b, ds, r2.1);
    }
    EncuentraUltimo(r2.0.detallesEntrada, numero, previos, b, ds, q, r2.1);
  }

  /** A loop whose every lookup finds exactly its detail changes nothing and returns those details. */
  lemma {:induction false} DetallesSinCambios(u: Tablas, numero: string, productos: seq<Producto>, bodega: Option<Id>, admin: Id,
                                              ds: seq<DetalleEntradaStock>)
    requires bodega.Some? && Encuentra(u.detallesEntrada, numero, productos, bodega.value, ds)
    ensures Detalles(u, numero, productos, bodega, admin) == Ok((u, ds))
  {
    if productos != [] {
      var n := |productos| - 1;
      EncuentraPrefijo(u.detallesEntrada, numero, productos, bodega.value, ds);
      DetallesSinCambios(u, numero, productos[..n], bodega, admin, ds[..n]);
      DetallesSinCambiosPaso(u, numero, productos, bodega, admin, ds);
    }
  }

  /** The last lookup finding exactly its detail extends an unchanged prefix to an unchanged loop. */
  lemma DetallesSinCambiosPaso(u: Tablas, numero: string, productos: seq<Producto>, bodega: Option<Id>, admin: Id,
                               ds: seq<DetalleEntradaStock>)
    requires bodega.Some? && productos != [] && |ds| == |productos|
    requires Detalles(u, numero, productos[..|productos| - 1], bodega, admin) == Ok((u, ds[..|productos| - 1]))
    requires Filtrar(u.detallesEntrada, Coincide(numero, productos[|productos| - 1].id, bodega.value)) == [ds[|productos| - 1]]
    ensures Detalles(u, numero, productos, bodega, admin) == Ok((u, ds))
  {
    var n := |productos| - 1;
    PasoDetalleEncontrado(u, numero, productos[n], bodega, admin, ds[n]);
    DetallesUltimo(u, numero, productos, bodega, admin, u, ds[..n], u, ds[n]);
    assert ds[..n] + [ds[n]] == ds;
  }

  /** A clean prefix followed by a clean last iteration gives the loop's result. */
  lemma DetallesUltimo(t: Tablas, numero: string, productos: seq<Producto>, bodega: Option<Id>, admin: Id,
                       t1: Tablas, ds: seq<DetalleEntradaStock>, t2: Tablas, d: DetalleEntradaStock)
    requires productos != []
    requires Detalles(t, numero, productos[..|productos| - 1], bodega, admin) == Ok((t1, ds))
    requires PasoDetalle(t1, numero, productos[|productos| - 1], bodega, admin) == Ok((t2, d))
    ensures Detalles(t, numero, productos, bodega, admin) == Ok((t2, ds + [d]))
  {
  }

  /** Lookups that find every product's detail also find those of the products before the last. */
  lemma EncuentraPrefijo(detalles: seq<DetalleEntradaStock>, numero: string, productos: seq<Producto>, b: Id,
                         ds: seq<DetalleEntradaStock>)
    requires productos != [] && Encuentra(detalles, numero, productos, b, ds)
    ensures Encuentra(detalles, numero, productos[..|productos| - 1], b, ds[..|productos| - 1])
  {
    var n := |productos| - 1;
    forall k | 0 <= k < n
      ensures Filtrar(detalles, Coincide(numero, productos[..n][k].id, b)) == [ds[..n][k]]
    {
      assert productos[..n][k] == productos[k] && ds[..n][k] == ds[k];
    }
  }

  /** An iteration whose lookup finds exactly one detail returns it and changes nothing. */
  lemma PasoDetalleEncontrado(u: Tablas, numero: string, prod: Producto, bodega: Option<Id>, admin: Id, d: DetalleEntradaStock)
    requires bodega.Some? && Filtrar(u.detallesEntrada, Coincide(numero, prod.id, bodega.value)) == [d]
    ensures PasoDetalle(u, numero, prod, bodega, admin) == Ok((u, d))
  {
  }

  /** Running the loop again on its own result, whatever the entries hold, finds every detail and changes nothing. */
  lemma DetallesRepetidos(t: Tablas, u: Tablas, numero: string, productos: seq<Producto>, bodega: Option<Id>, admin: Id)
    requires IdsProductoDistintos(productos)
    requires Detalles(t, numero, productos, bodega, admin).Ok?
    requires u.detallesEntrada == Detalles(t, numero, productos, bodega, admin).value.0.detallesEntrada
    ensures Detalles(u, numero, productos, bodega, admin) == Ok((u, Detalles(t, numero, productos, bodega, admin).value.1))
  {
    DetallesUnicos(t, numero, productos, bodega, admin);
    if productos != [] {
      DetallesSinCambios(u, numero, productos, bodega, admin, Detalles(t, numero, productos, bodega, admin).value.1);
    }
  }

  /** entrada.total_compra = total; entrada.save(). */
  function FijarTotal(entradas: seq<EntradaStock>, numero: string, total: Importe): (r: seq<EntradaStock>)
    ensures |r| == |entradas|
  {
    seq(|entradas|, i requires 0 <= i < |entradas| =>
      if entradas[i].numero == numero then entradas[i].(totalCompra := Some(total)) else entradas[i])
  }

  /** EntradaStock get_or_create(numero_entrada='FAC-0001'): an existing entry is kept as it is. */
  function EntradaSemilla(t: Tablas, admin: Id, prov: Id, hoy: int): (r: Tablas)
    ensures ExisteEntrada(r.entradas, NUMERO_SEMILLA)
  {
    if ExisteEntrada(t.entradas, NUMERO_SEMILLA) then t
    else
      var e := EntradaStock(NUMERO_SEMILLA, Some(prov), hoy, Some(0), admin);
      assert (t.entradas + [e])[|t.entradas|] == e;
      t.(entradas := t.entradas + [e])
  }

  /** _create_entradas_movimientos: skipped without an admin user or a supplier. */
  function SembrarEntradas(t: Tablas, admin: Option<Id>, prov: Option<Id>, hoy: int): Result<Tablas, Fallo> {
    if prov.None? || admin.None? then Ok(t)
    else
      var t1 := EntradaSemilla(t, admin.value, prov.value, hoy);
      match Detalles(t1, NUMERO_SEMILLA, Primeros(t1.productos, 5), PrimeraBodega(t1.areas), admin.value)
      case Err(e) => Err(e)
      case Ok((t2, ds)) => Ok(t2.(entradas := FijarTotal(t2.entradas, NUMERO_SEMILLA, TotalDetalles(ds))))
  }

  /**
   * The step touches no Stock row, product, area or alert; FAC-0001 exists
   * afterwards and carries the total of the loop's details.
   */
  lemma SembrarEntradasEfecto(t: Tablas, admin: Option<Id>, prov: Option<Id>, hoy: int)
    requires SembrarEntradas(t, admin, prov, hoy).Ok?
    ensures var t' := SembrarEntradas(t, admin, prov, hoy).value;
            t'.stocks == t.stocks && t'.productos == t.productos && t'.areas == t.areas && t'.alertas == t.alertas
    ensures admin.Some? && prov.Some? ==>
              var t1 := EntradaSemilla(t, admin.value, prov.value, hoy);
              var ds := Detalles(t1, NUMERO_SEMILLA, Primeros(t1.productos, 5), PrimeraBodega(t1.areas), admin.value).value.1;
              forall i :: 0 <= i < |SembrarEntradas(t, admin, prov, hoy).value.entradas| &&
                          SembrarEntradas(t, admin, prov, hoy).value.entradas[i].numero == NUMERO_SEMILLA ==>
                            SembrarEntradas(t, admin, prov, hoy).value.entradas[i].totalCompra == Some(TotalDetalles(ds))
    ensures admin.Some? && prov.Some? ==> ExisteEntrada(SembrarEntradas(t, admin, prov, hoy).value.entradas, NUMERO_SEMILLA)
  {
    if admin.Some? && prov.Some? {
      var t1 := EntradaSemilla(t, admin.value, prov.value, hoy);
      DetallesConserva(t1, NUMERO_SEMILLA, Primeros(t1.productos, 5), PrimeraBodega(t1.areas), admin.value);
      var t' := SembrarEntradas(t, admin, prov, hoy).value;
      var i :| 0 <= i < |t1.entradas| && t1.entradas[i].numero == NUMERO_SEMILLA;
      assert t'.entradas[i].numero == NUMERO_SEMILLA;
    }
  }

  lemma FijarTotalIdempotente(entradas: seq<EntradaStock>, numero: string, total: Importe)
    ensures FijarTotal(FijarTotal(entradas, numero, total), numero, total) == FijarTotal(entradas, numero, total)
  {
  }

  /**
   * Running the step a second time changes nothing: every detail is found
   * again, so no movement is duplicated, and the total is recomputed to the
   * same value.
   */
  lemma SembrarEntradasIdempotente(t: Tablas, admin: Option<Id>, prov: Option<Id>, hoy: int)
    requires ProductosValidos(t.productos, t.siguienteId)
    requires SembrarEntradas(t, admin, prov, hoy).Ok?
    ensures SembrarEntradas(SembrarEntradas(t, admin, prov, hoy).value, admin, prov, hoy) == SembrarEntradas(t, admin, prov, hoy)
  {
    if admin.Some? && prov.Some? {
      var t1 := EntradaSemilla(t, admin.value, prov.value, hoy);
      var productos := Primeros(t1.productos, 5);
      var bodega := PrimeraBodega(t1.areas);
      assert IdsProductoDistintos(productos);
      DetallesConserva(t1, NUMERO_SEMILLA, productos, bodega, admin.value);
      var r := Detalles(t1, NUMERO_SEMILLA, productos, bodega, admin.value).value;
      var t3 := SembrarEntradas(t, admin, prov, hoy).value;
      assert t3 == r.0.(entradas := FijarTotal(r.0.entradas, NUMERO_SEMILLA, TotalDetalles(r.1)));
      SembrarEntradasEfecto(t, admin, prov, hoy);
      assert EntradaSemilla(t3, admin.value, prov.value, hoy) == t3;
      DetallesRepetidos(t1, t3, NUMERO_SEMILLA, productos, bodega, admin.value);
      FijarTotalIdempotente(r.0.entradas, NUMERO_SEMILLA, TotalDetalles(r.1));
    }
  }

  lemma PasoDetalleValido(t: Tablas, numero: string, prod: Producto, bodega: Option<Id>, admin: Id)
    requires TablasValidas(t)
    requires PasoDetalle(t, numero, prod, bodega, admin).Ok?
    ensures TablasValidas(PasoDetalle(t, numero, prod, bodega, admin).value.0)
  {
  }

  lemma {:induction false} DetallesValido(t: Tablas, numero: string, productos: seq<Producto>, bodega: Option<Id>, admin: Id)
    requires TablasValidas(t)
    requires Detalles(t, numero, productos, bodega, admin).Ok?
    ensures TablasValidas(Detalles(t, numero, productos, bodega, admin).value.0)
  {
    if productos != [] {
      var previos := productos[..|productos| - 1];
      DetallesValido(t, numero, previos, bodega, admin);
      PasoDetalleValido(Detalles(t, numero, previos, bodega, admin).value.0, numero, productos[|productos| - 1], bodega, admin);
    }
  }

  lemma SembrarEntradasValido(t: Tablas, admin: Option<Id>, prov: Option<Id>, hoy: int)
    requires TablasValidas(t)
    requires SembrarEntradas(t, admin, prov, hoy).Ok?
    ensures TablasValidas(SembrarEntradas(t, admin, prov, hoy).value)
  {
    if admin.Some? && prov.Some? {
      var t1 := EntradaSemilla(t, admin.value, prov.value, hoy);
      assert TablasValidas(t1);
      DetallesValido(t1, NUMERO_SEMILLA, Primeros(t1.productos, 5), PrimeraBodega(t1.areas), admin.value);
    }
  }

  // ---------------------------------------------------------------------------
  // The detail loop as the command writes it. Its Movimiento.objects.create
  // passes `entrada` and `detalle_entrada`, keywords the Movimiento model does
  // not declare, so the call raises TypeError. The rest of this module
  // follows the intended behaviour, in which the movement is recorded.

  /** The iteration as written: a detail that is new fails with TypeError once its row is inserted. */
  function PasoDetalleEscrito(t: Tablas, numero: string, prod: Producto, bodega: Option<Id>, admin: Id)
    : (r: Result<(Tablas, DetalleEntradaStock), Fallo>)
    ensures r == Err(ErrorDeTipo) <==> bodega.Some? && Filtrar(t.detallesEntrada, Coincide(numero, prod.id, bodega.value)) == []
    ensures r.Ok? ==> r == PasoDetalle(t, numero, prod, bodega, admin) && r.value.0 == t
  {
    match PasoDetalle(t, numero, prod, bodega, admin)
    case Err(e) => Err(e)
    case Ok((t1, d)) =>
      if Filtrar(t.detallesEntrada, Coincide(numero, prod.id, bodega.value)) == [] then Err(ErrorDeTipo) else Ok((t1, d))
  }

  /** The detail loop as written. */
  function DetallesEscrito(t: Tablas, numero: string, productos: seq<Producto>, bodega: Option<Id>, admin: Id)
    : Result<(Tablas, seq<DetalleEntradaStock>), Fallo>
  {
    if productos == [] then Ok((t, []))
    else
      match DetallesEscrito(t, numero, productos[..|productos| - 1], bodega, admin)
      case Err(e) => Err(e)
      case Ok((t1, ds)) =>
        match PasoDetalleEscrito(t1, numero, productos[|productos| - 1], bodega, admin)
        case Err(e) => Err(e)
        case Ok((t2, d)) => Ok((t2, ds + [d]))
  }

  /** Where the loop as written succeeds, it agrees with the intended loop and has created nothing. */
  lemma {:induction false} DetallesEscritoSinCrear(t: Tablas, numero: string, productos: seq<Producto>, bodega: Option<Id>, admin: Id)
    requires DetallesEscrito(t, numero, productos, bodega, admin).Ok?
    ensures DetallesEscrito(t, numero, productos, bodega, admin) == Detalles(t, numero, productos, bodega, admin)
    ensures DetallesEscrito(t, numero, productos, bodega, admin).value.0 == t
  {
    if productos != [] {
      DetallesEscritoSinCrear(t, numero, productos[..|productos| - 1], bodega, admin);
    }
  }

  /** With a bodega and no detail yet under `numero`, the first product's detail is new and the loop fails. */
  lemma {:induction false} DetallesEscritoFalla(t: Tablas, numero: string, productos: seq<Producto>, bodega: Option<Id>, admin: Id)
    requires bodega.Some? && productos != []
    requires forall i :: 0 <= i < |t.detallesEntrada| ==> t.detallesEntrada[i].entrada != numero
    ensures DetallesEscrito(t, numero, productos, bodega, admin) == Err(ErrorDeTipo)
  {
    var previos := productos[..|productos| - 1];
    if previos != [] {
      DetallesEscritoFalla(t, numero, previos, bodega, admin);
    } else {
      FiltrarVacio(t.detallesEntrada, Coincide(numero, productos[0].id, bodega.value));
    }
  }

  /** _create_entradas_movimientos as written. */
  function SembrarEntradasEscrito(t: Tablas, admin: Option<Id>, prov: Option<Id>, hoy: int): Result<Tablas, Fallo> {
    if prov.None? || admin.None? then Ok(t)
    else
      var t1 := EntradaSemilla(t, admin.value, prov.value, hoy);
      match DetallesEscrito(t1, NUMERO_SEMILLA, Primeros(t1.productos, 5), PrimeraBodega(t1.areas), admin.value)
      case Err(e) => Err(e)
      case Ok((t2, ds)) => Ok(t2.(entradas := FijarTotal(t2.entradas, NUMERO_SEMILLA, TotalDetalles(ds))))
  }

  /** Command.handle as written, on values: an error undoes both table sets. */
  function SembrarEscrito(t: Tablas, tp: PedidosModels.TablasPedidos, admin: Option<Id>, provInventario: Option<Id>,
                          provPedidos: Option<Id>, hoy: int, ahora: PedidosModels.Fecha)
    : (Result<(), Fallo>, Tablas, PedidosModels.TablasPedidos)
  {
    match SembrarEntradasEscrito(SembrarProductos(t, SEMILLAS), admin, provInventario, hoy)
    case Err(e) => (Err(e), t, tp)
    case Ok(t2) => (Ok(()), t2, SembrarPedidos(tp, t2.productos, admin, provPedidos, ahora))
  }

  /** Seeding adds products: after a non-empty list of definitions the product table is not empty. */
  lemma SembrarProductosNoVacio(t: Tablas, defs: seq<Semilla>)
    requires defs != []
    ensures |SembrarProductos(t, defs).productos| >= 1
  {
    var t0 := SembrarProductos(t, defs[..|defs| - 1]);
    var d := defs[|defs| - 1];
    match BuscarCodigo(t0.productos, d.codigo)
    case Some(p) =>
      assert p in t0.productos;
    case None =>
  }

  /**
   * On a database with an admin user, a supplier and a BODEGA area but no
   * FAC-0001 detail, the command as written aborts with TypeError and its
   * transaction leaves both table sets as they were: nothing is seeded.
   */
  lemma SembrarEscritoFalla(t: Tablas, tp: PedidosModels.TablasPedidos, admin: Option<Id>, provInventario: Option<Id>,
                            provPedidos: Option<Id>, hoy: int, ahora: PedidosModels.Fecha)
    requires admin.Some? && provInventario.Some?
    requires exists i :: 0 <= i < |t.areas| && t.areas[i].tipo == Bodega
    requires forall i :: 0 <= i < |t.detallesEntrada| ==> t.detallesEntrada[i].entrada != NUMERO_SEMILLA
    ensures SembrarEscrito(t, tp, admin, provInventario, provPedidos, hoy, ahora) == (Err(ErrorDeTipo), t, tp)
  {
    var t0 := SembrarProductos(t, SEMILLAS);
    SembrarProductosSinMovimientos(t, SEMILLAS);
    SembrarProductosNoVacio(t, SEMILLAS);
    var t1 := EntradaSemilla(t0, admin.value, provInventario.value, hoy);
    assert t1.productos == t0.productos && t1.areas == t.areas && t1.detallesEntrada == t.detallesEntrada;
    DetallesEscritoFalla(t1, NUMERO_SEMILLA, Primeros(t1.productos, 5), PrimeraBodega(t1.areas), admin.value);
  }

  /** One iteration of the detail loop, on the tables in place. */
  method RegistrarDetalle(db: Inventario, numero: string, prod: Producto, bodega: Option<Id>, admin: Id)
    returns (r: Result<DetalleEntradaStock, Fallo>)
    modifies db
    ensures match PasoDetalle(old(db.Estado()), numero, prod, bodega, admin)
            case Ok((t, d)) => r == Ok(d) && db.Estado() == t
            case Err(e) => r == Err(e) && db.Estado() == old(db.Estado())
  {
    if bodega.None? {
      return Err(CampoNulo);
    }
    var encontrados := Filtrar(db.detallesEntrada, Coincide(numero, prod.id, bodega.value));
    if |encontrados| > 1 {
      return Err(VariosResultados);
    }
    if |encontrados| == 1 {
      return Ok(encontrados[0]);
    }
    var d := NuevoDetalle(db.siguienteId, numero, prod, bodega.value);
    db.detallesEntrada := db.detallesEntrada + [d];
    db.siguienteId := db.siguienteId + 1;
    db.movimientos := db.movimientos + [MovimientoDeDetalle(d, admin)];
    r := Ok(d);
  }

  /** The loop over the first products: each iteration in place, the total kept alongside. */
  method RegistrarDetalles(db: Inventario, numero: string, productos: seq<Producto>, bodega: Option<Id>, admin: Id)
    returns (r: Result<Importe, Fallo>)
    modifies db
    ensures match Detalles(old(db.Estado()), numero, productos, bodega, admin)
            case Ok((t, ds)) => r == Ok(TotalDetalles(ds)) && db.Estado() == t
            case Err(e) => r == Err(e) && db.Estado() == old(db.Estado())
  {
    var t1 := db.Estado();
    var total: Importe := 0;
    ghost var ds: seq<DetalleEntradaStock> := [];
    var i := 0;
    while i < |productos|
      invariant 0 <= i <= |productos|
      invariant Detalles(t1, numero, productos[..i], bodega, admin) == Ok((db.Estado(), ds))
      invariant total == TotalDetalles(ds)
    {
      var paso := RegistrarDetalle(db, numero, productos[i], bodega, admin);
      assert productos[..i + 1][..i] == productos[..i];
      if paso.Err? {
        DetallesAborta(t1, numero, productos, i + 1, bodega, admin);
        db.Restaurar(t1);
        return Err(paso.error);
      }
      var d := paso.value;
      assert (ds + [d])[..|ds|] == ds;
      ds := ds + [d];
      total := total + d.precioUnitario.GetOr(0) * d.cantidad;
      i := i + 1;
    }
    assert productos[..i] == productos;
    r := Ok(total);
  }

  /** _create_entradas_movimientos; an error rolls the tables back. */
  method CrearEntradasMovimientos(db: Inventario, admin: Option<Id>, prov: Option<Id>, hoy: int) returns (r: Result<(), Fallo>)
    requires db.Valid()
    modifies db
    ensures db.Valid()
    ensures match SembrarEntradas(old(db.Estado()), admin, prov, hoy)
            case Ok(t) => r == Ok(()) && db.Estado() == t
            case Err(e) => r == Err(e) && db.Estado() == old(db.Estado())
  {
    if prov.None? || admin.None? {
      return Ok(());
    }
    var t0 := db.Estado();
    if !ExisteEntrada(db.entradas, NUMERO_SEMILLA) {
      db.entradas := db.entradas + [EntradaStock(NUMERO_SEMILLA, prov, hoy, Some(0), admin.value)];
    }
    assert db.Estado() == EntradaSemilla(t0, admin.value, prov.value, hoy);
    var productos := Primeros(db.productos, 5);
    var bodega := PrimeraBodega(db.areas);
    var total := RegistrarDetalles(db, NUMERO_SEMILLA, productos, bodega, admin.value);
    if total.Err? {
      db.Restaurar(t0);
      return Err(total.error);
    }
    db.entradas := FijarTotal(db.entradas, NUMERO_SEMILLA, total.value);
    SembrarEntradasValido(t0, admin, prov, hoy);
    r := Ok(());
  }

  // ---------------------------------------------------------------------------
  // Step 3: PED-2025-0001 and a simulated half reception

  const NUMERO_PEDIDO_SEMILLA: string := "PED-2025-0001"
  const CANTIDAD_PEDIDA: Centesimos := 2000

  /** The order with this number, if any (numero_pedido is unique). */
  function BuscarPedido(pedidos: seq<PedidosModels.Pedido>, numero: string): (r: Option<PedidosModels.Pedido>)
    ensures r.Some? ==> r.value in pedidos && r.value.numero == numero
    ensures r.None? <==> !PedidosModels.ExisteNumero(pedidos, numero)
  {
    if pedidos == [] then None
    else if pedidos[|pedidos| - 1].numero == numero then Some(pedidos[|pedidos| - 1])
    else
      var r := BuscarPedido(pedidos[..|pedidos| - 1], numero);
      assert forall i :: 0 <= i < |pedidos| - 1 ==> pedidos[..|pedidos| - 1][i] == pedidos[i];
      r
  }

  /**
   * Pedido get_or_create(numero_pedido='PED-2025-0001'): a new order is
   * ENVIADO, created by the admin, and Pedido.save keeps the given number.
   */
  function PedidoSemilla(t: PedidosModels.TablasPedidos, admin: Id, prov: Id, ahora: PedidosModels.Fecha)
    : (r: (PedidosModels.TablasPedidos, PedidosModels.Pedido))
    ensures r.1.numero == NUMERO_PEDIDO_SEMILLA && r.1 in r.0.pedidos
    ensures r.0.(pedidos := t.pedidos, siguienteId := t.siguienteId) == t
  {
    match BuscarPedido(t.pedidos, NUMERO_PEDIDO_SEMILLA)
    case Some(p) => (t, p)
    case None =>
      var p := PedidosModels.Pedido(t.siguienteId, NUMERO_PEDIDO_SEMILLA, prov, Some(ahora), PedidosModels.Enviado, admin);
      (t.(pedidos := t.pedidos + [p], siguienteId := t.siguienteId + 1), p)
  }

  predicate ExisteLinea(lineas: seq<PedidosModels.DetallePedido>, pedido: Id, producto: Id) {
    exists i :: 0 <= i < |lineas| && lineas[i].pedido == pedido && lineas[i].producto == producto
  }

  /** DetallePedido get_or_create(pedido, producto): a new line orders 20 at the product's price or 0. */
  function AsegurarLinea(t: PedidosModels.TablasPedidos, pedido: Id, prod: Producto): (r: PedidosModels.TablasPedidos)
    ensures ExisteLinea(r.lineas, pedido, prod.id)
    ensures r.(lineas := t.lineas, siguienteId := t.siguienteId) == t
  {
    if ExisteLinea(t.lineas, pedido, prod.id) then t
    else
      var l := PedidosModels.NuevaLinea(t.siguienteId, pedido, prod.id, CANTIDAD_PEDIDA, prod.precioUnitario.GetOr(0));
      assert (t.lineas + [l])[|t.lineas|] == l;
      t.(lineas := t.lineas + [l], siguienteId := t.siguienteId + 1)
  }

  function AsegurarLineas(t: PedidosModels.TablasPedidos, pedido: Id, productos: seq<Producto>): (r: PedidosModels.TablasPedidos)
    ensures r.(lineas := t.lineas, siguienteId := t.siguienteId) == t
  {
    if productos == [] then t else AsegurarLinea(AsegurarLineas(t, pedido, productos[..|productos| - 1]), pedido, productos[|productos| - 1])
  }

  /** `detalle.cantidad_pedida / 2`, in whole hundredths. */
  function Mitad(q: Centesimos): (r: Centesimos)
    ensures q >= 0 ==> 0 <= r <= q
    ensures q >= 1 ==> r < q
    ensures q % 2 == 0 ==> 2 * r == q
  {
    q / 2
  }

  /** A line of the order takes recibida = pedida / 2, replacing what it had; other lines are untouched. */
  function Recibida(l: PedidosModels.DetallePedido, pedido: Id): PedidosModels.DetallePedido {
    if l.pedido == pedido then l.(cantidadRecibida := Mitad(l.cantidadPedida)) else l
  }

  function RecibirLineas(lineas: seq<PedidosModels.DetallePedido>, pedido: Id): (r: seq<PedidosModels.DetallePedido>)
    ensures |r| == |lineas|
  {
    seq(|lineas|, i requires 0 <= i < |lineas| => Recibida(lineas[i], pedido))
  }

  /** One DetalleRecepcion per line of the order, for half its ordered quantity. */
  function DetallesRecepcionDe(lineas: seq<PedidosModels.DetallePedido>, pedido: Id, recepcion: Id)
    : seq<PedidosModels.DetalleRecepcion>
  {
    if lineas == [] then []
    else
      var l := lineas[|lineas| - 1];
      var nuevo := if l.pedido == pedido then [PedidosModels.DetalleRecepcion(recepcion, l.id, Mitad(l.cantidadPedida))] else [];
      DetallesRecepcionDe(lineas[..|lineas| - 1], pedido, recepcion) + nuevo
  }

  /** The simulated reception: a new RecepcionPedido, its details, and the lines' received quantity. */
  function RecibirMitad(t: PedidosModels.TablasPedidos, pedido: Id, admin: Id): PedidosModels.TablasPedidos {
    var rec := PedidosModels.RecepcionPedido(t.siguienteId, pedido, admin, Some("Recepción de prueba"));
    t.(recepciones := t.recepciones + [rec],
       detallesRecepcion := t.detallesRecepcion + DetallesRecepcionDe(t.lineas, pedido, rec.id),
       lineas := RecibirLineas(t.lineas, pedido),
       siguienteId := t.siguienteId + 1)
  }

  /** _create_pedidos_y_recepciones: skipped without an admin user or a supplier. */
  function SembrarPedidos(t: PedidosModels.TablasPedidos, productos: seq<Producto>, admin: Option<Id>, prov: Option<Id>,
                          ahora: PedidosModels.Fecha): PedidosModels.TablasPedidos
  {
    if admin.None? || prov.None? then t
    else
      var (t1, p) := PedidoSemilla(t, admin.value, prov.value, ahora);
      RecibirMitad(AsegurarLineas(t1, p.id, Primeros(productos, 4)), p.id, admin.value)
  }

  /**
   * The reception sets, not adds: every line of the order ends with half
   * its ordered quantity whatever it held, so with at least 0.01 ordered it
   * stays pending; other lines and every order row (its estado included)
   * are unchanged, and exactly one reception is added.
   */
  lemma RecibirMitadEfecto(t: PedidosModels.TablasPedidos, pedido: Id, admin: Id, i: nat)
    requires i < |t.lineas|
    ensures var r := RecibirMitad(t, pedido, admin);
            && r.pedidos == t.pedidos
            && |r.recepciones| == |t.recepciones| + 1
            && r.lineas[i].(cantidadRecibida := t.lineas[i].cantidadRecibida) == t.lineas[i]
            && (t.lineas[i].pedido == pedido ==> r.lineas[i].cantidadRecibida == Mitad(t.lineas[i].cantidadPedida))
            && (t.lineas[i].pedido != pedido ==> r.lineas[i] == t.lineas[i])
            && (t.lineas[i].pedido == pedido && t.lineas[i].cantidadPedida >= 1 ==>
                  !PedidosModels.EstaCompleto(r.lineas[i]) && PedidosModels.Pendiente(r.lineas[i]) > 0)
  {
  }

  /** Receiving again leaves the lines as they are. */
  lemma RecibirLineasIdempotente(lineas: seq<PedidosModels.DetallePedido>, pedido: Id)
    ensures RecibirLineas(RecibirLineas(lineas, pedido), pedido) == RecibirLineas(lineas, pedido)
  {
  }

  /** Lines keep their order and product through AsegurarLineas and RecibirLineas. */
  lemma {:induction false} AsegurarLineasExisten(t: PedidosModels.TablasPedidos, pedido: Id, productos: seq<Producto>)
    ensures forall k :: 0 <= k < |productos| ==> ExisteLinea(AsegurarLineas(t, pedido, productos).lineas, pedido, productos[k].id)
    ensures t.lineas <= AsegurarLineas(t, pedido, productos).lineas
  {
    if productos != [] {
      var previos := productos[..|productos| - 1];
      AsegurarLineasExisten(t, pedido, previos);
      var u := AsegurarLineas(t, pedido, previos);
      forall k | 0 <= k < |productos|
        ensures ExisteLinea(AsegurarLineas(t, pedido, productos).lineas, pedido, productos[k].id)
      {
        if k < |previos| {
          assert previos[k] == productos[k];
          var i :| 0 <= i < |u.lineas| && u.lineas[i].pedido == pedido && u.lineas[i].producto == productos[k].id;
          assert AsegurarLineas(t, pedido, productos).lineas[i] == u.lineas[i];
        }
      }
    }
  }

  /** When every line is already there, AsegurarLineas adds nothing. */
  lemma {:induction false} AsegurarLineasSinCambios(t: PedidosModels.TablasPedidos, pedido: Id, productos: seq<Producto>)
    requires forall k :: 0 <= k < |productos| ==> ExisteLinea(t.lineas, pedido, productos[k].id)
    ensures AsegurarLineas(t, pedido, productos) == t
  {
    if productos != [] {
      AsegurarLineasSinCambios(t, pedido, productos[..|productos| - 1]);
    }
  }

  lemma ExisteLineaRecibida(lineas: seq<PedidosModels.DetallePedido>, pedido: Id, otro: Id, producto: Id)
    requires ExisteLinea(lineas, otro, producto)
    ensures ExisteLinea(RecibirLineas(lineas, pedido), otro, producto)
  {
    var i :| 0 <= i < |lineas| && lineas[i].pedido == otro && lineas[i].producto == producto;
    assert RecibirLineas(lineas, pedido)[i].pedido == otro;
  }

  /** With unique numbers, an order is determined by its number. */
  lemma MismoNumeroMismoPedido(pedidos: seq<PedidosModels.Pedido>, a: PedidosModels.Pedido, b: PedidosModels.Pedido)
    requires PedidosModels.NumerosPedidoUnicos(pedidos)
    requires a in pedidos && b in pedidos && a.numero == b.numero
    ensures a == b
  {
    var i :| 0 <= i < |pedidos| && pedidos[i] == a;
    var j :| 0 <= j < |pedidos| && pedidos[j] == b;
  }

  /** Creating the order when its number is absent keeps numbers unique. */
  lemma PedidoSemillaUnico(t: PedidosModels.TablasPedidos, admin: Id, prov: Id, ahora: PedidosModels.Fecha)
    requires PedidosModels.NumerosPedidoUnicos(t.pedidos)
    ensures PedidosModels.NumerosPedidoUnicos(PedidoSemilla(t, admin, prov, ahora).0.pedidos)
  {
  }

  /**
   * Each run creates a new reception: a second run leaves the orders and
   * the lines exactly as the first left them, and adds one more reception.
   */
  lemma SembrarPedidosDosVeces(t: PedidosModels.TablasPedidos, productos: seq<Producto>, admin: Option<Id>, prov: Option<Id>,
                               ahora: PedidosModels.Fecha)
    requires admin.Some? && prov.Some?
    requires PedidosModels.NumerosPedidoUnicos(t.pedidos)
    ensures var una := SembrarPedidos(t, productos, admin, prov, ahora);
            var dos := SembrarPedidos(una, productos, admin, prov, ahora);
            && dos.pedidos == una.pedidos
            && dos.lineas == una.lineas
            && |dos.recepciones| == |una.recepciones| + 1
  {
    var (t1, p) := PedidoSemilla(t, admin.value, prov.value, ahora);
    var primeros := Primeros(productos, 4);
    var t2 := AsegurarLineas(t1, p.id, primeros);
    var una := SembrarPedidos(t, productos, admin, prov, ahora);
    assert una == RecibirMitad(t2, p.id, admin.value);
    PedidoSemillaUnico(t, admin.value, prov.value, ahora);
    assert PedidosModels.ExisteNumero(una.pedidos, NUMERO_PEDIDO_SEMILLA) by {
      var i :| 0 <= i < |t2.pedidos| && t2.pedidos[i] == p;
    }
    var (u1, q) := PedidoSemilla(una, admin.value, prov.value, ahora);
    assert u1 == una;
    MismoNumeroMismoPedido(una.pedidos, q, p);
    AsegurarLineasExisten(t1, p.id, primeros);
    forall k | 0 <= k < |primeros| ensures ExisteLinea(una.lineas, p.id, primeros[k].id) {
      ExisteLineaRecibida(t2.lineas, p.id, p.id, primeros[k].id);
    }
    AsegurarLineasSinCambios(una, p.id, primeros);
    RecibirLineasIdempotente(t2.lineas, p.id);
  }

  ghost predicate PreciosNoNegativos(productos: seq<Producto>) {
    forall i :: 0 <= i < |productos| ==> productos[i].precioUnitario.Some? ==> productos[i].precioUnitario.value >= 0
  }

  lemma AsegurarLineaValida(t: PedidosModels.TablasPedidos, pedido: Id, prod: Producto)
    requires PedidosModels.TablasPedidosValidas(t)
    requires prod.precioUnitario.Some? ==> prod.precioUnitario.value >= 0
    ensures PedidosModels.TablasPedidosValidas(AsegurarLinea(t, pedido, prod))
  {
  }

  lemma {:induction false} AsegurarLineasValida(t: PedidosModels.TablasPedidos, pedido: Id, productos: seq<Producto>)
    requires PedidosModels.TablasPedidosValidas(t) && PreciosNoNegativos(productos)
    ensures PedidosModels.TablasPedidosValidas(AsegurarLineas(t, pedido, productos))
  {
    if productos != [] {
      var previos := productos[..|productos| - 1];
      assert PreciosNoNegativos(previos);
      AsegurarLineasValida(t, pedido, previos);
      AsegurarLineaValida(AsegurarLineas(t, pedido, previos), pedido, productos[|productos| - 1]);
    }
  }

  lemma RecibirMitadValida(t: PedidosModels.TablasPedidos, pedido: Id, admin: Id)
    requires PedidosModels.TablasPedidosValidas(t)
    ensures PedidosModels.TablasPedidosValidas(RecibirMitad(t, pedido, admin))
  {
    var r := RecibirMitad(t, pedido, admin);
    assert forall i :: 0 <= i < |r.lineas| ==> r.lineas[i].pedido == t.lineas[i].pedido && r.lineas[i].producto == t.lineas[i].producto;
  }

  lemma SembrarPedidosValido(t: PedidosModels.TablasPedidos, productos: seq<Producto>, admin: Option<Id>, prov: Option<Id>,
                             ahora: PedidosModels.Fecha)
    requires PedidosModels.TablasPedidosValidas(t) && PreciosNoNegativos(productos)
    ensures PedidosModels.TablasPedidosValidas(SembrarPedidos(t, productos, admin, prov, ahora))
  {
    if admin.Some? && prov.Some? {
      var (t1, p) := PedidoSemilla(t, admin.value, prov.value, ahora);
      PedidoSemillaUnico(t, admin.value, prov.value, ahora);
      assert PedidosModels.TablasPedidosValidas(t1);
      var primeros := Primeros(productos, 4);
      assert PreciosNoNegativos(primeros);
      AsegurarLineasValida(t1, p.id, primeros);
      RecibirMitadValida(AsegurarLineas(t1, p.id, primeros), p.id, admin.value);
    }
  }

  /** The reception loop over `pedido.detalles.all()`, in table order. */
  method RecibirMitadEnSitio(pdb: PedidosModels.Pedidos, pedido: Id, admin: Id)
    modifies pdb
    ensures pdb.Estado() == RecibirMitad(old(pdb.Estado()), pedido, admin)
  {
    var rec := PedidosModels.RecepcionPedido(pdb.siguienteId, pedido, admin, Some("Recepción de prueba"));
    pdb.recepciones := pdb.recepciones + [rec];
    pdb.siguienteId := pdb.siguienteId + 1;
    ghost var lineas0 := pdb.lineas;
    ghost var detalles0 := pdb.detallesRecepcion;
    var i := 0;
    while i < |pdb.lineas|
      invariant 0 <= i <= |pdb.lineas| == |lineas0|
      invariant pdb.detallesRecepcion == detalles0 + DetallesRecepcionDe(lineas0[..i], pedido, rec.id)
      invariant forall k :: 0 <= k < i ==> pdb.lineas[k] == Recibida(lineas0[k], pedido)
      invariant forall k :: i <= k < |lineas0| ==> pdb.lineas[k] == lineas0[k]
      invariant pdb.pedidos == old(pdb.pedidos) && pdb.recepciones == old(pdb.recepciones) + [rec]
      invariant pdb.siguienteId == old(pdb.siguienteId) + 1 && lineas0 == old(pdb.lineas)
      invariant detalles0 == old(pdb.detallesRecepcion)
    {
      var l := pdb.lineas[i];
      assert lineas0[..i + 1][..i] == lineas0[..i];
      if l.pedido == pedido {
        var cantidad := l.cantidadPedida / 2;
        pdb.detallesRecepcion := pdb.detallesRecepcion + [PedidosModels.DetalleRecepcion(rec.id, l.id, cantidad)];
        pdb.lineas := pdb.lineas[i := l.(cantidadRecibida := cantidad)];
      }
      i := i + 1;
    }
    assert lineas0[..i] == lineas0;
    assert pdb.lineas == RecibirLineas(lineas0, pedido);
  }

  /** _create_pedidos_y_recepciones, reading the products of the inventario tables. */
  method CrearPedidosYRecepciones(pdb: PedidosModels.Pedidos, productos: seq<Producto>, admin: Option<Id>, prov: Option<Id>,
                                  ahora: PedidosModels.Fecha)
    requires pdb.Valid() && PreciosNoNegativos(productos)
    modifies pdb
    ensures pdb.Valid()
    ensures pdb.Estado() == SembrarPedidos(old(pdb.Estado()), productos, admin, prov, ahora)
  {
    if admin.None? || prov.None? {
      return;
    }
    ghost var t0 := pdb.Estado();
    var pedido := ObtenerPedidoSemilla(pdb, admin.value, prov.value, ahora);
    ghost var t1 := pdb.Estado();
    var primeros := Primeros(productos, 4);
    var i := 0;
    while i < |primeros|
      invariant 0 <= i <= |primeros|
      invariant pdb.Estado() == AsegurarLineas(t1, pedido.id, primeros[..i])
    {
      assert primeros[..i + 1][..i] == primeros[..i];
      AsegurarLineaEnSitio(pdb, pedido.id, primeros[i]);
      i := i + 1;
    }
    assert primeros[..i] == primeros;
    RecibirMitadEnSitio(pdb, pedido.id, admin.value);
    SembrarPedidosValido(t0, productos, admin, prov, ahora);
  }

  /** The seed order's get_or_create by its number, on the tables in place. */
  method ObtenerPedidoSemilla(pdb: PedidosModels.Pedidos, admin: Id, prov: Id, ahora: PedidosModels.Fecha)
    returns (pedido: PedidosModels.Pedido)
    requires pdb.Valid()
    modifies pdb
    ensures pdb.Valid()
    ensures (pdb.Estado(), pedido) == PedidoSemilla(old(pdb.Estado()), admin, prov, ahora)
  {
    var encontrado := BuscarPedido(pdb.pedidos, NUMERO_PEDIDO_SEMILLA);
    if encontrado.Some? {
      pedido := encontrado.value;
    } else {
      var creado := pdb.GuardarNuevo(
        PedidosModels.Pedido(0, NUMERO_PEDIDO_SEMILLA, prov, None, PedidosModels.Enviado, admin), ahora);
      pedido := creado.value;
    }
  }

  /** One product's DetallePedido get_or_create, on the tables in place. */
  method AsegurarLineaEnSitio(pdb: PedidosModels.Pedidos, pedido: Id, prod: Producto)
    modifies pdb
    ensures pdb.Estado() == AsegurarLinea(old(pdb.Estado()), pedido, prod)
  {
    if !ExisteLinea(pdb.lineas, pedido, prod.id) {
      pdb.lineas := pdb.lineas + [PedidosModels.NuevaLinea(pdb.siguienteId, pedido, prod.id, CANTIDAD_PEDIDA, prod.precioUnitario.GetOr(0))];
      pdb.siguienteId := pdb.siguienteId + 1;
    }
  }

  // ---------------------------------------------------------------------------
  // The command

  /**
   * Command.handle for the three modelled steps inside its transaction: an
   * error in the entry step also undoes the product step.
   */
  method Sembrar(db: Inventario, pdb: PedidosModels.Pedidos, admin: Option<Id>, provInventario: Option<Id>,
                 provPedidos: Option<Id>, hoy: int, ahora: PedidosModels.Fecha) returns (r: Result<(), Fallo>)
    requires db.Valid() && pdb.Valid()
    modifies db, pdb
    ensures db.Valid() && pdb.Valid()
    ensures match SembrarEntradas(SembrarProductos(old(db.Estado()), SEMILLAS), admin, provInventario, hoy)
            case Ok(t) =>
              && r == Ok(()) && db.Estado() == t
              && pdb.Estado() == SembrarPedidos(old(pdb.Estado()), t.productos, admin, provPedidos, ahora)
            case Err(e) => r == Err(e) && db.Estado() == old(db.Estado()) && pdb.Estado() == old(pdb.Estado())
  {
    var t0 := db.Estado();
    SemillasDefinidasValidas();
    CrearProductosYStocks(db, SEMILLAS);
    r := CrearEntradasMovimientos(db, admin, provInventario, hoy);
    if r.Err? {
      db.Restaurar(t0);
      return;
    }
    CrearPedidosYRecepciones(pdb, db.productos, admin, provPedidos, ahora);
  }
}
