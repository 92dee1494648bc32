/**
 * The demo-data migration of inventario/migrations/0005_seed_demo_data.py.
 * Going forward it makes sure seven demo products exist and, for each, books
 * a purchase entry of 50 units into the central store (stock set to 50, an
 * ENTRADA movement) followed by a scenario-dependent consumption (stock
 * decremented and clamped at zero, a SALIDA movement). Going backward it
 * deletes what the forward step created.
 *
 * The migration runs inside one transaction: an error anywhere leaves every
 * table as it was.
 */
module MigracionDemo {
  import opened Wrappers
  import opened Texto
  import opened InventarioModels
  import PedidosModels

  /** One row of the demo product definitions. */
  datatype DefDemo = DefDemo(
    codigo: string,
    nombre: string,
    categoria: string,
    unidad: string,
    stockMinimo: Centesimos,
    precio: Centesimos,
    escenario: string)

  const PRODUCTOS_DEMO: seq<DefDemo> := [
    DefDemo("AME-001", "Amenity Shampoo 30ml", "Amenities", "ML", 1000, 30000, "alto"),
    DefDemo("AME-002", "Jabon de manos 20g", "Amenities", "GR", 1500, 15000, "bajo"),
    DefDemo("BEB-001", "Agua mineral 500ml", "Bebidas", "ML", 2400, 80000, "agotado"),
    DefDemo("BEB-002", "Cerveza 330ml", "Bebidas", "ML", 2400, 150000, "alto"),
    DefDemo("ALI-001", "Pan de molde 1kg", "Alimentos", "KG", 200, 200000, "bajo"),
    DefDemo("LIM-001", "Detergente liquido 5L", "Limpieza", "LT", 100, 500000, "alto"),
    DefDemo("OFI-001", "Resma hoja carta", "Papeleria", "PAQ", 300, 400000, "alto")
  ]

  /** The codes the reverse step deletes. */
  const CODIGOS_DEMO: seq<string> := ["AME-001", "AME-002", "BEB-001", "BEB-002", "ALI-001", "LIM-001", "OFI-001"]

  /** The reverse step targets exactly the products the forward step defines. */
  lemma CodigosDemoSonLosDefinidos()
    ensures |CODIGOS_DEMO| == |PRODUCTOS_DEMO|
    ensures forall i :: 0 <= i < |CODIGOS_DEMO| ==> CODIGOS_DEMO[i] == PRODUCTOS_DEMO[i].codigo
    ensures forall i, j :: 0 <= i < j < |PRODUCTOS_DEMO| ==> PRODUCTOS_DEMO[i].codigo != PRODUCTOS_DEMO[j].codigo
  {
  }

  /** The definitions satisfy the product constraints. */
  lemma DefinicionesDemoValidas()
    ensures forall i :: 0 <= i < |PRODUCTOS_DEMO| ==> PRODUCTOS_DEMO[i].stockMinimo >= 0 && PRODUCTOS_DEMO[i].precio >= 0
  {
  }

  /** The quantity every demo entry books: 50 units. */
  const CANTIDAD_INICIAL: Centesimos := 5000

  /** What the forward step reads from the tables it does not itself fill: the supplier, the central store, today. */
  datatype ContextoDemo = ContextoDemo(proveedor: Id, bodega: Id, hoy: int)

  /** The entry number of the idx-th product: FAC-DEMO-{idx:03d}. */
  function NumeroDemo(idx: nat): (r: string)
    ensures StartsWith(r, "FAC-DEMO-")
  {
    "FAC-DEMO-" + ZeroPad(NatToString(idx), 3)
  }

  /** Different positions get different entry numbers. */
  lemma NumeroDemoInyectivo(i: nat, j: nat)
    requires NumeroDemo(i) == NumeroDemo(j)
    ensures i == j
  {
    var pre := "FAC-DEMO-";
    var si, sj := ZeroPad(NatToString(i), 3), ZeroPad(NatToString(j), 3);
    assert si == (pre + si)[|pre|..] && sj == (pre + sj)[|pre|..];
    ZeroPadValue(NatToString(i), 3);
    ZeroPadValue(NatToString(j), 3);
    NatToStringRoundTrip(i);
    NatToStringRoundTrip(j);
  }

  /** The consumption of a scenario: alto 10, bajo 45, agotado 50, anything else 20. Only agotado empties the store. */
  function ConsumoDemo(escenario: string): (c: Centesimos)
    ensures 0 < c <= CANTIDAD_INICIAL
    ensures c == CANTIDAD_INICIAL <==> escenario == "agotado"
  {
    if escenario == "alto" then 1000
    else if escenario == "bajo" then 4500
    else if escenario == "agotado" then 5000
    else 2000
  }

  /** Decrement, then clamp at zero. */
  function RestarConTope(x: Centesimos, c: Centesimos): (r: Centesimos)
    ensures r >= 0 && r >= x - c
    ensures r == x - c <==> x >= c
  {
    if x - c < 0 then 0 else x - c
  }

  /** With the scenario consumptions the clamp never acts: the store keeps 50 minus the consumption. */
  lemma ClampNoActua(escenario: string)
    ensures RestarConTope(CANTIDAD_INICIAL, ConsumoDemo(escenario)) == CANTIDAD_INICIAL - ConsumoDemo(escenario)
  {
  }

  // ---------------------------------------------------------------------------
  // Forward step, as functions of the tables



  /** get_or_create by codigo: an existing product is used as it is, a missing one is created from the definition. */
  function AsegurarProducto(t: Tablas, d: DefDemo): (r: (Tablas, Producto))
    ensures r.1.codigo == d.codigo && r.1 in r.0.productos
    ensures r.0.(productos := t.productos, siguienteId := t.siguienteId) == t
    ensures t.productos <= r.0.productos && t.siguienteId <= r.0.siguienteId
  {
    match BuscarCodigo(t.productos, d.codigo)
    case Some(p) => (t, p)
    case None =>
      var p := Producto(t.siguienteId, d.codigo, d.nombre, d.categoria, d.unidad, d.stockMinimo, Some(d.precio), true);
      (t.(productos := t.productos + [p], siguienteId := t.siguienteId + 1), p)
  }

  /** The first loop: every definition in turn, collecting each product with its scenario. */
  function AsegurarTodos(t: Tablas, defs: seq<DefDemo>): (r: (Tablas, seq<(Producto, string)>))
    ensures |r.1| == |defs|
    ensures r.0.(productos := t.productos, siguienteId := t.siguienteId) == t
  {
    if defs == [] then (t, [])
    else
      var (t1, elegidos) := AsegurarTodos(t, defs[..|defs| - 1]);
      var (t2, p) := AsegurarProducto(t1, defs[|defs| - 1]);
      (t2, elegidos + [(p, defs[|defs| - 1].escenario)])
  }

  /** The first loop over one more definition is the loop so far followed by that definition's get_or_create. */
  lemma AsegurarTodosPaso(t: Tablas, defs: seq<DefDemo>, j: nat, antes: Tablas, elegidos: seq<(Producto, string)>)
    requires j < |defs|
    requires AsegurarTodos(t, defs[..j]) == (antes, elegidos)
    ensures var (t2, p) := AsegurarProducto(antes, defs[j]);
            AsegurarTodos(t, defs[..j + 1]) == (t2, elegidos + [(p, defs[j].escenario)])
  {
    assert defs[..j + 1][..j] == defs[..j];
  }

  /** The ENTRADA movement of 50 into the store, linked to the entry. */
  function MovimientoEntrada(p: Id, precio: Centesimos, usuario: Id, numero: string, ctx: ContextoDemo): Movimiento {
    Movimiento(p, None, Some(ctx.bodega), Entrada, Compra, CANTIDAD_INICIAL, Some(precio), usuario, Some(numero), None)
  }

  /** The SALIDA movement out of the store, recording the whole consumption. */
  function MovimientoSalida(p: Id, precio: Centesimos, usuario: Id, consumo: Centesimos, ctx: ContextoDemo): Movimiento {
    Movimiento(p, Some(ctx.bodega), None, Salida, Consumo, consumo, Some(precio), usuario, None, None)
  }

  /**
   * One iteration of the second loop, for the idx-th product. A product
   * without a price fails when the total is computed; an existing entry
   * number fails the unique constraint.
   */
  function PasoDemo(t: Tablas, idx: nat, prod: Producto, escenario: string, usuario: Id, ctx: ContextoDemo): (r: Result<Tablas, Fallo>)
    ensures r == Err(ErrorDeTipo) <==> prod.precioUnitario.None?
    ensures r == Err(ClaveDuplicada) <==> prod.precioUnitario.Some? && ExisteEntrada(t.entradas, NumeroDemo(idx))
    ensures r.Ok? ==> r.value.productos == t.productos && r.value.areas == t.areas && r.value.alertas == t.alertas
  {
    if prod.precioUnitario.None? then Err(ErrorDeTipo)
    else
      var numero := NumeroDemo(idx);
      if ExisteEntrada(t.entradas, numero) then Err(ClaveDuplicada)
      else
        var precio := prod.precioUnitario.value;
        Ok(ConStockDemo(ConEntradaDemo(t, numero, prod.id, precio, usuario, ctx), idx, prod.id, precio, escenario, usuario, ctx))
  }

  /** Lines 99-117 of the step: the entry numbered `numero` (FAC-DEMO-idx), totalling precio × 50, and its detail of 50 into the store. */
  function ConEntradaDemo(t: Tablas, numero: string, p: Id, precio: Centesimos, usuario: Id, ctx: ContextoDemo): Tablas {
    t.(entradas := t.entradas + [EntradaStock(numero, Some(ctx.proveedor), ctx.hoy - 7, Some(precio * CANTIDAD_INICIAL), usuario)],
       detallesEntrada := t.detallesEntrada + [DetalleEntradaStock(t.siguienteId, numero, p, ctx.bodega, CANTIDAD_INICIAL, Some(precio))],
       siguienteId := t.siguienteId + 1)
  }

  /**
   * Lines 119-166 of the step: the store row set to 50 with its ENTRADA,
   * then decremented with the clamp with its SALIDA.
   */
  function ConStockDemo(t: Tablas, idx: nat, p: Id, precio: Centesimos, escenario: string, usuario: Id, ctx: ContextoDemo): Tablas {
    var consumo := ConsumoDemo(escenario);
    var lleno := Fijar(t.stocks, p, ctx.bodega, CANTIDAD_INICIAL);
    t.(stocks := Fijar(lleno, p, ctx.bodega, RestarConTope(CANTIDAD_INICIAL, consumo)),
       movimientos := t.movimientos + [MovimientoEntrada(p, precio, usuario, NumeroDemo(idx), ctx),
                                       MovimientoSalida(p, precio, usuario, consumo, ctx)])
  }

  /** The second loop over the collected products, numbered from 1; the first error aborts. */
  function Demo(t: Tablas, elegidos: seq<(Producto, string)>, usuario: Id, ctx: ContextoDemo): Result<Tablas, Fallo> {
    if elegidos == [] then Ok(t)
    else
      match Demo(t, elegidos[..|elegidos| - 1], usuario, ctx)
      case Err(e) => Err(e)
      case Ok(t1) =>
        var (p, escenario) := elegidos[|elegidos| - 1];
        PasoDemo(t1, |elegidos|, p, escenario, usuario, ctx)
  }

  /** The second loop over one more product is the loop so far followed by that product's iteration. */
  lemma DemoPaso(t: Tablas, elegidos: seq<(Producto, string)>, i: nat, antes: Tablas, usuario: Id, ctx: ContextoDemo)
    requires i < |elegidos|
    requires Demo(t, elegidos[..i], usuario, ctx) == Ok(antes)
    ensures Demo(t, elegidos[..i + 1], usuario, ctx) == PasoDemo(antes, i + 1, elegidos[i].0, elegidos[i].1, usuario, ctx)
  {
    assert elegidos[..i + 1][..i] == elegidos[..i];
  }

  /** The first failing product aborts the whole loop with its error. */
  lemma {:induction false} DemoAborta(t: Tablas, elegidos: seq<(Producto, string)>, k: nat, usuario: Id, ctx: ContextoDemo)
    requires k <= |elegidos|
    requires Demo(t, elegidos[..k], usuario, ctx).Err?
    ensures Demo(t, elegidos, usuario, ctx) == Demo(t, elegidos[..k], usuario, ctx)
  {
    if k < |elegidos| {
      var previos := elegidos[..|elegidos| - 1];
      assert previos[..k] == elegidos[..k];
      DemoAborta(t, previos, k, usuario, ctx);
    } else {
      assert elegidos[..k] == elegidos;
    }
  }

  /** crear_datos_demo with a superuser present. */
  function CrearDemo(t: Tablas, usuario: Id, ctx: ContextoDemo): Result<Tablas, Fallo> {
    var (t1, elegidos) := AsegurarTodos(t, PRODUCTOS_DEMO);
    Demo(t1, elegidos, usuario, ctx)
  }

  // ---------------------------------------------------------------------------
  // What one step does

  /** The entry of the idx-th product is numbered FAC-DEMO-idx, books 50 and totals precio × 50, its detail's value. */
  lemma PasoDemoEntrada(t: Tablas, idx: nat, prod: Producto, escenario: string, usuario: Id, ctx: ContextoDemo)
    requires PasoDemo(t, idx, prod, escenario, usuario, ctx).Ok?
    requires prod.precioUnitario.value > 0
    ensures var t' := PasoDemo(t, idx, prod, escenario, usuario, ctx).value;
            var e := t'.entradas[|t'.entradas| - 1];
            var d := t'.detallesEntrada[|t'.detallesEntrada| - 1];
            && t'.entradas[..|t'.entradas| - 1] == t.entradas
            && e.numero == NumeroDemo(idx) && d.entrada == e.numero
            && d.cantidad == CANTIDAD_INICIAL && d.producto == prod.id && d.areaDestino == ctx.bodega
            && e.totalCompra == Subtotal(d)
  {
    var precio := prod.precioUnitario.value;
    var t1 := ConEntradaDemo(t, NumeroDemo(idx), prod.id, precio, usuario, ctx);
    ConEntradaDemoUltima(t, NumeroDemo(idx), prod.id, precio, usuario, ctx);
    assert PasoDemo(t, idx, prod, escenario, usuario, ctx).value == ConStockDemo(t1, idx, prod.id, precio, escenario, usuario, ctx);
  }

  /** The entry phase appends one entry and one detail line for it, whose value is the entry's total. */
  lemma ConEntradaDemoUltima(t: Tablas, numero: string, p: Id, precio: Centesimos, usuario: Id, ctx: ContextoDemo)
    requires precio > 0
    ensures var t1 := ConEntradaDemo(t, numero, p, precio, usuario, ctx);
            var e := t1.entradas[|t1.entradas| - 1];
            var d := t1.detallesEntrada[|t1.detallesEntrada| - 1];
            && t1.entradas[..|t1.entradas| - 1] == t.entradas
            && e.numero == numero && d.entrada == e.numero
            && d.cantidad == CANTIDAD_INICIAL && d.producto == p && d.areaDestino == ctx.bodega
            && e.totalCompra == Subtotal(d)
  {
    var t1 := ConEntradaDemo(t, numero, p, precio, usuario, ctx);
    assert t1.entradas[..|t1.entradas| - 1] == t.entradas;
  }

  /** After a step the store holds 50 minus the consumption of that product; every other row reads as before. */
  lemma PasoDemoStock(t: Tablas, idx: nat, prod: Producto, escenario: string, usuario: Id, ctx: ContextoDemo, p: Id, a: Id)
    requires PasoDemo(t, idx, prod, escenario, usuario, ctx).Ok?
    ensures var t' := PasoDemo(t, idx, prod, escenario, usuario, ctx).value;
            CantidadEn(t'.stocks, p, a) ==
              if p == prod.id && a == ctx.bodega then CANTIDAD_INICIAL - ConsumoDemo(escenario)
              else CantidadEn(t.stocks, p, a)
  {
    var consumo := ConsumoDemo(escenario);
    var lleno := Fijar(t.stocks, prod.id, ctx.bodega, CANTIDAD_INICIAL);
    BuscarFijar(t.stocks, prod.id, ctx.bodega, CANTIDAD_INICIAL, p, a);
    BuscarFijar(lleno, prod.id, ctx.bodega, RestarConTope(CANTIDAD_INICIAL, consumo), p, a);
  }

  /** The two movements add 50 and take away the consumption at the store, and nothing elsewhere. */
  lemma PasoDemoNeto(t: Tablas, idx: nat, prod: Producto, escenario: string, usuario: Id, ctx: ContextoDemo, p: Id, a: Id)
    requires PasoDemo(t, idx, prod, escenario, usuario, ctx).Ok?
    ensures var t' := PasoDemo(t, idx, prod, escenario, usuario, ctx).value;
            Neto(t'.movimientos, p, a) ==
              Neto(t.movimientos, p, a) + (if p == prod.id && a == ctx.bodega then CANTIDAD_INICIAL - ConsumoDemo(escenario) else 0)
  {
    var precio := prod.precioUnitario.value;
    var me := MovimientoEntrada(prod.id, precio, usuario, NumeroDemo(idx), ctx);
    var ms := MovimientoSalida(prod.id, precio, usuario, ConsumoDemo(escenario), ctx);
    assert PasoDemo(t, idx, prod, escenario, usuario, ctx).value.movimientos == t.movimientos + [me, ms];
    NetoDos(t.movimientos, me, ms, p, a);
  }

  lemma NetoDos(movs: seq<Movimiento>, m1: Movimiento, m2: Movimiento, p: Id, a: Id)
    ensures Neto(movs + [m1, m2], p, a) == Neto(movs, p, a) + Efecto(m1, p, a) + Efecto(m2, p, a)
  {
    NetoAgregar(movs, m1, p, a);
    NetoAgregar(movs + [m1], m2, p, a);
    assert movs + [m1, m2] == movs + [m1] + [m2];
  }

  /**
   * The stock table and the movement log stay in agreement through a step
   * exactly when the store held none of the product before: the step
   * overwrites the row with 50 while the log only adds 50.
   */
  lemma PasoDemoCuadra(t: Tablas, idx: nat, prod: Producto, escenario: string, usuario: Id, ctx: ContextoDemo)
    requires PasoDemo(t, idx, prod, escenario, usuario, ctx).Ok?
    requires LibroCuadra(t.stocks, t.movimientos)
    ensures var t' := PasoDemo(t, idx, prod, escenario, usuario, ctx).value;
            LibroCuadra(t'.stocks, t'.movimientos) <==> CantidadEn(t.stocks, prod.id, ctx.bodega) == 0
  {
    var t' := PasoDemo(t, idx, prod, escenario, usuario, ctx).value;
    if CantidadEn(t.stocks, prod.id, ctx.bodega) == 0 {
      forall p, a ensures CantidadEn(t'.stocks, p, a) == Neto(t'.movimientos, p, a) {
        PasoDemoStock(t, idx, prod, escenario, usuario, ctx, p, a);
        PasoDemoNeto(t, idx, prod, escenario, usuario, ctx, p, a);
      }
    } else {
      PasoDemoStock(t, idx, prod, escenario, usuario, ctx, prod.id, ctx.bodega);
      PasoDemoNeto(t, idx, prod, escenario, usuario, ctx, prod.id, ctx.bodega);
    }
  }

  /** A step keeps every table constraint. */
  lemma PasoDemoValido(t: Tablas, idx: nat, prod: Producto, escenario: string, usuario: Id, ctx: ContextoDemo)
    requires TablasValidas(t)
    requires PasoDemo(t, idx, prod, escenario, usuario, ctx).Ok?
    ensures TablasValidas(PasoDemo(t, idx, prod, escenario, usuario, ctx).value)
  {
    var precio := prod.precioUnitario.value;
    ConEntradaDemoValida(t, NumeroDemo(idx), prod.id, precio, usuario, ctx);
    ConStockDemoValida(ConEntradaDemo(t, NumeroDemo(idx), prod.id, precio, usuario, ctx), idx, prod.id, precio, escenario, usuario, ctx);
  }

  /** The entry phase keeps every table constraint when its number is new. */
  lemma ConEntradaDemoValida(t: Tablas, numero: string, p: Id, precio: Centesimos, usuario: Id, ctx: ContextoDemo)
    requires TablasValidas(t) && !ExisteEntrada(t.entradas, numero)
    ensures TablasValidas(ConEntradaDemo(t, numero, p, precio, usuario, ctx))
  {
    var e := EntradaStock(numero, Some(ctx.proveedor), ctx.hoy - 7, Some(precio * CANTIDAD_INICIAL), usuario);
    var d := DetalleEntradaStock(t.siguienteId, numero, p, ctx.bodega, CANTIDAD_INICIAL, Some(precio));
    ValidasConEntrada(t, e, d);
    assert ConEntradaDemo(t, numero, p, precio, usuario, ctx)
        == t.(entradas := t.entradas + [e], detallesEntrada := t.detallesEntrada + [d], siguienteId := t.siguienteId + 1);
  }

  /** Appending an entry with a new number and a detail with the next id keeps every table constraint. */
  lemma ValidasConEntrada(t: Tablas, e: EntradaStock, d: DetalleEntradaStock)
    requires TablasValidas(t) && !ExisteEntrada(t.entradas, e.numero)
    requires d.id == t.siguienteId && d.cantidad >= 1
    ensures TablasValidas(t.(entradas := t.entradas + [e], detallesEntrada := t.detallesEntrada + [d], siguienteId := t.siguienteId + 1))
  {
    NumerosUnicosAgregar(t.entradas, e);
    DetallesValidosAgregar(t.detallesEntrada, t.siguienteId, d);
  }

  lemma NumerosUnicosAgregar(entradas: seq<EntradaStock>, e: EntradaStock)
    requires NumerosUnicos(entradas) && !ExisteEntrada(entradas, e.numero)
    ensures NumerosUnicos(entradas + [e])
  {
    var r := entradas + [e];
    forall i, j | 0 <= i < j < |r| ensures r[i].numero != r[j].numero {
      assert r[i] == entradas[i];
      if j < |entradas| {
        assert r[j] == entradas[j];
      }
    }
  }

  lemma DetallesValidosAgregar(detalles: seq<DetalleEntradaStock>, cota: nat, d: DetalleEntradaStock)
    requires DetallesValidos(detalles, cota) && d.id == cota && d.cantidad >= 1
    ensures DetallesValidos(detalles + [d], cota + 1)
  {
    var r := detalles + [d];
    forall i | 0 <= i < |r| ensures r[i].cantidad >= 1 && r[i].id < cota + 1 {
      if i < |detalles| {
        assert r[i] == detalles[i];
      }
    }
  }

  /** The stock phase keeps every table constraint. */
  lemma ConStockDemoValida(t: Tablas, idx: nat, p: Id, precio: Centesimos, escenario: string, usuario: Id, ctx: ContextoDemo)
    requires TablasValidas(t)
    ensures TablasValidas(ConStockDemo(t, idx, p, precio, escenario, usuario, ctx))
  {
    var consumo := ConsumoDemo(escenario);
    var lleno := Fijar(t.stocks, p, ctx.bodega, CANTIDAD_INICIAL);
    FijarPreservaTabla(t.stocks, p, ctx.bodega, CANTIDAD_INICIAL);
    FijarPreservaTabla(lleno, p, ctx.bodega, RestarConTope(CANTIDAD_INICIAL, consumo));
    var nuevos := [MovimientoEntrada(p, precio, usuario, NumeroDemo(idx), ctx), MovimientoSalida(p, precio, usuario, consumo, ctx)];
    assert MovimientosValidos(nuevos);
    MovimientosConcat(t.movimientos, nuevos);
    ValidasConStockYMovimientos(t, Fijar(lleno, p, ctx.bodega, RestarConTope(CANTIDAD_INICIAL, consumo)), t.movimientos + nuevos);
  }

  /** Replacing the stock and movement tables by valid ones keeps every table constraint. */
  lemma ValidasConStockYMovimientos(t: Tablas, stocks: seq<Stock>, movimientos: seq<Movimiento>)
    requires TablasValidas(t) && TablaStockValida(stocks) && MovimientosValidos(movimientos)
    ensures TablasValidas(t.(stocks := stocks, movimientos := movimientos))
  {
  }

  lemma MovimientosConcat(a: seq<Movimiento>, b: seq<Movimiento>)
    requires MovimientosValidos(a) && MovimientosValidos(b)
    ensures MovimientosValidos(a + b)
  {
    forall i | 0 <= i < |a + b| ensures (a + b)[i].cantidad >= 1 {
      if i >= |a| {
        assert (a + b)[i] == b[i - |a|];
      }
    }
  }

  /** get_or_create of a product keeps every table constraint. */
  lemma AsegurarProductoValido(t: Tablas, d: DefDemo)
    requires TablasValidas(t)
    requires d.stockMinimo >= 0 && d.precio >= 0
    ensures TablasValidas(AsegurarProducto(t, d).0)
  {
  }

  /** The first loop keeps every table constraint. */
  lemma {:induction false} AsegurarTodosValido(t: Tablas, defs: seq<DefDemo>)
    requires TablasValidas(t)
    requires forall i :: 0 <= i < |defs| ==> defs[i].stockMinimo >= 0 && defs[i].precio >= 0
    ensures TablasValidas(AsegurarTodos(t, defs).0)
  {
    if defs != [] {
      AsegurarTodosValido(t, defs[..|defs| - 1]);
      AsegurarProductoValido(AsegurarTodos(t, defs[..|defs| - 1]).0, defs[|defs| - 1]);
    }
  }

  /** The second loop keeps every table constraint. */
  lemma {:induction false} DemoValido(t: Tablas, elegidos: seq<(Producto, string)>, usuario: Id, ctx: ContextoDemo)
    requires TablasValidas(t)
    requires Demo(t, elegidos, usuario, ctx).Ok?
    ensures TablasValidas(Demo(t, elegidos, usuario, ctx).value)
  {
    if elegidos != [] {
      var previos := elegidos[..|elegidos| - 1];
      DemoValido(t, previos, usuario, ctx);
      var (p, escenario) := elegidos[|elegidos| - 1];
      PasoDemoValido(Demo(t, previos, usuario, ctx).value, |elegidos|, p, escenario, usuario, ctx);
    }
  }

  /** Rows of products the loop does not visit are left alone. */
  lemma {:induction false} DemoFuera(t: Tablas, elegidos: seq<(Producto, string)>, usuario: Id, ctx: ContextoDemo, p: Id, a: Id)
    requires Demo(t, elegidos, usuario, ctx).Ok?
    requires forall k :: 0 <= k < |elegidos| ==> elegidos[k].0.id != p
    ensures CantidadEn(Demo(t, elegidos, usuario, ctx).value.stocks, p, a) == CantidadEn(t.stocks, p, a)
  {
    if elegidos != [] {
      var previos := elegidos[..|elegidos| - 1];
      DemoFuera(t, previos, usuario, ctx, p, a);
      var (q, escenario) := elegidos[|elegidos| - 1];
      PasoDemoStock(Demo(t, previos, usuario, ctx).value, |elegidos|, q, escenario, usuario, ctx, p, a);
    }
  }

  /**
   * Over the whole loop: distinct products whose store rows start empty
   * leave the stock table and the movement log in agreement.
   */
  lemma {:induction false} DemoCuadra(t: Tablas, elegidos: seq<(Producto, string)>, usuario: Id, ctx: ContextoDemo)
    requires Demo(t, elegidos, usuario, ctx).Ok?
    requires LibroCuadra(t.stocks, t.movimientos)
    requires forall i, j :: 0 <= i < j < |elegidos| ==> elegidos[i].0.id != elegidos[j].0.id
    requires forall k :: 0 <= k < |elegidos| ==> CantidadEn(t.stocks, elegidos[k].0.id, ctx.bodega) == 0
    ensures var t' := Demo(t, elegidos, usuario, ctx).value;
            LibroCuadra(t'.stocks, t'.movimientos)
  {
    if elegidos != [] {
      var previos := elegidos[..|elegidos| - 1];
      DemoCuadra(t, previos, usuario, ctx);
      var t1 := Demo(t, previos, usuario, ctx).value;
      var (q, escenario) := elegidos[|elegidos| - 1];
      DemoFuera(t, previos, usuario, ctx, q.id, ctx.bodega);
      PasoDemoCuadra(t1, |elegidos|, q, escenario, usuario, ctx);
    }
  }

  /** The first loop collects, for each definition in order, a stored product with that code. */
  lemma {:induction false} AsegurarTodosElegidos(t: Tablas, defs: seq<DefDemo>)
    ensures forall k :: 0 <= k < |defs| ==>
              AsegurarTodos(t, defs).1[k].0 in AsegurarTodos(t, defs).0.productos && AsegurarTodos(t, defs).1[k].0.codigo == defs[k].codigo
  {
    if defs != [] {
      var previas := defs[..|defs| - 1];
      AsegurarTodosElegidos(t, previas);
      var (t1, e1) := AsegurarTodos(t, previas);
      var (t2, p) := AsegurarProducto(t1, defs[|defs| - 1]);
      var elegidos := AsegurarTodos(t, defs).1;
      assert elegidos == e1 + [(p, defs[|defs| - 1].escenario)];
      forall k | 0 <= k < |defs| ensures elegidos[k].0 in t2.productos && elegidos[k].0.codigo == defs[k].codigo {
        if k < |previas| {
          assert elegidos[k] == e1[k] && previas[k] == defs[k];
          assert t1.productos <= t2.productos;
        }
      }
    }
  }

  /** Distinct codes give distinct products, so the second loop visits each product once. */
  lemma AsegurarTodosDistintos(t: Tablas, defs: seq<DefDemo>)
    requires TablasValidas(t)
    requires forall i :: 0 <= i < |defs| ==> defs[i].stockMinimo >= 0 && defs[i].precio >= 0
    requires forall i, j :: 0 <= i < j < |defs| ==> defs[i].codigo != defs[j].codigo
    ensures forall i, j :: 0 <= i < j < |AsegurarTodos(t, defs).1| ==>
              AsegurarTodos(t, defs).1[i].0.id != AsegurarTodos(t, defs).1[j].0.id
  {
    AsegurarTodosValido(t, defs);
    AsegurarTodosElegidos(t, defs);
    var (t', elegidos) := AsegurarTodos(t, defs);
    forall i, j | 0 <= i < j < |elegidos| ensures elegidos[i].0.id != elegidos[j].0.id {
      var a :| 0 <= a < |t'.productos| && t'.productos[a] == elegidos[i].0;
      var b :| 0 <= b < |t'.productos| && t'.productos[b] == elegidos[j].0;
      assert a != b;
    }
  }

  /**
   * The whole forward step keeps the stock table and the movement log in
   * agreement when the central store starts empty; PasoDemoCuadra shows
   * what a prior quantity does.
   */
  lemma CrearDemoCuadra(t: Tablas, usuario: Id, ctx: ContextoDemo)
    requires TablasValidas(t)
    requires LibroCuadra(t.stocks, t.movimientos)
    requires forall p :: CantidadEn(t.stocks, p, ctx.bodega) == 0
    requires CrearDemo(t, usuario, ctx).Ok?
    ensures LibroCuadra(CrearDemo(t, usuario, ctx).value.stocks, CrearDemo(t, usuario, ctx).value.movimientos)
  {
    DefinicionesDemoValidas();
    CodigosDemoSonLosDefinidos();
    AsegurarTodosDistintos(t, PRODUCTOS_DEMO);
    var t1 := AsegurarTodos(t, PRODUCTOS_DEMO).0;
    var elegidos := AsegurarTodos(t, PRODUCTOS_DEMO).1;
    DemoCuadra(t1, elegidos, usuario, ctx);
  }

  /** `e` keeps the entries of `base` and numbers every entry after them FAC-DEMO-1, -2, … in order. */
  ghost predicate NumeradasDesde(base: seq<EntradaStock>, e: seq<EntradaStock>) {
    |base| <= |e| && e[..|base|] == base &&
    forall k :: |base| <= k < |e| ==> e[k].numero == NumeroDemo(k - |base| + 1)
  }

  /** Each position gets its own entry number, so the loop's entries never collide with one another. */
  lemma {:induction false} DemoNumera(t: Tablas, elegidos: seq<(Producto, string)>, usuario: Id, ctx: ContextoDemo)
    requires Demo(t, elegidos, usuario, ctx).Ok?
    ensures |Demo(t, elegidos, usuario, ctx).value.entradas| == |t.entradas| + |elegidos|
    ensures NumeradasDesde(t.entradas, Demo(t, elegidos, usuario, ctx).value.entradas)
  {
    if elegidos != [] {
      var previos := elegidos[..|elegidos| - 1];
      DemoNumera(t, previos, usuario, ctx);
      var t1 := Demo(t, previos, usuario, ctx).value;
      PasoDemoNumero(t1, |elegidos|, elegidos[|elegidos| - 1].0, elegidos[|elegidos| - 1].1, usuario, ctx);
      NumerosDemoPaso(t.entradas, t1.entradas, Demo(t, elegidos, usuario, ctx).value.entradas, |previos|);
    } else {
      assert Demo(t, elegidos, usuario, ctx) == Ok(t);
    }
  }

  /** Entries numbered FAC-DEMO-1 .. n after a base, followed by FAC-DEMO-(n+1), are numbered 1 .. n+1. */
  lemma NumerosDemoPaso(base: seq<EntradaStock>, e1: seq<EntradaStock>, e2: seq<EntradaStock>, n: nat)
    requires |e1| == |base| + n && NumeradasDesde(base, e1)
    requires |e2| == |e1| + 1 && e2[..|e1|] == e1 && e2[|e1|].numero == NumeroDemo(n + 1)
    ensures NumeradasDesde(base, e2)
  {
    assert forall k :: 0 <= k < |e1| ==> e2[k] == e1[k] by {
      forall k | 0 <= k < |e1| ensures e2[k] == e1[k] {
        assert e2[k] == e2[..|e1|][k];
      }
    }
    forall k | |base| <= k < |e2| ensures e2[k].numero == NumeroDemo(k - |base| + 1) {
      if k < |e1| {
        assert e2[k] == e1[k];
      } else {
        assert k == |e1| && k - |base| + 1 == n + 1;
      }
    }
    assert e2[..|base|] == e1[..|base|];
  }

  /** A clean step appends exactly one entry, numbered FAC-DEMO-idx. */
  lemma PasoDemoNumero(t: Tablas, idx: nat, prod: Producto, escenario: string, usuario: Id, ctx: ContextoDemo)
    requires PasoDemo(t, idx, prod, escenario, usuario, ctx).Ok?
    ensures var t' := PasoDemo(t, idx, prod, escenario, usuario, ctx).value;
            |t'.entradas| == |t.entradas| + 1 && t'.entradas[..|t.entradas|] == t.entradas &&
            t'.entradas[|t.entradas|].numero == NumeroDemo(idx)
  {
  }

  // ---------------------------------------------------------------------------
  // Forward step, in place

  /** `Producto.objects.get_or_create(codigo=...)` for one definition, in place. */
  method AsegurarUno(db: Inventario, d: DefDemo) returns (prod: Producto)
    modifies db
    ensures (db.Estado(), prod) == AsegurarProducto(old(db.Estado()), d)
  {
    var existente := BuscarCodigo(db.productos, d.codigo);
    if existente.Some? {
      return existente.value;
    }
    prod := Producto(db.siguienteId, d.codigo, d.nombre, d.categoria, d.unidad, d.stockMinimo, Some(d.precio), true);
    db.productos, db.siguienteId := db.productos + [prod], db.siguienteId + 1;
  }

  /** The first loop, in place: get_or_create each defined product by code. */
  method AsegurarProductos(db: Inventario, defs: seq<DefDemo>) returns (elegidos: seq<(Producto, string)>)
    modifies db
    ensures (db.Estado(), elegidos) == AsegurarTodos(old(db.Estado()), defs)
  {
    ghost var t0 := db.Estado();
    elegidos := [];
    var j := 0;
    while j < |defs|
      invariant 0 <= j <= |defs|
      invariant AsegurarTodos(t0, defs[..j]) == (db.Estado(), elegidos)
    {
      AsegurarTodosPaso(t0, defs, j, db.Estado(), elegidos);
      var prod := AsegurarUno(db, defs[j]);
      elegidos := elegidos + [(prod, defs[j].escenario)];
      j := j + 1;
    }
    assert defs[..j] == defs;
  }

  /**
   * One iteration of the second loop, in place: create the entry and its
   * detail, set the store row to 50 and log the ENTRADA, then decrement
   * with the clamp and log the SALIDA. On an error nothing has changed.
   */
  method RegistrarDemo(db: Inventario, idx: nat, prod: Producto, escenario: string, usuario: Id, ctx: ContextoDemo)
    returns (r: Result<(), Fallo>)
    modifies db
    ensures match PasoDemo(old(db.Estado()), idx, prod, escenario, usuario, ctx)
            case Ok(t) => r == Ok(()) && db.Estado() == t
            case Err(e) => r == Err(e) && db.Estado() == old(db.Estado())
  {
    var numero := NumeroDemo(idx);
    if prod.precioUnitario.None? {
      return Err(ErrorDeTipo);
    }
    if ExisteEntrada(db.entradas, numero) {
      return Err(ClaveDuplicada);
    }
    var precio := prod.precioUnitario.value;
    RegistrarEntradaDemo(db, numero, prod.id, precio, usuario, ctx);
    AjustarStockDemo(db, idx, prod.id, precio, escenario, usuario, ctx);
    r := Ok(());
  }

  /** The entry and its detail, created in place. */
  method RegistrarEntradaDemo(db: Inventario, numero: string, p: Id, precio: Centesimos, usuario: Id, ctx: ContextoDemo)
    modifies db
    ensures db.Estado() == ConEntradaDemo(old(db.Estado()), numero, p, precio, usuario, ctx)
  {
    db.entradas := db.entradas + [EntradaStock(numero, Some(ctx.proveedor), ctx.hoy - 7, Some(precio * CANTIDAD_INICIAL), usuario)];
    db.detallesEntrada := db.detallesEntrada + [DetalleEntradaStock(db.siguienteId, numero, p, ctx.bodega, CANTIDAD_INICIAL, Some(precio))];
    db.siguienteId := db.siguienteId + 1;
  }

  /** The store row and its two movements, updated in place: filled to 50, then decremented with the clamp. */
  method AjustarStockDemo(db: Inventario, idx: nat, p: Id, precio: Centesimos, escenario: string, usuario: Id, ctx: ContextoDemo)
    modifies db
    ensures db.Estado() == ConStockDemo(old(db.Estado()), idx, p, precio, escenario, usuario, ctx)
  {
    var movimientos := db.movimientos;
    var cantidad := CANTIDAD_INICIAL;
    var lleno := Fijar(db.stocks, p, ctx.bodega, cantidad);
    db.stocks, db.movimientos := lleno, movimientos + [MovimientoEntrada(p, precio, usuario, NumeroDemo(idx), ctx)];
    var consumo := ConsumoDemo(escenario);
    cantidad := RestarConTope(cantidad, consumo);
    db.stocks, db.movimientos := Fijar(lleno, p, ctx.bodega, cantidad),
      movimientos + [MovimientoEntrada(p, precio, usuario, NumeroDemo(idx), ctx), MovimientoSalida(p, precio, usuario, consumo, ctx)];
  }

  /**
   * crear_datos_demo: nothing happens without a superuser; otherwise both
   * loops run against the tables in place, and an error restores them.
   */
  method CrearDatosDemo(db: Inventario, superusuario: Option<Id>, ctx: ContextoDemo) returns (r: Result<(), Fallo>)
    requires db.Valid()
    modifies db
    ensures db.Valid()
    ensures superusuario.None? ==> r == Ok(()) && db.Estado() == old(db.Estado())
    ensures superusuario.Some? ==>
              match CrearDemo(old(db.Estado()), superusuario.value, ctx)
              case Ok(t) => r == Ok(()) && db.Estado() == t
              case Err(e) => r == Err(e) && db.Estado() == old(db.Estado())
  {
    if superusuario.None? {
      return Ok(());
    }
    var usuario := superusuario.value;
    var t0 := db.Estado();
    ghost var esperado := CrearDemo(t0, usuario, ctx);
    DefinicionesDemoValidas();
    var elegidos := AsegurarProductos(db, PRODUCTOS_DEMO);
    AsegurarTodosValido(t0, PRODUCTOS_DEMO);
    ghost var t1 := db.Estado();
    assert esperado == Demo(t1, elegidos, usuario, ctx);

    r := RegistrarTodos(db, elegidos, usuario, ctx);
    if r.Err? {
      db.Restaurar(t0);
    } else {
      DemoValido(t1, elegidos, usuario, ctx);
    }
  }

  /**
   * The second loop, numbered from 1, against the tables in place; the
   * first error stops it, leaving the rollback to the caller.
   */
  method RegistrarTodos(db: Inventario, elegidos: seq<(Producto, string)>, usuario: Id, ctx: ContextoDemo)
    returns (r: Result<(), Fallo>)
    modifies db
    ensures match Demo(old(db.Estado()), elegidos, usuario, ctx)
            case Ok(t) => r == Ok(()) && db.Estado() == t
            case Err(e) => r == Err(e)
  {
    ghost var t1 := db.Estado();
    r := Ok(());
    var i := 0;
    while i < |elegidos| && r.Ok?
      invariant 0 <= i <= |elegidos|
      invariant r.Ok? ==> r == Ok(())
      invariant Demo(t1, elegidos[..i], usuario, ctx) == if r.Ok? then Ok(db.Estado()) else Err(r.error)
    {
      DemoPaso(t1, elegidos, i, db.Estado(), usuario, ctx);
      r := RegistrarDemo(db, i + 1, elegidos[i].0, elegidos[i].1, usuario, ctx);
      i := i + 1;
    }
    if r.Err? {
      DemoAborta(t1, elegidos, i, usuario, ctx);
    } else {
      assert elegidos[..i] == elegidos;
    }
  }

  // ---------------------------------------------------------------------------
  // Reverse step

  /** The ids of the stored products whose code is a demo code. */
  function IdsDemo(productos: seq<Producto>): (ids: set<Id>)
    ensures forall i :: 0 <= i < |productos| && productos[i].codigo in CODIGOS_DEMO ==> productos[i].id in ids
    ensures forall x :: x in ids ==> exists i :: 0 <= i < |productos| && productos[i].id == x && productos[i].codigo in CODIGOS_DEMO
  {
    set i | 0 <= i < |productos| && productos[i].codigo in CODIGOS_DEMO :: productos[i].id
  }

  /** Some detail line of entry `numero` is for one of the products. */
  predicate TieneDetalleDe(detalles: seq<DetalleEntradaStock>, numero: string, ids: set<Id>) {
    exists i :: 0 <= i < |detalles| && detalles[i].entrada == numero && detalles[i].producto in ids
  }

  /** Some order line is for one of the products (DetallePedido.producto is PROTECT). */
  predicate PedidoReferencia(lineas: seq<PedidosModels.DetallePedido>, ids: set<Id>) {
    exists i :: 0 <= i < |lineas| && lineas[i].producto in ids
  }

  function MovimientoFuera(ids: set<Id>): Movimiento -> bool { (m: Movimiento) => m.producto !in ids }
  function DetalleFuera(ids: set<Id>): DetalleEntradaStock -> bool { (d: DetalleEntradaStock) => d.producto !in ids }
  function StockFuera(ids: set<Id>): Stock -> bool { (s: Stock) => s.producto !in ids }
  function ProductoFuera(ids: set<Id>): Producto -> bool { (p: Producto) => p.id !in ids }
  function AlertaFuera(ids: set<Id>): AlertaStock -> bool { (a: AlertaStock) => a.producto !in ids }

  /** `EntradaStock.objects.filter(detalles__producto__in=...)`, read against the given detail lines. */
  function ConDetalleDe(detalles: seq<DetalleEntradaStock>, ids: set<Id>): EntradaStock -> bool {
    (e: EntradaStock) => TieneDetalleDe(detalles, e.numero, ids)
  }

  /** Some entry that `borrar` selects carries this number. */
  predicate Borrada(entradas: seq<EntradaStock>, borrar: EntradaStock -> bool, numero: string) {
    exists i :: 0 <= i < |entradas| && entradas[i].numero == numero && borrar(entradas[i])
  }

  /** Deleting the selected entries together with their detail lines (DetalleEntradaStock.entrada is CASCADE). */
  function BorrarEntradas(entradas: seq<EntradaStock>, detalles: seq<DetalleEntradaStock>, borrar: EntradaStock -> bool)
    : (r: (seq<EntradaStock>, seq<DetalleEntradaStock>))
    ensures forall i :: 0 <= i < |r.0| ==> !borrar(r.0[i])
    ensures forall i :: 0 <= i < |r.1| ==> !Borrada(entradas, borrar, r.1[i].entrada)
  {
    (Filtrar(entradas, (e: EntradaStock) => !borrar(e)),
     Filtrar(detalles, (d: DetalleEntradaStock) => !Borrada(entradas, borrar, d.entrada)))
  }

  /**
   * eliminar_datos_demo as written: movements, then detail lines, of the demo
   * products are deleted; entries are then selected through their detail
   * lines, which are already gone; then stocks; then the products, whose
   * alerts cascade, unless an order line still protects one of them.
   */
  function EliminarDemo(t: Tablas, lineasPedido: seq<PedidosModels.DetallePedido>): Result<Tablas, Fallo> {
    var ids := IdsDemo(t.productos);
    var movimientos := Filtrar(t.movimientos, MovimientoFuera(ids));
    var detalles := Filtrar(t.detallesEntrada, DetalleFuera(ids));
    var borradas := BorrarEntradas(t.entradas, detalles, ConDetalleDe(detalles, ids));
    var stocks := Filtrar(t.stocks, StockFuera(ids));
    if PedidoReferencia(lineasPedido, ids) then Err(Protegido)
    else
      Ok(t.(movimientos := movimientos, entradas := borradas.0, detallesEntrada := borradas.1, stocks := stocks,
            productos := Filtrar(t.productos, ProductoFuera(ids)), alertas := Filtrar(t.alertas, AlertaFuera(ids))))
  }

  /**
   * The reverse step with the entries selected before their detail lines
   * are deleted: every entry that carried a demo line goes, with all its
   * lines.
   */
  function EliminarDemoCorregido(t: Tablas, lineasPedido: seq<PedidosModels.DetallePedido>): Result<Tablas, Fallo> {
    var ids := IdsDemo(t.productos);
    var movimientos := Filtrar(t.movimientos, MovimientoFuera(ids));
    var borradas := BorrarEntradas(t.entradas, t.detallesEntrada, ConDetalleDe(t.detallesEntrada, ids));
    var detalles := Filtrar(borradas.1, DetalleFuera(ids));
    var stocks := Filtrar(t.stocks, StockFuera(ids));
    if PedidoReferencia(lineasPedido, ids) then Err(Protegido)
    else
      Ok(t.(movimientos := movimientos, entradas := borradas.0, detallesEntrada := detalles, stocks := stocks,
            productos := Filtrar(t.productos, ProductoFuera(ids)), alertas := Filtrar(t.alertas, AlertaFuera(ids))))
  }

  /**
   * As written, the reverse step deletes no entry at all: an entry that
   * carried a demo line survives, stripped of that line.
   */
  lemma EliminarDemoConservaEntradas(t: Tablas, lineasPedido: seq<PedidosModels.DetallePedido>)
    requires EliminarDemo(t, lineasPedido).Ok?
    ensures EliminarDemo(t, lineasPedido).value.entradas == t.entradas
    ensures forall i :: 0 <= i < |EliminarDemo(t, lineasPedido).value.detallesEntrada| ==>
              EliminarDemo(t, lineasPedido).value.detallesEntrada[i].producto !in IdsDemo(t.productos)
  {
    var ids := IdsDemo(t.productos);
    var detalles := Filtrar(t.detallesEntrada, DetalleFuera(ids));
    var borrar := ConDetalleDe(detalles, ids);
    FiltrarNada(t.entradas, (e: EntradaStock) => !borrar(e));
    var r := EliminarDemo(t, lineasPedido).value;
    forall i | 0 <= i < |r.detallesEntrada| ensures r.detallesEntrada[i].producto !in ids {
      assert r.detallesEntrada[i] in detalles;
    }
  }

  /** What both versions remove: every stock row, movement, product and alert of a demo product, and nothing else. */
  lemma EliminarDemoQuita(t: Tablas, lineasPedido: seq<PedidosModels.DetallePedido>)
    requires EliminarDemo(t, lineasPedido).Ok?
    ensures EliminarDemoCorregido(t, lineasPedido).Ok?
    ensures var ids := IdsDemo(t.productos);
            var r := EliminarDemo(t, lineasPedido).value;
            && r.stocks == EliminarDemoCorregido(t, lineasPedido).value.stocks
            && r.movimientos == EliminarDemoCorregido(t, lineasPedido).value.movimientos
            && r.productos == EliminarDemoCorregido(t, lineasPedido).value.productos
            && r.alertas == EliminarDemoCorregido(t, lineasPedido).value.alertas
  {
  }

  /** The reverse step fails, changing nothing, exactly when an order line is for a demo product. */
  lemma EliminarDemoProtegido(t: Tablas, lineasPedido: seq<PedidosModels.DetallePedido>)
    ensures EliminarDemo(t, lineasPedido).Err? <==> PedidoReferencia(lineasPedido, IdsDemo(t.productos))
    ensures EliminarDemo(t, lineasPedido).Err? ==> EliminarDemo(t, lineasPedido) == Err(Protegido)
    ensures EliminarDemoCorregido(t, lineasPedido).Err? <==> EliminarDemo(t, lineasPedido).Err?
  {
  }

  /**
   * The corrected reverse step leaves no trace of the demo products: no
   * product with a demo code, no stock row, movement, alert or detail line
   * of one, and no entry that carried a line of one; every other row stays.
   */
  lemma EliminarDemoCorregidoCompleto(t: Tablas, lineasPedido: seq<PedidosModels.DetallePedido>)
    requires ProductosValidos(t.productos, t.siguienteId)
    requires EliminarDemoCorregido(t, lineasPedido).Ok?
    ensures var ids := IdsDemo(t.productos);
            var r := EliminarDemoCorregido(t, lineasPedido).value;
            && (forall i :: 0 <= i < |r.productos| ==> r.productos[i].codigo !in CODIGOS_DEMO)
            && (forall i :: 0 <= i < |r.stocks| ==> r.stocks[i].producto !in ids)
            && (forall i :: 0 <= i < |r.movimientos| ==> r.movimientos[i].producto !in ids)
            && (forall i :: 0 <= i < |r.alertas| ==> r.alertas[i].producto !in ids)
            && (forall i :: 0 <= i < |r.detallesEntrada| ==> r.detallesEntrada[i].producto !in ids)
            && (forall i :: 0 <= i < |r.entradas| ==> !TieneDetalleDe(t.detallesEntrada, r.entradas[i].numero, ids))
            && (forall i :: 0 <= i < |t.entradas| && !TieneDetalleDe(t.detallesEntrada, t.entradas[i].numero, ids) ==>
                  t.entradas[i] in r.entradas)
            && (forall i :: 0 <= i < |t.productos| && t.productos[i].codigo !in CODIGOS_DEMO ==> t.productos[i] in r.productos)
  {
    var ids := IdsDemo(t.productos);
    var r := EliminarDemoCorregido(t, lineasPedido).value;
    forall i | 0 <= i < |r.productos| ensures r.productos[i].codigo !in CODIGOS_DEMO {
      assert r.productos[i] in t.productos;
    }
    forall i | 0 <= i < |t.productos| && t.productos[i].codigo !in CODIGOS_DEMO ensures t.productos[i] in r.productos {
      IdDemoSoloDeDemo(t.productos, t.siguienteId, i);
    }
  }

  /** With unique ids, a product whose code is not a demo code does not have a demo id. */
  lemma IdDemoSoloDeDemo(productos: seq<Producto>, cota: nat, i: nat)
    requires ProductosValidos(productos, cota)
    requires i < |productos| && productos[i].codigo !in CODIGOS_DEMO
    ensures productos[i].id !in IdsDemo(productos)
  {
    forall k | 0 <= k < |productos| && productos[k].id == productos[i].id
      ensures productos[k].codigo !in CODIGOS_DEMO
    {
      assert k == i;
    }
  }

  /**
   * The corrected step differs from the written one exactly on the entries:
   * an entry that carried a demo line stays as written and goes when
   * corrected.
   */
  lemma EntradaDemoSobrevive(t: Tablas, lineasPedido: seq<PedidosModels.DetallePedido>, i: nat)
    requires ProductosValidos(t.productos, t.siguienteId)
    requires EliminarDemo(t, lineasPedido).Ok?
    requires i < |t.entradas| && TieneDetalleDe(t.detallesEntrada, t.entradas[i].numero, IdsDemo(t.productos))
    ensures t.entradas[i] in EliminarDemo(t, lineasPedido).value.entradas
    ensures t.entradas[i] !in EliminarDemoCorregido(t, lineasPedido).value.entradas
  {
    EliminarDemoConservaEntradas(t, lineasPedido);
    EliminarDemoProtegido(t, lineasPedido);
    EliminarDemoCorregidoCompleto(t, lineasPedido);
  }

  /** Deleting rows keeps a valid set of tables valid. */
  lemma EliminarDemoValido(t: Tablas, lineasPedido: seq<PedidosModels.DetallePedido>)
    requires TablasValidas(t)
    requires EliminarDemo(t, lineasPedido).Ok?
    ensures TablasValidas(EliminarDemo(t, lineasPedido).value)
  {
    var ids := IdsDemo(t.productos);
    var cota := t.siguienteId;
    var detalles := Filtrar(t.detallesEntrada, DetalleFuera(ids));
    var borrar := ConDetalleDe(detalles, ids);
    FiltrarPreservaPares(t.stocks, StockFuera(ids), (x: Stock, y: Stock) => x.producto != y.producto || x.area != y.area);
    FiltrarPreservaTodos(t.stocks, StockFuera(ids), (x: Stock) => x.cantidad >= 0);
    FiltrarPreservaPares(t.productos, ProductoFuera(ids),
      (x: Producto, y: Producto) => x.codigo != y.codigo && x.id != y.id);
    FiltrarPreservaTodos(t.productos, ProductoFuera(ids),
      (x: Producto) => x.stockMinimo >= 0 && x.id < cota && (x.precioUnitario.Some? ==> x.precioUnitario.value >= 0));
    FiltrarPreservaTodos(t.movimientos, MovimientoFuera(ids), (m: Movimiento) => m.cantidad >= 1);
    var valido := (d: DetalleEntradaStock) => d.cantidad >= 1 && d.id < cota;
    FiltrarPreservaTodos(t.detallesEntrada, DetalleFuera(ids), valido);
    FiltrarPreservaTodos(detalles, (d: DetalleEntradaStock) => !Borrada(t.entradas, borrar, d.entrada), valido);
    FiltrarPreservaPares(t.entradas, (e: EntradaStock) => !borrar(e), (x: EntradaStock, y: EntradaStock) => x.numero != y.numero);
  }

  /**
   * eliminar_datos_demo, in place: each queryset delete in turn; the
   * protected product delete rolls the whole migration back.
   */
  method EliminarDatosDemo(db: Inventario, lineasPedido: seq<PedidosModels.DetallePedido>) returns (r: Result<(), Fallo>)
    requires db.Valid()
    modifies db
    ensures db.Valid()
    ensures match EliminarDemo(old(db.Estado()), lineasPedido)
            case Ok(t) => r == Ok(()) && db.Estado() == t
            case Err(e) => r == Err(e) && db.Estado() == old(db.Estado())
  {
    var t0 := db.Estado();
    match EliminarDemo(t0, lineasPedido)
    case Err(e) =>
      r := Err(e);
    case Ok(t1) =>
      EliminarDemoValido(t0, lineasPedido);
      db.Restaurar(t1);
      r := Ok(());
  }
}
