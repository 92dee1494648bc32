/**
 * The computations behind the pages of inventario/views.py: the dashboard's
 * low-stock panel and per-area totals, the alerts page, and the product
 * list filter. Rendering, pagination and the request object are not part
 * of the model; each view's inputs are its query parameters and the
 * tables it reads, each sequence in the queryset's order.
 */
module InventarioViews {
  import opened Wrappers
  import opened Texto
  import opened Aritmetica
  import opened InventarioModels

  // ---------------------------------------------------------------------------
  // Sorting by an integer-pair key, as Python's sorted()

  /** Lexicographic order on sort keys (Python's tuple comparison). */
  predicate ClaveMenorIgual(a: (int, int), b: (int, int)) {
    a.0 < b.0 || (a.0 == b.0 && a.1 <= b.1)
  }

  ghost predicate Ordenada<T>(s: seq<T>, clave: T -> (int, int)) {
    forall i, j :: 0 <= i < j < |s| ==> ClaveMenorIgual(clave(s[i]), clave(s[j]))
  }

  /** Places x after the trailing elements whose key is above its own. */
  function Insertar<T>(x: T, s: seq<T>, clave: T -> (int, int)): (r: seq<T>)
    requires Ordenada(s, clave)
    ensures Ordenada(r, clave)
    ensures multiset(r) == multiset(s) + multiset{x}
  {
    if s == [] then [x]
    else
      var ultimo := s[|s| - 1];
      var previos := s[..|s| - 1];
      assert s == previos + [ultimo];
      if ClaveMenorIgual(clave(ultimo), clave(x)) then s + [x]
      else
        var r0 := Insertar(x, previos, clave);
        CotaPorUltimo(x, previos, ultimo, r0, clave);
        r0 + [ultimo]
  }

  /** Whatever a permutation of the earlier elements plus x holds sorts no later than the last element. */
  lemma CotaPorUltimo<T>(x: T, previos: seq<T>, ultimo: T, r0: seq<T>, clave: T -> (int, int))
    requires Ordenada(previos + [ultimo], clave)
    requires ClaveMenorIgual(clave(x), clave(ultimo))
    requires multiset(r0) == multiset(previos) + multiset{x}
    ensures forall i :: 0 <= i < |r0| ==> ClaveMenorIgual(clave(r0[i]), clave(ultimo))
  {
    var s := previos + [ultimo];
    forall i | 0 <= i < |r0| ensures ClaveMenorIgual(clave(r0[i]), clave(ultimo)) {
      assert r0[i] in multiset(r0);
      if r0[i] != x {
        assert r0[i] in multiset(previos);
        var k :| 0 <= k < |previos| && previos[k] == r0[i];
        assert s[k] == r0[i] && s[|previos|] == ultimo;
      }
    }
  }

  /** sorted(xs, key=clave): ordered by the key and a permutation of xs. */
  function Ordenar<T>(xs: seq<T>, clave: T -> (int, int)): (r: seq<T>)
    ensures Ordenada(r, clave)
    ensures multiset(r) == multiset(xs)
  {
    if xs == [] then []
    else
      assert xs == xs[..|xs| - 1] + [xs[|xs| - 1]];
      Insertar(xs[|xs| - 1], Ordenar(xs[..|xs| - 1], clave), clave)
  }

  // ---------------------------------------------------------------------------
  // Alert rows

  predicate EsActiva(a: AlertaStock) {
    a.estado == Activa
  }

  /** `filter(estado='ACTIVA')`, in queryset order. */
  function Activas(alertas: seq<AlertaStock>): (r: seq<AlertaStock>)
    ensures forall i :: 0 <= i < |r| ==> r[i].estado == Activa && r[i] in alertas
    ensures forall i :: 0 <= i < |alertas| && alertas[i].estado == Activa ==> alertas[i] in r
  {
    Filtrar(alertas, EsActiva)
  }

  /** Rows selected from a prefix of the table are a prefix of the rows selected from the table. */
  lemma {:induction false} FiltrarPrefijo<T>(s: seq<T>, i: nat, conservar: T -> bool)
    requires i <= |s|
    ensures Filtrar(s[..i], conservar) <= Filtrar(s, conservar)
  {
    if i < |s| {
      var previos := s[..|s| - 1];
      assert previos[..i] == s[..i];
      FiltrarPrefijo(previos, i, conservar);
    } else {
      assert s[..i] == s;
    }
  }

  /** The dashboard's `[:10]`: the first ten active alerts in queryset order. */
  function PrimerasActivas(alertas: seq<AlertaStock>): (r: seq<AlertaStock>)
    ensures |r| == if |Activas(alertas)| < 10 then |Activas(alertas)| else 10
    ensures r <= Activas(alertas)
  {
    var activas := Activas(alertas);
    if |activas| < 10 then activas else activas[..10]
  }

  /** The dashboard percentage: int(stock_actual / stock_minimo * 100), truncated toward zero; 0 when the minimum is not positive. */
  function PorcentajeDashboard(actual: Centesimos, minimo: Centesimos): (p: int)
    ensures minimo <= 0 ==> p == 0
    ensures minimo > 0 && actual >= 0 ==> p >= 0 && p * minimo <= actual * 100 < p * minimo + minimo
    ensures minimo > 0 && actual < 0 ==> p <= 0 && actual * 100 <= p * minimo < actual * 100 + minimo
  {
    if minimo > 0 then TruncDiv(actual * 100, minimo) else 0
  }

  datatype FilaDashboard = FilaDashboard(alerta: AlertaStock, porcentaje: int, critico: bool)

  /** One dashboard row: critical exactly when the percentage is below 50. */
  function FilaDeAlerta(a: AlertaStock): (f: FilaDashboard)
    ensures f.alerta == a
    ensures f.critico <==> f.porcentaje < 50
    ensures f.porcentaje == PorcentajeDashboard(a.stockActual, a.stockMinimo)
  {
    var p := PorcentajeDashboard(a.stockActual, a.stockMinimo);
    FilaDashboard(a, p, p < 50)
  }

  function FilasDashboard(alertas: seq<AlertaStock>): (r: seq<FilaDashboard>)
    ensures |r| == |alertas|
    ensures forall i :: 0 <= i < |r| ==> r[i] == FilaDeAlerta(alertas[i])
  {
    if alertas == [] then [] else FilasDashboard(alertas[..|alertas| - 1]) + [FilaDeAlerta(alertas[|alertas| - 1])]
  }

  /** Dashboard order: critical first, then by ascending percentage. */
  function ClaveDashboard(f: FilaDashboard): (int, int) {
    (if f.critico then 0 else 1, f.porcentaje)
  }

  /** For dashboard rows the two-part key orders exactly as the percentage alone does. */
  lemma ClaveDashboardEsPorcentaje(a: AlertaStock, b: AlertaStock)
    ensures (ClaveMenorIgual(ClaveDashboard(FilaDeAlerta(a)), ClaveDashboard(FilaDeAlerta(b))) <==>
             FilaDeAlerta(a).porcentaje <= FilaDeAlerta(b).porcentaje)
  {
  }

  /** In dashboard order no critical row follows a non-critical one, and within a group percentages ascend. */
  lemma DashboardCriticosPrimero(filas: seq<FilaDashboard>)
    requires Ordenada(filas, ClaveDashboard)
    ensures forall i, j :: 0 <= i < j < |filas| && filas[j].critico ==> filas[i].critico
    ensures forall i, j :: 0 <= i < j < |filas| && filas[i].critico == filas[j].critico ==>
              filas[i].porcentaje <= filas[j].porcentaje
  {
    forall i, j | 0 <= i < j < |filas|
      ensures filas[j].critico ==> filas[i].critico
      ensures filas[i].critico == filas[j].critico ==> filas[i].porcentaje <= filas[j].porcentaje
    {
      assert ClaveMenorIgual(ClaveDashboard(filas[i]), ClaveDashboard(filas[j]));
    }
  }

  /**
   * The dashboard's alert panel: the number of active alerts, and rows for
   * the first ten of them in queryset order, sorted critical-first and then
   * by percentage.
   */
  method Dashboard(alertas: seq<AlertaStock>) returns (activas: nat, filas: seq<FilaDashboard>)
    ensures activas == |Activas(alertas)|
    ensures |filas| <= 10
    ensures Ordenada(filas, ClaveDashboard)
    ensures multiset(filas) == multiset(FilasDashboard(PrimerasActivas(alertas)))
  {
    activas := |Activas(alertas)|;
    var recogidas := FilasPrimerasActivas(alertas);
    filas := Ordenar(recogidas, ClaveDashboard);
    assert |filas| == |multiset(filas)| == |multiset(recogidas)| == |recogidas|;
  }

  /** The loop over `AlertaStock.objects.filter(estado='ACTIVA')[:10]`, building one row per alert in order. */
  method FilasPrimerasActivas(alertas: seq<AlertaStock>) returns (recogidas: seq<FilaDashboard>)
    ensures |recogidas| <= 10
    ensures recogidas == FilasDashboard(PrimerasActivas(alertas))
  {
    ghost var seleccion: seq<AlertaStock> := [];
    recogidas := [];
    var i := 0;
    while i < |alertas| && |recogidas| < 10
      invariant 0 <= i <= |alertas|
      invariant seleccion == Activas(alertas[..i])
      invariant recogidas == FilasDashboard(seleccion)
      invariant |recogidas| <= 10
    {
      var alerta := alertas[i];
      ActivasPaso(alertas, i);
      if alerta.estado == Activa {
        FilasDashboardAgregar(seleccion, alerta);
        recogidas := recogidas + [FilaDeAlerta(alerta)];
        seleccion := seleccion + [alerta];
      }
      i := i + 1;
    }
    PrimerasActivasAlParar(alertas, i);
  }

  /** One more alert of the table is selected exactly when it is active. */
  lemma ActivasPaso(alertas: seq<AlertaStock>, i: nat)
    requires i < |alertas|
    ensures Activas(alertas[..i + 1]) == if alertas[i].estado == Activa then Activas(alertas[..i]) + [alertas[i]] else Activas(alertas[..i])
  {
    FiltrarPaso(alertas, i, EsActiva);
  }

  lemma FilasDashboardAgregar(s: seq<AlertaStock>, a: AlertaStock)
    ensures FilasDashboard(s + [a]) == FilasDashboard(s) + [FilaDeAlerta(a)]
  {
    assert (s + [a])[..|s|] == s;
  }

  /** Stopping at the end of the table, or once ten active alerts are selected, leaves exactly the first ten. */
  lemma PrimerasActivasAlParar(alertas: seq<AlertaStock>, i: nat)
    requires i <= |alertas|
    requires |Activas(alertas[..i])| <= 10
    requires i == |alertas| || |Activas(alertas[..i])| == 10
    ensures Activas(alertas[..i]) == PrimerasActivas(alertas)
  {
    FiltrarPrefijo(alertas, i, EsActiva);
    if i == |alertas| {
      assert alertas[..i] == alertas;
    }
  }

  // ---------------------------------------------------------------------------
  // The alerts page

  /** An alerts-page row; the percentage is kept exact, as the fraction num / den. */
  datatype FilaAlerta = FilaAlerta(alerta: AlertaStock, num: int, den: int, critico: bool)

  /** stock_actual / stock_minimo * 100 without truncation (0 when the minimum is not positive); critical below 50. */
  function FilaPagina(a: AlertaStock): (f: FilaAlerta)
    ensures f.alerta == a && f.den > 0
    ensures f.critico <==> f.num < 50 * f.den
    ensures a.stockMinimo > 0 ==> f.num * a.stockMinimo == a.stockActual * 100 * f.den
    ensures a.stockMinimo <= 0 ==> f.num == 0
  {
    var num := if a.stockMinimo > 0 then a.stockActual * 100 else 0;
    var den := if a.stockMinimo > 0 then a.stockMinimo else 1;
    FilaAlerta(a, num, den, num < 50 * den)
  }

  /** The two pages agree on which alerts are critical, although only the dashboard truncates. */
  lemma CriticoCoincide(a: AlertaStock)
    ensures FilaPagina(a).critico <==> FilaDeAlerta(a).critico
  {
    if a.stockMinimo > 0 {
      TruncDivUmbral(a.stockActual * 100, a.stockMinimo, 50);
    }
  }

  function FilasPagina(alertas: seq<AlertaStock>): (r: seq<FilaAlerta>)
    ensures |r| == |alertas|
    ensures forall i :: 0 <= i < |r| ==> r[i] == FilaPagina(alertas[i])
  {
    if alertas == [] then [] else FilasPagina(alertas[..|alertas| - 1]) + [FilaPagina(alertas[|alertas| - 1])]
  }

  /** The key as written, (0 if critico else 1, fecha_creacion) with reverse=True: ascending on the negated key. */
  function ClaveAlertasEscrita(f: FilaAlerta): (int, int) {
    (-(if f.critico then 0 else 1), 0 - f.alerta.fechaCreacion as int)
  }

  /** The order the code's comment describes: critical first, newest first within each group. */
  function ClaveAlertasCorregida(f: FilaAlerta): (int, int) {
    (if f.critico then 0 else 1, 0 - f.alerta.fechaCreacion as int)
  }

  /**
   * As written, the alerts page lists every non-critical alert before any
   * critical one (newest first within each group): the reverse of what its
   * comment promises.
   */
  lemma AlertasOrdenEscrito(filas: seq<FilaAlerta>)
    requires Ordenada(filas, ClaveAlertasEscrita)
    ensures forall i, j :: 0 <= i < j < |filas| && filas[i].critico ==> filas[j].critico
    ensures forall i, j :: 0 <= i < j < |filas| && filas[i].critico == filas[j].critico ==>
              filas[i].alerta.fechaCreacion >= filas[j].alerta.fechaCreacion
  {
    forall i, j | 0 <= i < j < |filas|
      ensures filas[i].critico ==> filas[j].critico
      ensures filas[i].critico == filas[j].critico ==> filas[i].alerta.fechaCreacion >= filas[j].alerta.fechaCreacion
    {
      assert ClaveMenorIgual(ClaveAlertasEscrita(filas[i]), ClaveAlertasEscrita(filas[j]));
    }
  }

  /** With the corrected key, critical alerts come first, newest first within each group. */
  lemma AlertasOrdenCorregido(filas: seq<FilaAlerta>)
    requires Ordenada(filas, ClaveAlertasCorregida)
    ensures forall i, j :: 0 <= i < j < |filas| && filas[j].critico ==> filas[i].critico
    ensures forall i, j :: 0 <= i < j < |filas| && filas[i].critico == filas[j].critico ==>
              filas[i].alerta.fechaCreacion >= filas[j].alerta.fechaCreacion
  {
    forall i, j | 0 <= i < j < |filas|
      ensures filas[j].critico ==> filas[i].critico
      ensures filas[i].critico == filas[j].critico ==> filas[i].alerta.fechaCreacion >= filas[j].alerta.fechaCreacion
    {
      assert ClaveMenorIgual(ClaveAlertasCorregida(filas[i]), ClaveAlertasCorregida(filas[j]));
    }
  }

  /** The alerts page as written: a row for every active alert, sorted with the written key. */
  method AlertasStock(alertas: seq<AlertaStock>) returns (filas: seq<FilaAlerta>)
    ensures Ordenada(filas, ClaveAlertasEscrita)
    ensures multiset(filas) == multiset(FilasPagina(Activas(alertas)))
  {
    ghost var seleccion: seq<AlertaStock> := [];
    var lista: seq<FilaAlerta> := [];
    var i := 0;
    while i < |alertas|
      invariant 0 <= i <= |alertas|
      invariant seleccion == Activas(alertas[..i])
      invariant lista == FilasPagina(seleccion)
    {
      var alerta := alertas[i];
      ActivasPaso(alertas, i);
      if alerta.estado == Activa {
        FilasPaginaAgregar(seleccion, alerta);
        lista := lista + [FilaPagina(alerta)];
        seleccion := seleccion + [alerta];
      }
      i := i + 1;
    }
    assert alertas[..i] == alertas;
    filas := Ordenar(lista, ClaveAlertasEscrita);
  }

  lemma FilasPaginaAgregar(s: seq<AlertaStock>, a: AlertaStock)
    ensures FilasPagina(s + [a]) == FilasPagina(s) + [FilaPagina(a)]
  {
    assert (s + [a])[..|s|] == s;
  }

  /** The alerts page with the order its comment describes. */
  function AlertasStockCorregido(alertas: seq<AlertaStock>): (filas: seq<FilaAlerta>)
    ensures Ordenada(filas, ClaveAlertasCorregida)
    ensures multiset(filas) == multiset(FilasPagina(Activas(alertas)))
  {
    Ordenar(FilasPagina(Activas(alertas)), ClaveAlertasCorregida)
  }

  /** Every row of either page is for an active alert of the table. */
  lemma FilasSonActivas(alertas: seq<AlertaStock>, filas: seq<FilaAlerta>, k: nat)
    requires multiset(filas) == multiset(FilasPagina(Activas(alertas)))
    requires k < |filas|
    ensures filas[k].alerta.estado == Activa && filas[k].alerta in alertas
  {
    var fuente := FilasPagina(Activas(alertas));
    assert filas[k] in multiset(fuente);
    var m :| 0 <= m < |fuente| && fuente[m] == filas[k];
  }

  // ---------------------------------------------------------------------------
  // Stock per area (dashboard)

  datatype FilaArea = FilaArea(area: Area, totalProductos: nat, valorStock: Centesimos)

  predicate AreaActiva(a: Area) {
    a.activo
  }

  /**
   * The dashboard's per-area panel: for every active area in queryset order,
   * the number of its stock rows and the sum of their quantities, Decimal 0
   * when it has none.
   */
  method StockPorArea(areas: seq<Area>, stocks: seq<Stock>) returns (filas: seq<FilaArea>)
    ensures |filas| == |Filtrar(areas, AreaActiva)|
    ensures forall k :: 0 <= k < |filas| ==>
              && filas[k].area == Filtrar(areas, AreaActiva)[k]
              && filas[k].totalProductos == Cuenta(stocks, DelArea(filas[k].area.id))
              && filas[k].valorStock == Suma(stocks, DelArea(filas[k].area.id))
              && (filas[k].totalProductos == 0 ==> filas[k].valorStock == 0)
              && (CantidadesNoNegativas(stocks) ==> filas[k].valorStock >= 0)
  {
    ghost var elegidas: seq<Area> := [];
    filas := [];
    var i := 0;
    while i < |areas|
      invariant 0 <= i <= |areas|
      invariant elegidas == Filtrar(areas[..i], AreaActiva)
      invariant |filas| == |elegidas|
      invariant forall k :: 0 <= k < |filas| ==> filas[k] == FilaDeArea(elegidas[k], stocks)
    {
      var area := areas[i];
      FiltrarPaso(areas, i, AreaActiva);
      if area.activo {
        filas := filas + [FilaDeArea(area, stocks)];
        elegidas := elegidas + [area];
      }
      i := i + 1;
    }
    assert areas[..i] == areas;
  }

  /** An area's row: its stock-row count and quantity sum; the sum is 0 without rows and not negative over valid rows. */
  function FilaDeArea(area: Area, stocks: seq<Stock>): (f: FilaArea)
    ensures f.area == area
    ensures f.totalProductos == Cuenta(stocks, DelArea(area.id)) && f.valorStock == Suma(stocks, DelArea(area.id))
    ensures f.totalProductos == 0 ==> f.valorStock == 0
    ensures CantidadesNoNegativas(stocks) ==> f.valorStock >= 0
  {
    SumaDeArea(stocks, area.id);
    FilaArea(area, Cuenta(stocks, DelArea(area.id)), Suma(stocks, DelArea(area.id)))
  }

  lemma SumaDeArea(stocks: seq<Stock>, area: Id)
    ensures Cuenta(stocks, DelArea(area)) == 0 ==> Suma(stocks, DelArea(area)) == 0
    ensures CantidadesNoNegativas(stocks) ==> Suma(stocks, DelArea(area)) >= 0
  {
    if Cuenta(stocks, DelArea(area)) == 0 {
      SumaSinFilas(stocks, DelArea(area));
    }
    if CantidadesNoNegativas(stocks) {
      SumaNoNegativa(stocks, DelArea(area));
    }
  }

  // ---------------------------------------------------------------------------
  // Product list filter

  /** A query parameter that is present and not empty. */
  predicate Veraz(s: Option<string>) {
    s.Some? && s.value != ""
  }

  /** `stocks__area_id=id`: the product has a stock row in that area. */
  predicate StockEnArea(stocks: seq<Stock>, p: Producto, area: int) {
    exists i :: 0 <= i < |stocks| && stocks[i].producto == p.id && stocks[i].area == area
  }

  /** `stocks__area__nombre=nombre`: the product has a stock row in an area (active or not) with that name. */
  predicate StockEnAreaLlamada(stocks: seq<Stock>, areas: seq<Area>, p: Producto, nombre: string) {
    exists i, k :: 0 <= i < |stocks| && 0 <= k < |areas| &&
      stocks[i].producto == p.id && areas[k].id == stocks[i].area && areas[k].nombre == nombre
  }

  /** The area filter: none without a parameter; by id when it reads as an integer; by area name otherwise. */
  predicate PasaArea(stocks: seq<Stock>, areas: seq<Area>, areaParam: Option<string>, p: Producto) {
    !Veraz(areaParam) ||
    match ParseInt(areaParam.value)
    case Some(id) => StockEnArea(stocks, p, id)
    case None => StockEnAreaLlamada(stocks, areas, p, areaParam.value)
  }

  /** The search filter: name or code contains the term, ignoring case. */
  predicate PasaBusqueda(q: Option<string>, p: Producto) {
    !Veraz(q) || IContains(p.nombre, q.value) || IContains(p.codigo, q.value)
  }

  function Listado(stocks: seq<Stock>, areas: seq<Area>, areaParam: Option<string>, q: Option<string>): Producto -> bool {
    (p: Producto) => p.activo && PasaArea(stocks, areas, areaParam, p) && PasaBusqueda(q, p)
  }

  function ActivaLlamada(nombre: string): Area -> bool {
    (a: Area) => a.activo && a.nombre == nombre
  }

  /** `Area.objects.get(nombre=..., activo=True)`: none found is tolerated; several is an error. */
  function AreaLlamada(areas: seq<Area>, nombre: string): (r: Result<Option<Id>, Fallo>)
    ensures r.Err? <==> |Filtrar(areas, ActivaLlamada(nombre))| > 1
    ensures r == Ok(None) <==> forall k :: 0 <= k < |areas| ==> !(areas[k].activo && areas[k].nombre == nombre)
    ensures r.Ok? && r.value.Some? ==> exists k :: 0 <= k < |areas| && areas[k].activo && areas[k].nombre == nombre && areas[k].id == r.value.value
  {
    var encontradas := Filtrar(areas, ActivaLlamada(nombre));
    if |encontradas| == 0 then Ok(None)
    else if |encontradas| == 1 then
      assert encontradas[0] in areas;
      Ok(Some(encontradas[0].id))
    else
      assert encontradas[0] in areas;
      Err(VariosResultados)
  }

  /** The database's order on text: code point by code point, a prefix first. */
  predicate TextoMenorIgual(a: string, b: string)
    decreases |a|
  {
    a == [] || (b != [] && (a[0] < b[0] || (a[0] == b[0] && TextoMenorIgual(a[1..], b[1..]))))
  }

  lemma {:induction false} TextoTotal(a: string, b: string)
    ensures TextoMenorIgual(a, b) || TextoMenorIgual(b, a)
    decreases |a|
  {
    if a != [] && b != [] && a[0] == b[0] {
      TextoTotal(a[1..], b[1..]);
    }
  }

  lemma {:induction false} TextoAntisimetrico(a: string, b: string)
    requires TextoMenorIgual(a, b) && TextoMenorIgual(b, a)
    ensures a == b
    decreases |a|
  {
    if a != [] {
      TextoAntisimetrico(a[1..], b[1..]);
      assert a == [a[0]] + a[1..] && b == [b[0]] + b[1..];
    }
  }

  lemma {:induction false} TextoTransitivo(a: string, b: string, c: string)
    requires TextoMenorIgual(a, b) && TextoMenorIgual(b, c)
    ensures TextoMenorIgual(a, c)
    decreases |a|
  {
    if a != [] && a[0] == b[0] && b[0] == c[0] {
      TextoTransitivo(a[1..], b[1..], c[1..]);
    }
  }

  /** `order_by('categoria__nombre', 'nombre')`: by category name, then by product name. */
  predicate ProductoAntes(p: Producto, q: Producto) {
    TextoMenorIgual(p.categoria, q.categoria) && (p.categoria == q.categoria ==> TextoMenorIgual(p.nombre, q.nombre))
  }

  lemma ProductoTotal(p: Producto, q: Producto)
    ensures ProductoAntes(p, q) || ProductoAntes(q, p)
  {
    TextoTotal(p.categoria, q.categoria);
    TextoTotal(p.nombre, q.nombre);
  }

  lemma ProductoTransitivo(p: Producto, q: Producto, r: Producto)
    requires ProductoAntes(p, q) && ProductoAntes(q, r)
    ensures ProductoAntes(p, r)
  {
    TextoTransitivo(p.categoria, q.categoria, r.categoria);
    if p.categoria == r.categoria {
      TextoAntisimetrico(p.categoria, q.categoria);
      TextoTransitivo(p.nombre, q.nombre, r.nombre);
    }
  }

  ghost predicate PorCategoria(s: seq<Producto>) {
    forall i, j :: 0 <= i < j < |s| ==> ProductoAntes(s[i], s[j])
  }

  /** Places p after the trailing products that sort after it. */
  function InsertarProducto(p: Producto, s: seq<Producto>): (r: seq<Producto>)
    requires PorCategoria(s)
    ensures PorCategoria(r)
    ensures multiset(r) == multiset(s) + multiset{p}
  {
    if s == [] then [p]
    else
      var ultimo := s[|s| - 1];
      var previos := s[..|s| - 1];
      assert s == previos + [ultimo];
      if ProductoAntes(ultimo, p) then
        AntesDelUltimo(s, p);
        s + [p]
      else
        ProductoTotal(ultimo, p);
        var r0 := InsertarProducto(p, previos);
        ProductoCotaPorUltimo(p, previos, ultimo, r0);
        r0 + [ultimo]
  }

  /** Every product of a sorted list sorts no later than one its last product precedes. */
  lemma AntesDelUltimo(s: seq<Producto>, p: Producto)
    requires s != [] && PorCategoria(s) && ProductoAntes(s[|s| - 1], p)
    ensures forall i :: 0 <= i < |s| ==> ProductoAntes(s[i], p)
  {
    forall i | 0 <= i < |s| ensures ProductoAntes(s[i], p) {
      if i < |s| - 1 {
        ProductoTransitivo(s[i], s[|s| - 1], p);
      }
    }
  }

  lemma ProductoCotaPorUltimo(p: Producto, previos: seq<Producto>, ultimo: Producto, r0: seq<Producto>)
    requires PorCategoria(previos + [ultimo])
    requires ProductoAntes(p, ultimo)
    requires multiset(r0) == multiset(previos) + multiset{p}
    ensures forall i :: 0 <= i < |r0| ==> ProductoAntes(r0[i], ultimo)
  {
    var s := previos + [ultimo];
    forall i | 0 <= i < |r0| ensures ProductoAntes(r0[i], ultimo) {
      assert r0[i] in multiset(r0);
      if r0[i] != p {
        assert r0[i] in multiset(previos);
        var k :| 0 <= k < |previos| && previos[k] == r0[i];
        assert s[k] == r0[i] && s[|previos|] == ultimo;
      }
    }
  }

  /** The queryset's final order_by: sorted by category name then name, and a permutation of its input. */
  function OrdenarProductos(xs: seq<Producto>): (r: seq<Producto>)
    ensures PorCategoria(r)
    ensures multiset(r) == multiset(xs)
  {
    if xs == [] then []
    else
      assert xs == xs[..|xs| - 1] + [xs[|xs| - 1]];
      InsertarProducto(xs[|xs| - 1], OrdenarProductos(xs[..|xs| - 1]))
  }

  datatype ListaProductos = ListaProductos(productos: seq<Producto>, areaSeleccionada: Option<int>)

  /** The products of the page: the active ones passing both filters, sorted by category name then name. */
  function ListaFiltrada(productos: seq<Producto>, stocks: seq<Stock>, areas: seq<Area>,
                         areaParam: Option<string>, q: Option<string>): (lista: seq<Producto>)
    ensures PorCategoria(lista)
    ensures multiset(lista) == multiset(Filtrar(productos, Listado(stocks, areas, areaParam, q)))
    ensures forall i :: 0 <= i < |lista| ==>
              lista[i] in productos && lista[i].activo &&
              PasaArea(stocks, areas, areaParam, lista[i]) && PasaBusqueda(q, lista[i])
    ensures forall i :: 0 <= i < |productos| ==>
              (productos[i].activo && PasaArea(stocks, areas, areaParam, productos[i]) && PasaBusqueda(q, productos[i])
               ==> productos[i] in lista)
  {
    var elegidos := Filtrar(productos, Listado(stocks, areas, areaParam, q));
    var lista := OrdenarProductos(elegidos);
    assert forall i :: 0 <= i < |lista| ==> lista[i] in multiset(elegidos);
    assert forall i :: 0 <= i < |productos| && Listado(stocks, areas, areaParam, q)(productos[i]) ==> productos[i] in multiset(lista);
    lista
  }

  /**
   * The selected area: none without a parameter; the parameter itself when
   * it reads as an integer; otherwise the id of the single active area with
   * that name, none when there is none, and an error when there are several.
   */
  function AreaSeleccionada(areas: seq<Area>, areaParam: Option<string>): (r: Result<Option<int>, Fallo>)
    ensures r.Err? <==> Veraz(areaParam) && ParseInt(areaParam.value).None? && |Filtrar(areas, ActivaLlamada(areaParam.value))| > 1
    ensures r.Ok? && !Veraz(areaParam) ==> r.value == None
    ensures r.Ok? && Veraz(areaParam) && ParseInt(areaParam.value).Some? ==> r.value == ParseInt(areaParam.value)
    ensures r.Ok? && Veraz(areaParam) && ParseInt(areaParam.value).None? ==>
              (r.value.None? <==> forall k :: 0 <= k < |areas| ==> !(areas[k].activo && areas[k].nombre == areaParam.value))
    ensures r.Ok? && Veraz(areaParam) && ParseInt(areaParam.value).None? && r.value.Some? ==>
              |Filtrar(areas, ActivaLlamada(areaParam.value))| == 1 &&
              exists k :: 0 <= k < |areas| && areas[k].activo && areas[k].nombre == areaParam.value && areas[k].id == r.value.value
  {
    if !Veraz(areaParam) then Ok(None)
    else
      match ParseInt(areaParam.value)
      case Some(id) => Ok(Some(id))
      case None =>
        match AreaLlamada(areas, areaParam.value)
        case Err(e) => Err(e)
        case Ok(seleccion) => Ok(if seleccion.Some? then Some(seleccion.value as int) else None)
  }

  /**
   * lista_productos: the page's products and the selected area; an area name
   * shared by several active areas makes the lookup fail.
   */
  function FiltrarProductos(productos: seq<Producto>, stocks: seq<Stock>, areas: seq<Area>,
                            areaParam: Option<string>, q: Option<string>): (r: Result<ListaProductos, Fallo>)
    ensures r.Err? <==> Veraz(areaParam) && ParseInt(areaParam.value).None? && |Filtrar(areas, ActivaLlamada(areaParam.value))| > 1
    ensures r.Ok? ==> r.value.productos == ListaFiltrada(productos, stocks, areas, areaParam, q)
    ensures r.Ok? ==> Ok(r.value.areaSeleccionada) == AreaSeleccionada(areas, areaParam)
  {
    match AreaSeleccionada(areas, areaParam)
    case Err(e) => Err(e)
    case Ok(seleccion) => Ok(ListaProductos(ListaFiltrada(productos, stocks, areas, areaParam, q), seleccion))
  }

  /** A parameter that is the decimal form of an id filters by that id, never by name. */
  lemma FiltroPorId(stocks: seq<Stock>, areas: seq<Area>, id: int, p: Producto)
    ensures PasaArea(stocks, areas, Some(IntToString(id)), p) <==> StockEnArea(stocks, p, id)
  {
    ParseIntRoundTrip(id);
  }

  /** A parameter that starts with anything but a digit or a sign filters by area name. */
  lemma FiltroPorNombre(stocks: seq<Stock>, areas: seq<Area>, nombre: string, p: Producto)
    requires nombre != [] && !IsDigit(nombre[0]) && nombre[0] != '-' && nombre[0] != '+'
    ensures PasaArea(stocks, areas, Some(nombre), p) <==> StockEnAreaLlamada(stocks, areas, p, nombre)
  {
    assert ParseNat(nombre).None?;
  }

  /** The search does not depend on the case of the term. */
  lemma BusquedaSinMayusculas(q: string, p: Producto)
    ensures PasaBusqueda(Some(Lower(q)), p) == PasaBusqueda(Some(q), p)
  {
    IContainsSinMayusculas(p.nombre, q);
    IContainsSinMayusculas(p.codigo, q);
  }
}
