/**
 * The admin customisations of inventario/admin.py that compute or change
 * something: the bulk alert actions, the highlighted stock total of the
 * product list, and the stamping of the registering user on new entries.
 */
module InventarioAdmin {
  import opened Wrappers
  import opened Texto
  import opened InventarioModels

  // ---------------------------------------------------------------------------
  // Bulk alert actions

  /**
   * The action's queryset: the ticked rows (by position in the table) as far
   * as they match the change list's estado filter, if one is applied.
   */
  predicate EnQueryset(a: AlertaStock, i: nat, seleccion: set<nat>, filtro: Option<EstadoAlerta>) {
    i in seleccion && (filtro.None? || a.estado == filtro.value)
  }

  /** `queryset.update(estado=..., resuelto_por=user)` on one row: nothing else, fecha_resolucion included, is touched. */
  function Marcada(a: AlertaStock, estado: EstadoAlerta, usuario: Id): (r: AlertaStock)
    ensures r.estado == estado && r.resueltoPor == Some(usuario)
    ensures r.(estado := a.estado, resueltoPor := a.resueltoPor) == a
  {
    a.(estado := estado, resueltoPor := Some(usuario))
  }

  /** The alert table after the update. */
  function Marcar(alertas: seq<AlertaStock>, seleccion: set<nat>, filtro: Option<EstadoAlerta>,
                  estado: EstadoAlerta, usuario: Id): (r: seq<AlertaStock>)
    ensures |r| == |alertas|
  {
    seq(|alertas|, i requires 0 <= i < |alertas| =>
      if EnQueryset(alertas[i], i, seleccion, filtro) then Marcada(alertas[i], estado, usuario) else alertas[i])
  }

  /** The positions of the rows the queryset matches. */
  ghost function PosicionesQueryset(alertas: seq<AlertaStock>, seleccion: set<nat>, filtro: Option<EstadoAlerta>): set<nat> {
    set i: nat | i < |alertas| && EnQueryset(alertas[i], i, seleccion, filtro)
  }

  /** How many rows of the table match the queryset (a COUNT query). */
  function ContarQueryset(alertas: seq<AlertaStock>, seleccion: set<nat>, filtro: Option<EstadoAlerta>): (n: nat)
    ensures n == |PosicionesQueryset(alertas, seleccion, filtro)|
  {
    if alertas == [] then
      assert PosicionesQueryset(alertas, seleccion, filtro) == {};
      0
    else
      var i := |alertas| - 1;
      PosicionesUltima(alertas, seleccion, filtro);
      ContarQueryset(alertas[..i], seleccion, filtro) + (if EnQueryset(alertas[i], i, seleccion, filtro) then 1 else 0)
  }

  /** The matched positions of a table are those of the table without its last row, plus the last one if it matches. */
  lemma PosicionesUltima(alertas: seq<AlertaStock>, seleccion: set<nat>, filtro: Option<EstadoAlerta>)
    requires alertas != []
    ensures var k := |alertas| - 1;
            && k !in PosicionesQueryset(alertas[..k], seleccion, filtro)
            && PosicionesQueryset(alertas, seleccion, filtro)
               == PosicionesQueryset(alertas[..k], seleccion, filtro) + (if EnQueryset(alertas[k], k, seleccion, filtro) then {k} else {})
  {
    var k := |alertas| - 1;
    assert forall i :: 0 <= i < k ==> alertas[..k][i] == alertas[i];
  }

  /**
   * Every row in the queryset now has the new state and the acting user as
   * resolver, whatever its state was; every other row is unchanged; no row's
   * resolution date or any other field changes.
   */
  lemma MarcarEfecto(alertas: seq<AlertaStock>, seleccion: set<nat>, filtro: Option<EstadoAlerta>,
                     estado: EstadoAlerta, usuario: Id, i: nat)
    requires i < |alertas|
    ensures var r := Marcar(alertas, seleccion, filtro, estado, usuario);
            && (EnQueryset(alertas[i], i, seleccion, filtro) ==> r[i].estado == estado && r[i].resueltoPor == Some(usuario))
            && (!EnQueryset(alertas[i], i, seleccion, filtro) ==> r[i] == alertas[i])
            && r[i].fechaResolucion == alertas[i].fechaResolucion
            && r[i].(estado := alertas[i].estado, resueltoPor := alertas[i].resueltoPor) == alertas[i]
  {
  }

  /** Applying the same action twice to the same selection is applying it once. */
  lemma MarcarIdempotente(alertas: seq<AlertaStock>, seleccion: set<nat>, filtro: Option<EstadoAlerta>,
                          estado: EstadoAlerta, usuario: Id)
    ensures var una := Marcar(alertas, seleccion, filtro, estado, usuario);
            Marcar(una, seleccion, filtro, estado, usuario) == una
  {
    var una := Marcar(alertas, seleccion, filtro, estado, usuario);
    var dos := Marcar(una, seleccion, filtro, estado, usuario);
    forall i | 0 <= i < |alertas| ensures dos[i] == una[i] {
    }
  }

  /**
   * As written, the confirmation message counts the queryset again after
   * the update. Under the change-list filter estado=ACTIVA, the rows just
   * resolved or ignored no longer match it, so the message reports 0 for
   * any selection.
   */
  lemma MensajeEscritoCuentaCero(alertas: seq<AlertaStock>, seleccion: set<nat>, estado: EstadoAlerta, usuario: Id)
    requires estado != Activa
    ensures ContarQueryset(Marcar(alertas, seleccion, Some(Activa), estado, usuario), seleccion, Some(Activa)) == 0
  {
    var r := Marcar(alertas, seleccion, Some(Activa), estado, usuario);
    forall i | 0 <= i < |r| ensures !EnQueryset(r[i], i, seleccion, Some(Activa)) {
    }
    SinCoincidencias(r, seleccion, Some(Activa));
  }

  lemma {:induction false} SinCoincidencias(alertas: seq<AlertaStock>, seleccion: set<nat>, filtro: Option<EstadoAlerta>)
    requires forall i :: 0 <= i < |alertas| ==> !EnQueryset(alertas[i], i, seleccion, filtro)
    ensures ContarQueryset(alertas, seleccion, filtro) == 0
  {
    if alertas != [] {
      var previos := alertas[..|alertas| - 1];
      assert forall i :: 0 <= i < |previos| ==> previos[i] == alertas[i];
      SinCoincidencias(previos, seleccion, filtro);
    }
  }

  /**
   * The count the message means, taken before the update: it is the number
   * of rows the update wrote, each of which now has the new state and the
   * acting user, every other row being left as it was; so a selection with a
   * matching row reports at least one.
   */
  lemma MensajeCorregidoCuenta(alertas: seq<AlertaStock>, seleccion: set<nat>, filtro: Option<EstadoAlerta>,
                               estado: EstadoAlerta, usuario: Id)
    ensures var r := Marcar(alertas, seleccion, filtro, estado, usuario);
            var escritas := PosicionesQueryset(alertas, seleccion, filtro);
            && ContarQueryset(alertas, seleccion, filtro) == |escritas|
            && (forall i :: i in escritas ==> i < |r| && r[i] == Marcada(alertas[i], estado, usuario))
            && (forall i :: 0 <= i < |r| && i !in escritas ==> r[i] == alertas[i])
    ensures (exists i :: 0 <= i < |alertas| && EnQueryset(alertas[i], i, seleccion, filtro)) ==>
              ContarQueryset(alertas, seleccion, filtro) >= 1
  {
    if i :| 0 <= i < |alertas| && EnQueryset(alertas[i], i, seleccion, filtro) {
      assert i in PosicionesQueryset(alertas, seleccion, filtro);
    }
  }

  /** `queryset.update(estado=..., resuelto_por=user)`, in place, row by row. */
  method Actualizar(db: Inventario, seleccion: set<nat>, filtro: Option<EstadoAlerta>, estado: EstadoAlerta, usuario: Id)
    modifies db
    ensures db.alertas == Marcar(old(db.alertas), seleccion, filtro, estado, usuario)
    ensures db.Estado() == old(db.Estado()).(alertas := db.alertas)
  {
    ghost var antes := db.alertas;
    var i := 0;
    while i < |db.alertas|
      invariant 0 <= i <= |db.alertas| == |antes|
      invariant db.Estado() == old(db.Estado()).(alertas := db.alertas)
      invariant forall k :: 0 <= k < i ==> db.alertas[k] == Marcar(antes, seleccion, filtro, estado, usuario)[k]
      invariant forall k :: i <= k < |antes| ==> db.alertas[k] == antes[k]
    {
      var a := db.alertas[i];
      if i in seleccion && (filtro.None? || a.estado == filtro.value) {
        db.alertas := db.alertas[i := a.(estado := estado, resueltoPor := Some(usuario))];
      }
      i := i + 1;
    }
  }

  /**
   * marcar_como_resuelta / marcar_como_ignorada: update every row of the
   * queryset in place, then report the queryset's count, taken again.
   */
  method MarcarComo(db: Inventario, seleccion: set<nat>, filtro: Option<EstadoAlerta>, estado: EstadoAlerta, usuario: Id)
    returns (mensaje: nat)
    modifies db
    ensures db.alertas == Marcar(old(db.alertas), seleccion, filtro, estado, usuario)
    ensures db.Estado() == old(db.Estado()).(alertas := db.alertas)
    ensures mensaje == ContarQueryset(db.alertas, seleccion, filtro)
  {
    Actualizar(db, seleccion, filtro, estado, usuario);
    mensaje := ContarQueryset(db.alertas, seleccion, filtro);
  }

  /** The action with the message corrected: the queryset is counted before the update, so it reports the rows written. */
  method MarcarComoCorregido(db: Inventario, seleccion: set<nat>, filtro: Option<EstadoAlerta>, estado: EstadoAlerta, usuario: Id)
    returns (mensaje: nat)
    modifies db
    ensures db.alertas == Marcar(old(db.alertas), seleccion, filtro, estado, usuario)
    ensures db.Estado() == old(db.Estado()).(alertas := db.alertas)
    ensures mensaje == |PosicionesQueryset(old(db.alertas), seleccion, filtro)|
  {
    mensaje := ContarQueryset(db.alertas, seleccion, filtro);
    Actualizar(db, seleccion, filtro, estado, usuario);
  }

  /** The two actions are the same update with a different target state. */
  method MarcarComoResuelta(db: Inventario, seleccion: set<nat>, filtro: Option<EstadoAlerta>, usuario: Id) returns (mensaje: nat)
    modifies db
    ensures db.alertas == Marcar(old(db.alertas), seleccion, filtro, Resuelta, usuario)
    ensures db.Estado() == old(db.Estado()).(alertas := db.alertas)
    ensures mensaje == ContarQueryset(db.alertas, seleccion, filtro)
  {
    mensaje := MarcarComo(db, seleccion, filtro, Resuelta, usuario);
  }

  method MarcarComoIgnorada(db: Inventario, seleccion: set<nat>, filtro: Option<EstadoAlerta>, usuario: Id) returns (mensaje: nat)
    modifies db
    ensures db.alertas == Marcar(old(db.alertas), seleccion, filtro, Ignorada, usuario)
    ensures db.Estado() == old(db.Estado()).(alertas := db.alertas)
    ensures mensaje == ContarQueryset(db.alertas, seleccion, filtro)
  {
    mensaje := MarcarComo(db, seleccion, filtro, Ignorada, usuario);
  }

  // ---------------------------------------------------------------------------
  // Product list: the stock total column

  /** get_unidad_medida_display: the label of a unit code; a code outside the choices shows as itself. */
  function EtiquetaUnidad(codigo: string): string {
    if codigo == "UN" then "Unidad"
    else if codigo == "KG" then "Kilogramo"
    else if codigo == "LT" then "Litro"
    else if codigo == "ML" then "Mililitro"
    else if codigo == "GR" then "Gramo"
    else if codigo == "PAQ" then "Paquete"
    else if codigo == "CAJ" then "Caja"
    else if codigo == "BOT" then "Botella"
    else codigo
  }

  /** What the column shows: the total, the lower-cased unit label, and whether it is set in bold red. */
  datatype CeldaStock = CeldaStock(total: Centesimos, unidad: string, resaltado: bool)

  /** ProductoAdmin.stock_total_display: highlighted exactly when the product is low on stock. */
  function StockTotalDisplay(stocks: seq<Stock>, prod: Producto): (c: CeldaStock)
    ensures c.resaltado <==> TieneStockBajo(stocks, prod)
    ensures c.resaltado <==> c.total <= prod.stockMinimo
    ensures c.unidad == Lower(EtiquetaUnidad(prod.unidad))
  {
    CeldaStock(StockTotal(stocks, prod.id), Lower(EtiquetaUnidad(prod.unidad)), TieneStockBajo(stocks, prod))
  }

  /** A product with no stock rows shows 0 and, its minimum being non-negative, is highlighted. */
  lemma SinStockResaltado(stocks: seq<Stock>, prod: Producto)
    requires forall i :: 0 <= i < |stocks| ==> stocks[i].producto != prod.id
    requires prod.stockMinimo >= 0
    ensures StockTotalDisplay(stocks, prod).total == 0 && StockTotalDisplay(stocks, prod).resaltado
  {
    StockTotalSinFilas(stocks, prod.id);
  }

  // ---------------------------------------------------------------------------
  // Entries: registering user

  /** EntradaStockAdmin.save_model: a new entry takes the acting user as registrado_por; an edited one keeps its own. */
  function ConRegistrador(e: EntradaStock, cambio: bool, usuario: Id): (r: EntradaStock)
    ensures !cambio ==> r.registradoPor == usuario
    ensures cambio ==> r == e
    ensures r.(registradoPor := e.registradoPor) == e
  {
    if !cambio then e.(registradoPor := usuario) else e
  }

  /** A later edit, by whichever user, never changes who registered the entry. */
  lemma RegistradorPermanece(e: EntradaStock, creador: Id, editor: Id)
    ensures ConRegistrador(ConRegistrador(e, false, creador), true, editor).registradoPor == creador
  {
  }
}
