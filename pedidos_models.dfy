/**
 * Purchase orders of pedidos/models.py: order numbering on first save, the
 * arithmetic of order lines (subtotal, pending quantity, completeness) and
 * the constraints on lines, with receptions recorded against them.
 */
module PedidosModels {
  import opened Wrappers
  import opened Texto
  import opened InventarioModels

  datatype EstadoPedido = Borrador | Enviado | Confirmado | Parcial | Completado | Cancelado

  /** A point in time, of which the numbering only reads the year. */
  datatype Fecha = Fecha(anio: nat, instante: nat)

  datatype Pedido = Pedido(
    id: Id,
    numero: string,
    proveedor: Id,
    fechaPedido: Option<Fecha>,
    estado: EstadoPedido,
    creadoPor: Id)

  datatype DetallePedido = DetallePedido(
    id: Id,
    pedido: Id,
    producto: Id,
    cantidadPedida: Centesimos,
    cantidadRecibida: Centesimos,
    precioUnitario: Centesimos)

  datatype RecepcionPedido = RecepcionPedido(id: Id, pedido: Id, recibidoPor: Id, observaciones: Option<string>)

  datatype DetalleRecepcion = DetalleRecepcion(recepcion: Id, detallePedido: Id, cantidadRecibida: Centesimos)

  // ---------------------------------------------------------------------------
  // Numbering

  /** The fixed part of an order number: "PED-", the year's digits, "-"; the year reads back from it. */
  function CabeceraPedido(anio: nat): (c: string)
    ensures |c| >= 6 && c[..4] == "PED-" && c[|c| - 1] == '-'
    ensures ParseNat(c[4..|c| - 1]) == Some(anio)
  {
    var c := "PED-" + NatToString(anio) + "-";
    assert c[4..|c| - 1] == NatToString(anio);
    NatToStringRoundTrip(anio);
    c
  }

  /**
   * f"PED-{year}-{count:04d}": the year's header followed by the counter's
   * digits, zero-padded to at least four, which read back as the counter.
   */
  function NumeroPedido(anio: nat, n: nat): (r: string)
    ensures StartsWith(r, "PED-")
    ensures |r| >= |CabeceraPedido(anio)| + 4 && r[..|CabeceraPedido(anio)|] == CabeceraPedido(anio)
    ensures ParseNat(r[|CabeceraPedido(anio)|..]) == Some(n)
  {
    var c := CabeceraPedido(anio);
    var digitos := ZeroPad(NatToString(n), 4);
    ZeroPadValue(NatToString(n), 4);
    NatToStringRoundTrip(n);
    assert (c + digitos)[|c|..] == digitos;
    assert (c + digitos)[..|c|] == c;
    c + digitos
  }

  /** Within one year, different counters give different numbers: the counter can be read back. */
  lemma NumeroPedidoInyectivo(anio: nat, n1: nat, n2: nat)
    requires NumeroPedido(anio, n1) == NumeroPedido(anio, n2)
    ensures n1 == n2
  {
    var c := CabeceraPedido(anio);
    assert Some(n1) == ParseNat(NumeroPedido(anio, n1)[|c|..]) == ParseNat(NumeroPedido(anio, n2)[|c|..]) == Some(n2);
  }

  /** The number of stored orders whose fecha_pedido falls in the given year. */
  function PedidosDelAnio(pedidos: seq<Pedido>, anio: nat): nat {
    if pedidos == [] then 0
    else
      var ultimo := pedidos[|pedidos| - 1];
      var cuenta := if ultimo.fechaPedido.Some? && ultimo.fechaPedido.value.anio == anio then 1 else 0;
      PedidosDelAnio(pedidos[..|pedidos| - 1], anio) + cuenta
  }

  /**
   * The number Pedido.save gives an order: an explicit numero is kept; an
   * empty one becomes PED-{year}-{n:04d} with n one more than the orders
   * already stored in that year, the year taken from fecha_pedido or, when
   * that is unset, from the current time.
   */
  function NumeroAsignado(pedidos: seq<Pedido>, p: Pedido, ahora: Fecha): (r: string)
    ensures p.numero != "" ==> r == p.numero
    ensures p.numero == "" ==> StartsWith(r, "PED-")
    ensures p.numero == "" ==>
              var anio := if p.fechaPedido.Some? then p.fechaPedido.value.anio else ahora.anio;
              var c := CabeceraPedido(anio);
              |r| >= |c| + 4 && r[..|c|] == c && ParseNat(r[|c|..]) == Some(PedidosDelAnio(pedidos, anio) + 1)
  {
    if p.numero != "" then p.numero
    else
      var anio := (if p.fechaPedido.Some? then p.fechaPedido.value else ahora).anio;
      NumeroPedido(anio, PedidosDelAnio(pedidos, anio) + 1)
  }

  predicate ExisteNumero(pedidos: seq<Pedido>, numero: string) {
    exists i :: 0 <= i < |pedidos| && pedidos[i].numero == numero
  }

  /**
   * The generated number is not checked against the stored ones: an order
   * numbered by hand PED-2025-0002 next to one 2025 order makes the next
   * generated number collide, and only the unique constraint catches it.
   */
  lemma NumeroGeneradoPuedeColisionar()
    ensures var ahora := Fecha(2025, 0);
            var existentes := [Pedido(1, "PED-2025-0002", 1, Some(Fecha(2025, 0)), Borrador, 1)];
            var nuevo := Pedido(0, "", 1, None, Borrador, 1);
            ExisteNumero(existentes, NumeroAsignado(existentes, nuevo, ahora))
  {
    var existentes := [Pedido(1, "PED-2025-0002", 1, Some(Fecha(2025, 0)), Borrador, 1)];
    assert PedidosDelAnio(existentes, 2025) == 1 by {
      assert existentes[..0] == [];
    }
    NumeroPedidoEjemplo();
    assert existentes[0].numero == NumeroAsignado(existentes, Pedido(0, "", 1, None, Borrador, 1), Fecha(2025, 0));
  }

  /** The second order of 2025 is numbered PED-2025-0002. */
  lemma NumeroPedidoEjemplo()
    ensures NumeroPedido(2025, 2) == "PED-2025-0002"
  {
    CabeceraEjemplo();
    RellenoEjemplo();
    assert NumeroPedido(2025, 2) == CabeceraPedido(2025) + ZeroPad(NatToString(2), 4);
  }

  lemma CabeceraEjemplo()
    ensures CabeceraPedido(2025) == "PED-2025-"
  {
    assert NatToString(2025) == "2025" by {
      assert NatToString(2) == "2";
      assert NatToString(20) == "20";
      assert NatToString(202) == "202";
    }
  }

  lemma RellenoEjemplo()
    ensures ZeroPad(NatToString(2), 4) == "0002"
  {
    assert Zeros(3) == "000" by {
      assert Zeros(1) == "0";
      assert Zeros(2) == "00";
    }
  }

  // ---------------------------------------------------------------------------
  // Line arithmetic

  /** DetallePedido.subtotal: cantidad_pedida times precio_unitario, in ten-thousandths. */
  function SubtotalLinea(l: DetallePedido): (r: Importe)
    ensures l.cantidadPedida >= 0 && l.precioUnitario >= 0 ==> r >= 0
    ensures l.precioUnitario == 0 ==> r == 0
  {
    l.cantidadPedida * l.precioUnitario
  }

  /** DetallePedido.cantidad_pendiente: negative when more was received than ordered. */
  function Pendiente(l: DetallePedido): (r: Centesimos)
    ensures r < 0 <==> l.cantidadRecibida > l.cantidadPedida
    ensures r + l.cantidadRecibida == l.cantidadPedida
  {
    l.cantidadPedida - l.cantidadRecibida
  }

  /** DetallePedido.esta_completo: received at least what was ordered. */
  predicate EstaCompleto(l: DetallePedido)
    ensures EstaCompleto(l) <==> Pendiente(l) <= 0
  {
    l.cantidadRecibida >= l.cantidadPedida
  }

  /** A new line: cantidad_recibida defaults to 0. */
  function NuevaLinea(id: Id, pedido: Id, producto: Id, pedida: Centesimos, precio: Centesimos): (l: DetallePedido)
    ensures l.cantidadRecibida == 0
    ensures pedida >= 1 ==> Pendiente(l) == pedida && !EstaCompleto(l)
  {
    DetallePedido(id, pedido, producto, pedida, 0, precio)
  }

  /** Field validators and unique_together = ['pedido', 'producto'] on order lines. */
  ghost predicate LineasValidas(lineas: seq<DetallePedido>) {
    && (forall i :: 0 <= i < |lineas| ==>
          lineas[i].cantidadPedida >= 1 && lineas[i].cantidadRecibida >= 0 && lineas[i].precioUnitario >= 0)
    && (forall i, j :: 0 <= i < j < |lineas| ==>
          lineas[i].pedido != lineas[j].pedido || lineas[i].producto != lineas[j].producto)
  }

  /** numero_pedido is unique. */
  ghost predicate NumerosPedidoUnicos(pedidos: seq<Pedido>) {
    forall i, j :: 0 <= i < j < |pedidos| ==> pedidos[i].numero != pedidos[j].numero
  }

  /** A snapshot of the pedidos tables. */
  datatype TablasPedidos = TablasPedidos(
    pedidos: seq<Pedido>,
    lineas: seq<DetallePedido>,
    recepciones: seq<RecepcionPedido>,
    detallesRecepcion: seq<DetalleRecepcion>,
    siguienteId: nat)

  /** The table constraints of pedidos/models.py; every id in use is below the next one. */
  ghost predicate TablasPedidosValidas(t: TablasPedidos) {
    && NumerosPedidoUnicos(t.pedidos)
    && LineasValidas(t.lineas)
    && (forall i :: 0 <= i < |t.pedidos| ==> t.pedidos[i].id < t.siguienteId)
    && (forall i :: 0 <= i < |t.lineas| ==> t.lineas[i].id < t.siguienteId)
    && (forall i :: 0 <= i < |t.recepciones| ==> t.recepciones[i].id < t.siguienteId)
  }

  /** Storing an order with a new number and the next id keeps every constraint of the order tables. */
  lemma ValidasConPedido(t: TablasPedidos, g: Pedido)
    requires TablasPedidosValidas(t) && !ExisteNumero(t.pedidos, g.numero) && g.id == t.siguienteId
    ensures TablasPedidosValidas(t.(pedidos := t.pedidos + [g], siguienteId := t.siguienteId + 1))
  {
    var ps := t.pedidos + [g];
    forall i, j | 0 <= i < j < |ps| ensures ps[i].numero != ps[j].numero {
      if j == |t.pedidos| {
        assert ps[i] == t.pedidos[i];
      }
    }
  }

  /** The pedidos tables. */
  class Pedidos {
    var pedidos: seq<Pedido>
    var lineas: seq<DetallePedido>
    var recepciones: seq<RecepcionPedido>
    var detallesRecepcion: seq<DetalleRecepcion>
    /** Next primary key, above every id in use. */
    var siguienteId: nat

    function Estado(): TablasPedidos
      reads this
    {
      TablasPedidos(pedidos, lineas, recepciones, detallesRecepcion, siguienteId)
    }

    ghost predicate Valid()
      reads this
    {
      TablasPedidosValidas(Estado())
    }

    /** Replaces every table at once: the commit of a transaction, or its rollback to a snapshot. */
    method Restaurar(t: TablasPedidos)
      modifies this
      ensures Estado() == t
    {
      pedidos, lineas, recepciones, detallesRecepcion, siguienteId := t.pedidos, t.lineas, t.recepciones, t.detallesRecepcion, t.siguienteId;
    }

    constructor ()
      ensures Valid()
      ensures pedidos == [] && lineas == [] && recepciones == [] && detallesRecepcion == [] && siguienteId == 1
    {
      pedidos, lineas, recepciones, detallesRecepcion := [], [], [], [];
      siguienteId := 1;
    }

    /**
     * Pedido.save on an order not yet stored: the number is assigned, then the
     * insert either succeeds (fecha_pedido is stamped with the current time,
     * auto_now_add) or is refused by the unique constraint on numero_pedido.
     */
    method GuardarNuevo(p: Pedido, ahora: Fecha) returns (r: Result<Pedido, Fallo>)
      requires Valid()
      modifies this
      ensures Valid()
      ensures lineas == old(lineas) && recepciones == old(recepciones) && detallesRecepcion == old(detallesRecepcion)
      ensures var numero := NumeroAsignado(old(pedidos), p, ahora);
              if ExisteNumero(old(pedidos), numero) then
                r == Err(ClaveDuplicada) && pedidos == old(pedidos) && siguienteId == old(siguienteId)
              else
                var guardado := p.(id := old(siguienteId), numero := numero, fechaPedido := Some(ahora));
                r == Ok(guardado) && pedidos == old(pedidos) + [guardado] && siguienteId == old(siguienteId) + 1
    {
      var numero := NumeroAsignado(pedidos, p, ahora);
      r := Insertar(p, numero, ahora);
    }

    /** The INSERT of an order under a given number, refused by the unique constraint when the number is in use. */
    method Insertar(p: Pedido, numero: string, ahora: Fecha) returns (r: Result<Pedido, Fallo>)
      requires Valid()
      modifies this
      ensures Valid()
      ensures lineas == old(lineas) && recepciones == old(recepciones) && detallesRecepcion == old(detallesRecepcion)
      ensures if ExisteNumero(old(pedidos), numero) then
                r == Err(ClaveDuplicada) && pedidos == old(pedidos) && siguienteId == old(siguienteId)
              else
                var guardado := p.(id := old(siguienteId), numero := numero, fechaPedido := Some(ahora));
                r == Ok(guardado) && pedidos == old(pedidos) + [guardado] && siguienteId == old(siguienteId) + 1
    {
      if ExisteNumero(pedidos, numero) {
        return Err(ClaveDuplicada);
      }
      var guardado := p.(id := siguienteId, numero := numero, fechaPedido := Some(ahora));
      ValidasConPedido(Estado(), guardado);
      pedidos := pedidos + [guardado];
      siguienteId := siguienteId + 1;
      r := Ok(guardado);
    }
  }
}
