/**
 * User profiles and sessions: the role and area-access rule of
 * PerfilUsuario, the profile created for every new user, and the duration
 * of a SesionUsuario.
 */
module UsuariosModels {
  import opened Wrappers
  import opened InventarioModels

  datatype Rol = Admin | JefeAyB | Housekeeping | Garzon | Bodeguero | Gerencia

  function CodigoRol(r: Rol): string {
    match r
    case Admin => "ADMIN"
    case JefeAyB => "JEFE_AYB"
    case Housekeeping => "HOUSEKEEPING"
    case Garzon => "GARZON"
    case Bodeguero => "BODEGUERO"
    case Gerencia => "GERENCIA"
  }

  /** The areas a profile may be limited to; there is no option for reception. */
  datatype AreaAcceso = Todas | SoloBodega | SoloCocina | SoloHabitaciones | SoloBar | SoloLimpieza

  function CodigoAcceso(a: AreaAcceso): string {
    match a
    case Todas => "TODAS"
    case SoloBodega => "BODEGA"
    case SoloCocina => "COCINA"
    case SoloHabitaciones => "HABITACIONES"
    case SoloBar => "BAR"
    case SoloLimpieza => "LIMPIEZA"
  }

  datatype Permiso = CrearPedidos | RecibirPedidos | AjustarInventario | VerReportes | AdministrarProductos | AdministrarUsuarios

  /** A profile; `permisos` holds the specific permission flags that are set. */
  datatype Perfil = Perfil(usuario: Id, rol: Rol, areaAcceso: AreaAcceso, activo: bool, permisos: set<Permiso>)

  predicate EsAdministrador(p: Perfil) {
    p.rol == Admin
  }

  /** The access rule as written: the area type code is compared with the access code verbatim. */
  predicate PuedeAccederArea(p: Perfil, areaTipo: string) {
    p.areaAcceso == Todas || EsAdministrador(p) || CodigoAcceso(p.areaAcceso) == areaTipo
  }

  /** The area type each restricted access option names. */
  function TipoDeAcceso(a: AreaAcceso): (t: TipoArea)
    requires a != Todas
    ensures t != Recepcion
  {
    match a
    case SoloBodega => Bodega
    case SoloCocina => Cocina
    case SoloHabitaciones => Habitacion
    case SoloBar => Bar
    case SoloLimpieza => Limpieza
  }

  /** Administrators and unrestricted profiles may enter every area. */
  lemma AccesoTotal(p: Perfil, areaTipo: string)
    requires EsAdministrador(p) || p.areaAcceso == Todas
    ensures PuedeAccederArea(p, areaTipo)
  {
  }

  /**
   * A restricted, non-administrator profile may enter an area exactly when
   * its option names that area's type, except "Solo Habitaciones", which
   * names the code HABITACIONES while room areas carry HABITACION: it grants
   * no area at all.
   */
  lemma AccesoEscrito(p: Perfil, tipo: TipoArea)
    requires !EsAdministrador(p) && p.areaAcceso != Todas
    ensures PuedeAccederArea(p, CodigoTipoArea(tipo)) <==>
              p.areaAcceso != SoloHabitaciones && tipo == TipoDeAcceso(p.areaAcceso)
  {
    assert CodigoAcceso(SoloHabitaciones) != CodigoTipoArea(Habitacion) by {
      assert |CodigoAcceso(SoloHabitaciones)| != |CodigoTipoArea(Habitacion)|;
    }
  }

  /** The input that shows it: a housekeeping profile limited to rooms is refused a room area. */
  lemma HabitacionesSinAcceso()
    ensures !PuedeAccederArea(Perfil(1, Housekeeping, SoloHabitaciones, true, {}), CodigoTipoArea(Habitacion))
  {
    AccesoEscrito(Perfil(1, Housekeeping, SoloHabitaciones, true, {}), Habitacion);
  }

  /** The code of the area type an access option is meant to grant. */
  function CodigoCubierto(a: AreaAcceso): string
    requires a != Todas
  {
    if a == SoloHabitaciones then "HABITACION" else CodigoAcceso(a)
  }

  /** The access rule with the rooms option matched against the rooms area type. */
  predicate PuedeAccederAreaCorregido(p: Perfil, areaTipo: string) {
    p.areaAcceso == Todas || EsAdministrador(p) || CodigoCubierto(p.areaAcceso) == areaTipo
  }

  /** Corrected, every restricted option grants exactly the one area type it names. */
  lemma AccesoCorregido(p: Perfil, tipo: TipoArea)
    requires !EsAdministrador(p) && p.areaAcceso != Todas
    ensures PuedeAccederAreaCorregido(p, CodigoTipoArea(tipo)) <==> tipo == TipoDeAcceso(p.areaAcceso)
  {
  }

  /** The two rules differ only on the rooms option. */
  lemma CorregidoSoloHabitaciones(p: Perfil, areaTipo: string)
    requires p.areaAcceso != SoloHabitaciones
    ensures PuedeAccederAreaCorregido(p, areaTipo) == PuedeAccederArea(p, areaTipo)
  {
  }

  /** The profile created for a new user: a waiter with access to every area and no specific permission. */
  function PerfilNuevo(usuario: Id): (p: Perfil)
    ensures p.usuario == usuario && p.rol == Garzon && p.areaAcceso == Todas && p.activo && p.permisos == {}
  {
    Perfil(usuario, Garzon, Todas, true, {})
  }

  /** A new user's profile opens every area, yet is not an administrator's. */
  lemma PerfilNuevoAccede(usuario: Id, areaTipo: string)
    ensures PuedeAccederArea(PerfilNuevo(usuario), areaTipo) && !EsAdministrador(PerfilNuevo(usuario))
  {
  }

  predicate TienePerfil(perfiles: seq<Perfil>, usuario: Id) {
    exists i :: 0 <= i < |perfiles| && perfiles[i].usuario == usuario
  }

  /**
   * The post_save receiver: a user saved for the first time gets a new
   * profile; the one-to-one column rejects a second profile for a user.
   */
  function CrearPerfilUsuario(perfiles: seq<Perfil>, usuario: Id, creado: bool): (r: Result<seq<Perfil>, Fallo>)
    ensures !creado ==> r == Ok(perfiles)
    ensures creado ==> (r.Err? <==> TienePerfil(perfiles, usuario))
    ensures creado && r.Ok? ==> r.value == perfiles + [PerfilNuevo(usuario)]
  {
    if !creado then Ok(perfiles)
    else if exists i :: 0 <= i < |perfiles| && perfiles[i].usuario == usuario then Err(ClaveDuplicada)
    else Ok(perfiles + [PerfilNuevo(usuario)])
  }

  /** At most one profile per user, as the one-to-one column demands. */
  ghost predicate PerfilesUnicos(perfiles: seq<Perfil>) {
    forall i, j :: 0 <= i < j < |perfiles| ==> perfiles[i].usuario != perfiles[j].usuario
  }

  /** Creating a profile keeps one profile per user, and afterwards the user has one. */
  lemma CrearPerfilPreserva(perfiles: seq<Perfil>, usuario: Id, creado: bool)
    requires PerfilesUnicos(perfiles)
    ensures CrearPerfilUsuario(perfiles, usuario, creado).Ok? ==> PerfilesUnicos(CrearPerfilUsuario(perfiles, usuario, creado).value)
    ensures creado ==> TienePerfil(perfiles, usuario) || TienePerfil(CrearPerfilUsuario(perfiles, usuario, creado).value, usuario)
  {
    if creado && !TienePerfil(perfiles, usuario) {
      var r := perfiles + [PerfilNuevo(usuario)];
      assert r[|perfiles|].usuario == usuario;
    }
  }

  /** A session; times are in whole seconds. */
  datatype Sesion = Sesion(usuario: Id, fechaInicio: int, fechaFin: Option<int>, activa: bool)

  /** The session's length, known once it has ended. */
  function Duracion(s: Sesion): (d: Option<int>)
    ensures d.Some? <==> s.fechaFin.Some?
    ensures d.Some? ==> s.fechaInicio + d.value == s.fechaFin.value
  {
    match s.fechaFin
    case Some(fin) => Some(fin - s.fechaInicio)
    case None => None
  }

  /** Closing a session at `fin` gives it exactly the time elapsed since it began. */
  lemma DuracionCerrada(s: Sesion, fin: int)
    ensures Duracion(s.(fechaFin := Some(fin))) == Some(fin - s.fechaInicio)
    ensures Duracion(s.(fechaFin := None)) == None
  {
  }
}
