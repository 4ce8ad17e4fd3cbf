/** The screen state machine of `AppTrueque`: the current route, the two
    remembered "return-to" routes of the add-listing and notifications
    screens, and the stored `remember_me` preference. */
module Routes {

  /** `RutaPantalla`. */
  datatype Ruta = Principal | Perfil | AgregarTrueque | Login | Registro | Notificaciones

  /** `rutaActual`, `rutaVolverAgregar`, `rutaVolverNotificaciones`, and the
      `remember_me` preference as last written. */
  datatype Nav = Nav(ruta: Ruta, volverAgregar: Ruta, volverNotificaciones: Ruta, recordar: bool)

  /** The callbacks the screens hand back to `AppTrueque`. */
  datatype Evento =
    | AbrirPerfil                     // main screen: profile button
    | NuevoTrueque                    // main or profile screen: add a listing
    | AbrirNotificaciones             // main or profile screen: bell
    | Volver                          // back arrow (register screen: back to login)
    | CerrarSesion                    // profile screen: sign out
    | Guardado                        // add-listing screen: publish
    | AccesoExitoso(recordar: bool)   // login or register succeeded
    | IrARegistro                     // login screen: go to register

  /** The screens a back arrow may return to from the add-listing and
      notifications screens. */
  predicate IsHome(r: Ruta) {
    r == Principal || r == Perfil
  }

  /** Both return slots always name a home screen. */
  predicate SlotsOk(n: Nav) {
    IsHome(n.volverAgregar) && IsHome(n.volverNotificaciones)
  }

  /** Which callbacks a screen offers; every other event cannot reach `AppTrueque`
      while that screen is shown. */
  predicate Offered(r: Ruta, e: Evento) {
    match r
    case Principal => e == AbrirPerfil || e == NuevoTrueque || e == AbrirNotificaciones
    case Perfil => e == Volver || e == NuevoTrueque || e == CerrarSesion || e == AbrirNotificaciones
    case AgregarTrueque => e == Volver || e == Guardado
    case Login => e.AccesoExitoso? || e == IrARegistro
    case Registro => e.AccesoExitoso? || e == Volver
    case Notificaciones => e == Volver
  }

  /** The state when `AppTrueque` is first composed, with the stored preference. */
  function Init(recordar: bool): (n: Nav)
    ensures n.ruta == Login
    ensures SlotsOk(n)
    ensures n.recordar == recordar
  {
    Nav(Login, Principal, Principal, recordar)
  }

  /** The start-up effect: straight to the main screen when a user is signed
      in and asked to be remembered, to the login screen otherwise. */
  function Startup(n: Nav, haySesion: bool): (r: Nav)
    ensures r.ruta == Principal <==> haySesion && n.recordar
    ensures r.ruta == Principal || r.ruta == Login
    ensures r.(ruta := n.ruta) == n
  {
    n.(ruta := if haySesion && n.recordar then Principal else Login)
  }

  /** One callback. */
  function Step(n: Nav, e: Evento): (r: Nav)
    ensures SlotsOk(n) ==> SlotsOk(r)
    ensures !Offered(n.ruta, e) ==> r == n
    ensures r.recordar != n.recordar ==> e == CerrarSesion || e.AccesoExitoso?
    ensures n.ruta == Perfil && e == CerrarSesion ==> r.ruta == Login && !r.recordar
    ensures Offered(n.ruta, e) && e.AccesoExitoso? ==> r.ruta == Principal && r.recordar == e.recordar
    ensures n.ruta == AgregarTrueque && e == Guardado ==> r.ruta == Perfil
    ensures n.ruta in {AgregarTrueque, Notificaciones} && SlotsOk(n) && e == Volver ==> IsHome(r.ruta)
    ensures n.ruta == Principal && e == AbrirPerfil ==> r == n.(ruta := Perfil)
    ensures IsHome(n.ruta) && e == NuevoTrueque ==> r == n.(ruta := AgregarTrueque, volverAgregar := n.ruta)
    ensures IsHome(n.ruta) && e == AbrirNotificaciones ==>
      r == n.(ruta := Notificaciones, volverNotificaciones := n.ruta)
    ensures n.ruta == Perfil && e == Volver ==> r == n.(ruta := Principal)
    ensures n.ruta == AgregarTrueque && e == Volver ==> r == n.(ruta := n.volverAgregar)
    ensures n.ruta == Notificaciones && e == Volver ==> r == n.(ruta := n.volverNotificaciones)
    ensures n.ruta == Login && e == IrARegistro ==> r == n.(ruta := Registro)
    ensures n.ruta == Registro && e == Volver ==> r == n.(ruta := Login)
  {
    match n.ruta
    case Principal =>
      if e == AbrirPerfil then n.(ruta := Perfil)
      else if e == NuevoTrueque then n.(volverAgregar := Principal, ruta := AgregarTrueque)
      else if e == AbrirNotificaciones then n.(volverNotificaciones := Principal, ruta := Notificaciones)
      else n
    case Perfil =>
      if e == Volver then n.(ruta := Principal)
      else if e == NuevoTrueque then n.(volverAgregar := Perfil, ruta := AgregarTrueque)
      else if e == CerrarSesion then n.(recordar := false, ruta := Login)
      else if e == AbrirNotificaciones then n.(volverNotificaciones := Perfil, ruta := Notificaciones)
      else n
    case AgregarTrueque =>
      if e == Volver then n.(ruta := n.volverAgregar)
      else if e == Guardado then n.(ruta := Perfil)
      else n
    case Login =>
      if e.AccesoExitoso? then n.(recordar := e.recordar, ruta := Principal)
      else if e == IrARegistro then n.(ruta := Registro)
      else n
    case Registro =>
      if e.AccesoExitoso? then n.(recordar := e.recordar, ruta := Principal)
      else if e == Volver then n.(ruta := Login)
      else n
    case Notificaciones =>
      if e == Volver then n.(ruta := n.volverNotificaciones)
      else n
  }

  function Run(n: Nav, es: seq<Evento>): Nav
    decreases |es|
  {
    if |es| == 0 then n else Run(Step(n, es[0]), es[1..])
  }

  /** Along any run the return slots name home screens, so a back arrow on the
      add-listing or notifications screen always lands on a home screen. */
  lemma {:induction false} RunKeepsSlots(n: Nav, es: seq<Evento>)
    requires SlotsOk(n)
    ensures SlotsOk(Run(n, es))
    decreases |es|
  {
    if |es| > 0 {
      RunKeepsSlots(Step(n, es[0]), es[1..]);
    }
  }

  /** Opening the add-listing screen from a home screen and going back
      returns to that home screen, with nothing else changed but the slot. */
  lemma AddListingBackReturns(n: Nav)
    requires IsHome(n.ruta)
    ensures var r := Step(Step(n, NuevoTrueque), Volver);
      r.ruta == n.ruta && r.volverAgregar == n.ruta && r.volverNotificaciones == n.volverNotificaciones && r.recordar == n.recordar
  {
  }

  /** The same for the notifications screen. */
  lemma NotificationsBackReturns(n: Nav)
    requires IsHome(n.ruta)
    ensures var r := Step(Step(n, AbrirNotificaciones), Volver);
      r.ruta == n.ruta && r.volverNotificaciones == n.ruta && r.volverAgregar == n.volverAgregar && r.recordar == n.recordar
  {
  }

  /** After signing out, the next start-up shows the login screen even with a user still cached. */
  lemma LogoutForgetsSession(n: Nav, haySesion: bool)
    requires n.ruta == Perfil
    ensures Startup(Step(n, CerrarSesion), haySesion).ruta == Login
  {
  }
}
