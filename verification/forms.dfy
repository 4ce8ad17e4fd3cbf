/** The small input checks of the login, register and profile screens. */
module Forms {
  import opened Wrappers
  import opened Text
  import opened Records

  /** What a form button does: show a message, or go ahead with a request. */
  datatype Submit<T> = Rejected(mensaje: string) | Proceed(request: T)

  /** `signInWithEmailAndPassword(correo, contrasena)`. */
  datatype SignIn = SignIn(correo: string, contrasena: string)

  const MsgLoginVacio := "Introduce correo y contraseña."

  /** "Entrar": both fields must be non-blank; the e-mail is sent trimmed and
      the password exactly as typed. */
  function LoginPressed(correo: string, contrasena: string): (r: Submit<SignIn>)
    ensures r.Rejected? <==> IsBlank(correo) || IsBlank(contrasena)
    ensures r.Rejected? ==> r.mensaje == MsgLoginVacio
    ensures r.Proceed? ==> r.request.contrasena == contrasena && r.request.correo == Trim(correo)
    ensures r.Proceed? ==> !IsBlank(r.request.correo)
  {
    TrimBlankIff(correo);
    if IsBlank(correo) || IsBlank(contrasena) then Rejected(MsgLoginVacio)
    else Proceed(SignIn(Trim(correo), contrasena))
  }

  /** A new account: the sign-up call and the profile document written under its uid. */
  datatype SignUp = SignUp(cuenta: SignIn, perfil: Fields)

  const MsgRegistroVacio := "Completa todos los campos."

  /** "Crear cuenta": all four fields must be non-blank; the e-mail is sent
      trimmed and the password as typed; the profile stores the trimmed name,
      handle and e-mail. */
  function RegisterPressed(nombre: string, usuario: string, correo: string, contrasena: string): (r: Submit<SignUp>)
    ensures r.Rejected? <==> IsBlank(nombre) || IsBlank(usuario) || IsBlank(correo) || IsBlank(contrasena)
    ensures r.Rejected? ==> r.mensaje == MsgRegistroVacio
    ensures r.Proceed? ==> r.request.cuenta == SignIn(Trim(correo), contrasena)
    ensures r.Proceed? ==> r.request.perfil.Keys == {"nombre", "usuario", "correo"}
    ensures r.Proceed? ==> forall k :: k in r.request.perfil ==> !IsBlank(r.request.perfil[k])
    ensures r.Proceed? ==>
      && r.request.perfil["nombre"] == Trim(nombre)
      && r.request.perfil["usuario"] == Trim(usuario)
      && r.request.perfil["correo"] == Trim(correo)
  {
    TrimBlankIff(nombre);
    TrimBlankIff(usuario);
    TrimBlankIff(correo);
    if IsBlank(nombre) || IsBlank(usuario) || IsBlank(correo) || IsBlank(contrasena) then Rejected(MsgRegistroVacio)
    else
      var perfil := map["nombre" := Trim(nombre), "usuario" := Trim(usuario), "correo" := Trim(correo)];
      assert perfil.Keys == {"nombre", "usuario", "correo"};
      Proceed(SignUp(SignIn(Trim(correo), contrasena), perfil))
  }

  /** A second trim changes nothing, so the stored name of a new account is
      already in the form a later name edit would store. */
  lemma RegisteredNameIsTrimmed(nombre: string, usuario: string, correo: string, contrasena: string)
    requires RegisterPressed(nombre, usuario, correo, contrasena).Proceed?
    ensures var n := RegisterPressed(nombre, usuario, correo, contrasena).request.perfil["nombre"];
      Trim(n) == n && !IsBlank(n)
  {
    TrimIdempotent(nombre);
    TrimBlankIff(nombre);
  }

  /** The profile's handle as shown: kept when it starts with "@", prefixed
      with "@" when it is non-blank, empty otherwise. */
  function NormalizeHandle(s: string): (r: string)
    ensures IsBlank(s) && !(|s| > 0 && s[0] == '@') ==> r == ""
    ensures r != "" ==> r[0] == '@'
    ensures !IsBlank(s) ==> r != "" && |s| <= |r| <= |s| + 1 && r[|r| - |s|..] == s
    ensures |s| > 0 && s[0] == '@' ==> r == s
  {
    if |s| > 0 && s[0] == '@' then s
    else if !IsBlank(s) then "@" + s
    else ""
  }

  /** Normalising a shown handle again changes nothing. */
  lemma NormalizeHandleIdempotent(s: string)
    ensures NormalizeHandle(NormalizeHandle(s)) == NormalizeHandle(s)
  {
    var r := NormalizeHandle(s);
    if r != "" {
      assert r[0] == '@';
    }
  }

  /** The profile write of the name editor: `usuarios/{uid}.nombre := nombre`. */
  datatype NameWrite = NameWrite(uid: string, nombre: string)

  const MsgNombreInvalido := "Introduce un nombre válido."

  /** "Guardar" in the name editor: with no signed-in user or a blank name it
      only shows a message; otherwise it writes the trimmed, non-blank name. */
  function SaveName(uid: Option<string>, nombreEditado: string): (r: Submit<NameWrite>)
    ensures r.Rejected? <==> uid.None? || IsBlank(uid.value) || IsBlank(nombreEditado)
    ensures r.Rejected? ==> r.mensaje == MsgNombreInvalido
    ensures r.Proceed? ==> Some(r.request.uid) == uid && r.request.nombre == Trim(nombreEditado)
    ensures r.Proceed? ==> !IsBlank(r.request.nombre) && Trim(r.request.nombre) == r.request.nombre
  {
    var nuevo := Trim(nombreEditado);
    TrimBlankIff(nombreEditado);
    TrimIdempotent(nombreEditado);
    if uid.None? || IsBlank(uid.value) || IsBlank(nuevo) then Rejected(MsgNombreInvalido)
    else Proceed(NameWrite(uid.value, nuevo))
  }
}
