/** The write actions of `AppTrueque` over the remote store: sending a trade
    request, publishing a listing, and accepting or rejecting a request. */
module Actions {
  import opened Wrappers
  import opened Text
  import opened Records
  import opened Remote
  import opened Routes

  /** The name written as the sender or owner: the display name, or "Usuario" when it is blank. */
  function SenderName(nombre: string): (r: string)
    ensures !IsBlank(r)
    ensures !IsBlank(nombre) ==> r == nombre
    ensures IsBlank(nombre) ==> r == "Usuario"
  {
    assert !IsWs("Usuario"[0]);
    if IsBlank(nombre) then "Usuario" else nombre
  }

  /** `onCrearSolicitud`'s guards: a signed-in user asking for somebody else's listing.
      A legacy listing (blank owner id) passes for any signed-in user. */
  predicate MaySend(uid: string, solicitado: TruequeItem): (r: bool)
    ensures r <==> !IsBlank(uid) && solicitado.usuarioId != uid
    ensures IsBlank(solicitado.usuarioId) ==> (r <==> !IsBlank(uid))
    ensures solicitado.usuarioId == uid ==> !r
  {
    !IsBlank(uid) && solicitado.usuarioId != uid
  }

  /** The request record `onCrearSolicitud` writes, under the id the store gives it. */
  function NewRequest(id: string, uid: string, nombre: string, solicitado: TruequeItem, ofrecido: TruequeItem): SolicitudTrueque {
    SolicitudTrueque(
      id := id,
      truequeSolicitadoId := solicitado.id,
      truequeSolicitadoTitulo := solicitado.titulo,
      truequeOfrecidoId := ofrecido.id,
      truequeOfrecidoTitulo := ofrecido.titulo,
      solicitanteId := uid,
      solicitanteNombre := SenderName(nombre),
      propietarioId := solicitado.usuarioId,
      estado := Pendiente)
  }

  /** `onCrearSolicitud`: nothing is written for a blank uid or one's own
      listing; otherwise exactly one new pending request, which reads back as
      from this user, about these two listings, addressed to the listing's owner. */
  function SendRequest(st: Store, uid: string, nombre: string, solicitado: TruequeItem, ofrecido: TruequeItem, newId: string): (r: Store)
    requires newId !in st.solicitudes
    ensures !MaySend(uid, solicitado) ==> r == st
    ensures MaySend(uid, solicitado) ==>
      && r.trueques == st.trueques
      && r.solicitudes.Keys == st.solicitudes.Keys + {newId}
      && (forall id :: id in st.solicitudes ==> r.solicitudes[id] == st.solicitudes[id])
    ensures MaySend(uid, solicitado) ==>
      var p := MapProposal(RawDoc(newId, r.solicitudes[newId]));
      && p.Some? && p.value.id == newId && p.value.estado == Pendiente
      && p.value.solicitanteId == uid && !IsBlank(p.value.solicitanteNombre)
      && p.value.propietarioId == solicitado.usuarioId
      && p.value.truequeSolicitadoId == solicitado.id && p.value.truequeOfrecidoId == ofrecido.id
      && p.value.solicitanteNombre == SenderName(nombre)
      && p.value.truequeSolicitadoTitulo == solicitado.titulo && p.value.truequeOfrecidoTitulo == ofrecido.titulo
  {
    if !MaySend(uid, solicitado) then st
    else
      var s := NewRequest(newId, uid, nombre, solicitado, ofrecido);
      ProposalRoundTrip(s);
      Add(st, Solicitudes, newId, ProposalFields(s))
  }

  /** A request about a listing with an owner id reaches that owner: every
      pending snapshot for the owner carries it. */
  lemma SentRequestReachesOwner(st: Store, uid: string, nombre: string, solicitado: TruequeItem, ofrecido: TruequeItem,
                                newId: string, snap: seq<RawDoc>)
    requires newId !in st.solicitudes && MaySend(uid, solicitado)
    requires IsSnapshot(snap, SendRequest(st, uid, nombre, solicitado, ofrecido, newId), PendingFor(solicitado.usuarioId))
    ensures exists i :: (0 <= i < |snap| && snap[i].id == newId &&
                         MapProposal(snap[i]) == Some(NewRequest(newId, uid, nombre, solicitado, ofrecido)))
  {
    var r := SendRequest(st, uid, nombre, solicitado, ofrecido, newId);
    var s := NewRequest(newId, uid, nombre, solicitado, ofrecido);
    assert r.solicitudes[newId] == ProposalFields(s);
    assert Selects(PendingFor(solicitado.usuarioId), r.solicitudes[newId]);
    var i :| 0 <= i < |snap| && snap[i].id == newId;
    assert snap[i] == RawDoc(newId, ProposalFields(s));
    ProposalRoundTrip(s);
  }

  /** A request about a legacy listing (blank owner id) is written addressed to
      that blank id, so no signed-in user's pending snapshot ever carries it. */
  lemma LegacyRequestReachesNobody(st: Store, uid: string, nombre: string, solicitado: TruequeItem, ofrecido: TruequeItem,
                                   newId: string, owner: string, snap: seq<RawDoc>)
    requires newId !in st.solicitudes && !IsBlank(uid) && IsBlank(solicitado.usuarioId)
    requires !IsBlank(owner)
    requires IsSnapshot(snap, SendRequest(st, uid, nombre, solicitado, ofrecido, newId), PendingFor(owner))
    ensures MaySend(uid, solicitado)
    ensures forall i :: 0 <= i < |snap| ==> snap[i].id != newId
  {
    assert !IsBlank(uid) ==> uid != "";
    var r := SendRequest(st, uid, nombre, solicitado, ofrecido, newId);
    assert r.solicitudes[newId]["propietarioId"] == solicitado.usuarioId;
    assert owner != solicitado.usuarioId;
    assert !Selects(PendingFor(owner), r.solicitudes[newId]);
  }

  /** `misTruequesUsuario.firstOrNull { it.id == idSeleccionado }`: the first
      own listing with the selected id; nothing when no card is selected. */
  function PickOffered(mis: seq<TruequeItem>, seleccionado: Option<string>): (r: Option<TruequeItem>)
    ensures r.None? <==> seleccionado.None? || forall i :: 0 <= i < |mis| ==> mis[i].id != seleccionado.value
    ensures r.Some? ==> r.value in mis && Some(r.value.id) == seleccionado
    ensures r.Some? ==> exists k :: 0 <= k < |mis| && mis[k] == r.value && forall j :: 0 <= j < k ==> mis[j].id != r.value.id
    decreases |mis|
  {
    if seleccionado.None? || |mis| == 0 then None
    else if mis[0].id == seleccionado.value then Some(mis[0])
    else
      var r := PickOffered(mis[1..], seleccionado);
      assert forall i :: 1 <= i < |mis| ==> mis[i] == mis[1..][i - 1];
      if r.None? then r
      else
        assert exists k :: 0 <= k < |mis| && mis[k] == r.value && forall j :: 0 <= j < k ==> mis[j].id != r.value.id by {
          var k :| 0 <= k < |mis[1..]| && mis[1..][k] == r.value && forall j :: 0 <= j < k ==> mis[1..][j].id != r.value.id;
          assert mis[k + 1] == r.value;
          assert forall j :: 0 <= j < k + 1 ==> mis[j].id != r.value.id by {
            forall j | 0 <= j < k + 1 ensures mis[j].id != r.value.id {
              if j > 0 { assert mis[j] == mis[1..][j - 1]; }
            }
          }
        }
        r
  }

  const MsgEnviada := "Solicitud enviada."
  const MsgSelecciona := "Selecciona un trueque para ofrecer."

  /** The store after a dialog action, and the message it shows. */
  datatype Sent = Sent(store: Store, mensaje: string)

  /** The "Enviar" button of the request dialog: without a picked own listing
      it only asks for one; with one it hands both listings to
      `onCrearSolicitud` and reports success whether or not that wrote anything. */
  function ConfirmSend(st: Store, uid: string, nombre: string, solicitado: TruequeItem,
                       mis: seq<TruequeItem>, seleccionado: Option<string>, newId: string): (r: Sent)
    requires newId !in st.solicitudes
    ensures PickOffered(mis, seleccionado).None? ==> r == Sent(st, MsgSelecciona)
    ensures PickOffered(mis, seleccionado).Some? ==> r.mensaje == MsgEnviada
    ensures PickOffered(mis, seleccionado).Some? && MaySend(uid, solicitado) ==> r.store != st
    ensures !MaySend(uid, solicitado) ==> r.store == st
    ensures PickOffered(mis, seleccionado).Some? ==>
      r.store == SendRequest(st, uid, nombre, solicitado, PickOffered(mis, seleccionado).value, newId)
  {
    match PickOffered(mis, seleccionado)
    case None => Sent(st, MsgSelecciona)
    case Some(ofrecido) => Sent(SendRequest(st, uid, nombre, solicitado, ofrecido, newId), MsgEnviada)
  }

  /** Asking for one's own listing with a listing picked: the dialog says the
      request was sent, yet the store is as before. */
  lemma SelfRequestReportsSent(st: Store, uid: string, nombre: string, solicitado: TruequeItem,
                               mis: seq<TruequeItem>, newId: string)
    requires newId !in st.solicitudes && |mis| > 0 && solicitado.usuarioId == uid
    ensures ConfirmSend(st, uid, nombre, solicitado, mis, Some(mis[0].id), newId) == Sent(st, MsgEnviada)
  {
    assert PickOffered(mis, Some(mis[0].id)).Some?;
  }

  /** The add-listing form as the screen keeps it. */
  datatype Formulario = Formulario(titulo: string, descripcion: string, tipo: TipoTrueque, categoria: string)

  /** `formularioValido`: title, description and category all non-blank. */
  predicate FormValid(f: Formulario): (r: bool)
    ensures r <==> Trim(f.titulo) != [] && Trim(f.descripcion) != [] && Trim(f.categoria) != []
  {
    !IsBlank(f.titulo) && !IsBlank(f.descripcion) && !IsBlank(f.categoria)
  }

  /** The listing record `onGuardar` writes, under the id the store gives it. */
  function NewListing(id: string, uid: string, nombre: string, titulo: string, descripcion: string,
                      tipo: TipoTrueque, categoria: string): TruequeItem {
    TruequeItem(id, Trim(titulo), Trim(descripcion), tipo, SenderName(nombre), uid, categoria)
  }

  /** `onGuardar`: for a signed-in user one new listing, which reads back with
      the trimmed texts, the user's id and name, and the category as given;
      nothing for a blank uid. */
  function Guardar(st: Store, uid: string, nombre: string, titulo: string, descripcion: string,
                   tipo: TipoTrueque, categoria: string, newId: string): (r: Store)
    requires newId !in st.trueques
    ensures IsBlank(uid) ==> r == st
    ensures !IsBlank(uid) ==>
      && r.solicitudes == st.solicitudes
      && r.trueques.Keys == st.trueques.Keys + {newId}
      && (forall id :: id in st.trueques ==> r.trueques[id] == st.trueques[id])
    ensures !IsBlank(uid) ==>
      var x := MapListing(RawDoc(newId, r.trueques[newId]));
      && x.Some? && x.value.id == newId && x.value.usuarioId == uid && x.value.tipo == tipo
      && x.value.titulo == Trim(titulo) && x.value.descripcion == Trim(descripcion)
      && x.value.categoria == categoria && x.value.usuario == SenderName(nombre)
  {
    if IsBlank(uid) then st
    else
      var x := NewListing(newId, uid, nombre, titulo, descripcion, tipo, categoria);
      ListingRoundTrip(x);
      Add(st, Trueques, newId, ListingFields(x))
  }

  /** The store, the screen state and whether the form's error line shows. */
  datatype Published = Published(store: Store, nav: Nav, mostrarError: bool)

  /** "Publicar trueque": an invalid form only shows the error line; a valid
      one passes the trimmed texts to `onGuardar`, which moves to the profile
      screen whether or not anything was written. */
  function Publicar(st: Store, nav: Nav, uid: string, nombre: string, f: Formulario, newId: string): (r: Published)
    requires newId !in st.trueques
    ensures !FormValid(f) ==> r == Published(st, nav, true)
    ensures FormValid(f) ==> !r.mostrarError && r.nav == nav.(ruta := Perfil)
    ensures FormValid(f) && IsBlank(uid) ==> r.store == st
    ensures FormValid(f) && !IsBlank(uid) ==>
      && r.store.solicitudes == st.solicitudes
      && r.store.trueques.Keys == st.trueques.Keys + {newId}
      && (forall id :: id in st.trueques ==> r.store.trueques[id] == st.trueques[id])
    ensures FormValid(f) && !IsBlank(uid) ==>
      var x := MapListing(RawDoc(newId, r.store.trueques[newId]));
      && x.Some? && x.value.id == newId && x.value.usuarioId == uid && x.value.usuario == SenderName(nombre)
      && x.value.titulo == Trim(f.titulo) && x.value.descripcion == Trim(f.descripcion)
      && x.value.tipo == f.tipo && x.value.categoria == f.categoria
  {
    if !FormValid(f) then Published(st, nav, true)
    else
      TrimIdempotent(f.titulo);
      TrimIdempotent(f.descripcion);
      Published(Guardar(st, uid, nombre, Trim(f.titulo), Trim(f.descripcion), f.tipo, f.categoria, newId),
                nav.(ruta := Perfil), false)
  }

  /** A published listing has a non-blank, trimmed title and description: the
      double trim of the screen and of `onGuardar` is a single trim. */
  lemma PublishedTextsTrimmed(st: Store, nav: Nav, uid: string, nombre: string, f: Formulario, newId: string)
    requires newId !in st.trueques && FormValid(f) && !IsBlank(uid)
    ensures var x := MapListing(RawDoc(newId, Publicar(st, nav, uid, nombre, f, newId).store.trueques[newId]));
      && x.Some? && x.value.titulo == Trim(f.titulo) && x.value.descripcion == Trim(f.descripcion)
      && !IsBlank(x.value.titulo) && !IsBlank(x.value.descripcion)
  {
    TrimIdempotent(f.titulo);
    TrimIdempotent(f.descripcion);
    TrimBlankIff(f.titulo);
    TrimBlankIff(f.descripcion);
  }

  /** A published listing shows up in every snapshot of the user's own listings. */
  lemma PublishedListingIsOwn(st: Store, uid: string, nombre: string, titulo: string, descripcion: string,
                              tipo: TipoTrueque, categoria: string, newId: string, snap: seq<RawDoc>)
    requires newId !in st.trueques && !IsBlank(uid)
    requires IsSnapshot(snap, Guardar(st, uid, nombre, titulo, descripcion, tipo, categoria, newId), ListingsOf(uid))
    ensures exists i :: (0 <= i < |snap| && snap[i].id == newId &&
                         MapListing(snap[i]) == Some(NewListing(newId, uid, nombre, titulo, descripcion, tipo, categoria)))
  {
    var r := Guardar(st, uid, nombre, titulo, descripcion, tipo, categoria, newId);
    var x := NewListing(newId, uid, nombre, titulo, descripcion, tipo, categoria);
    assert r.trueques[newId] == ListingFields(x);
    assert Selects(ListingsOf(uid), r.trueques[newId]);
    var i :| 0 <= i < |snap| && snap[i].id == newId;
    assert snap[i] == RawDoc(newId, ListingFields(x));
    ListingRoundTrip(x);
  }

  /** The batch of `onAceptar`: delete both listings, then mark the request accepted. */
  function AcceptWrites(s: SolicitudTrueque): seq<Write> {
    [Delete(Trueques, s.truequeSolicitadoId), Delete(Trueques, s.truequeOfrecidoId),
     Update(Solicitudes, s.id, map["estado" := Aceptada])]
  }

  /** A batch of one update merges the changes into the document when it exists, and fails otherwise. */
  lemma SingleUpdate(st: Store, c: Coll, id: string, ch: Fields)
    ensures ApplyWrites(st, [Update(c, id, ch)]).Some? <==> id in Docs(st, c)
    ensures id in Docs(st, c) ==> ApplyWrites(st, [Update(c, id, ch)]) == Some(WithDocs(st, c, Docs(st, c)[id := Docs(st, c)[id] + ch]))
  {
    var ws := [Update(c, id, ch)];
    assert ws[0] == Update(c, id, ch) && ws[1..] == [];
  }

  /** `onAceptar`: one all-or-nothing batch. It lands exactly when the backend
      does not fail and the request document still exists; then both listings
      are gone and only the request's `estado` changed. */
  function Accept(st: Store, s: SolicitudTrueque, fault: bool): (r: Outcome)
    ensures r.ok <==> !fault && s.id in st.solicitudes
    ensures !r.ok ==> r.store == st
    ensures r.ok ==> r.store.trueques == st.trueques - {s.truequeSolicitadoId, s.truequeOfrecidoId}
    ensures r.ok ==> r.store.solicitudes == st.solicitudes[s.id := st.solicitudes[s.id]["estado" := Aceptada]]
  {
    var ws := AcceptWrites(s);
    var up := Update(Solicitudes, s.id, map["estado" := Aceptada]);
    var st1 := WithDocs(st, Trueques, st.trueques - {s.truequeSolicitadoId});
    var st2 := WithDocs(st1, Trueques, st1.trueques - {s.truequeOfrecidoId});
    assert ws[0] == Delete(Trueques, s.truequeSolicitadoId) && ws[1..][0] == Delete(Trueques, s.truequeOfrecidoId);
    assert ws[1..][1..] == [up];
    assert ApplyWrites(st, ws) == ApplyWrites(st1, ws[1..]);
    assert ApplyWrites(st1, ws[1..]) == ApplyWrites(st2, [up]);
    assert st2.trueques == st.trueques - {s.truequeSolicitadoId, s.truequeOfrecidoId};
    assert st2.solicitudes == st.solicitudes;
    SingleUpdate(st2, Solicitudes, s.id, map["estado" := Aceptada]);
    assert s.id in st.solicitudes ==>
      st.solicitudes[s.id] + map["estado" := Aceptada] == st.solicitudes[s.id]["estado" := Aceptada];
    Commit(st, ws, fault)
  }

  /** `onRechazar`: a single update of `estado`; it fails, changing nothing,
      when the backend fails or the request document is gone. */
  function Reject(st: Store, s: SolicitudTrueque, fault: bool): (r: Outcome)
    ensures r.ok <==> !fault && s.id in st.solicitudes
    ensures !r.ok ==> r.store == st
    ensures r.ok ==> r.store.trueques == st.trueques
    ensures r.ok ==> r.store.solicitudes == st.solicitudes[s.id := st.solicitudes[s.id]["estado" := Rechazada]]
  {
    SingleUpdate(st, Solicitudes, s.id, map["estado" := Rechazada]);
    assert s.id in st.solicitudes ==>
      st.solicitudes[s.id] + map["estado" := Rechazada] == st.solicitudes[s.id]["estado" := Rechazada];
    Commit(st, [Update(Solicitudes, s.id, map["estado" := Rechazada])], fault)
  }

  /** Once accepted, a request is in nobody's pending snapshot. */
  lemma AcceptedLeavesPending(st: Store, s: SolicitudTrueque, uid: string, snap: seq<RawDoc>)
    requires s.id in st.solicitudes
    requires IsSnapshot(snap, Accept(st, s, false).store, PendingFor(uid))
    ensures forall i :: 0 <= i < |snap| ==> snap[i].id != s.id
  {
    assert Accept(st, s, false).store.solicitudes[s.id]["estado"] != Pendiente;
  }

  /** Once rejected, a request is in nobody's pending snapshot. */
  lemma RejectedLeavesPending(st: Store, s: SolicitudTrueque, uid: string, snap: seq<RawDoc>)
    requires s.id in st.solicitudes
    requires IsSnapshot(snap, Reject(st, s, false).store, PendingFor(uid))
    ensures forall i :: 0 <= i < |snap| ==> snap[i].id != s.id
  {
    assert Reject(st, s, false).store.solicitudes[s.id]["estado"] != Pendiente;
  }

  /** A failed answer leaves the request pending where it was. */
  lemma FailedAnswerKeepsPending(st: Store, s: SolicitudTrueque, accepted: bool)
    ensures var r := if accepted then Accept(st, s, true) else Reject(st, s, true);
      !r.ok && r.store == st
  {
  }
}
