/** The client-side caches of `AppTrueque` and the session gate that drives
    them: each snapshot listener replaces its cache wholesale, a null
    snapshot leaves it alone, and a blank uid clears the personal caches. */
module Session {
  import opened Wrappers
  import opened Text
  import opened Seqs
  import opened Records
  import opened Remote

  /** `uidActual`, `nombreUsuarioActual`, `truequesGlobales`, `misTrueques`, `solicitudesPendientes`. */
  datatype Caches = Caches(
    uid: string,
    nombre: string,
    globales: seq<TruequeItem>,
    mios: seq<TruequeItem>,
    pendientes: seq<SolicitudTrueque>)

  /** The callbacks that reach the caches, one per listener. */
  datatype Event =
    | AuthChanged(user: Option<string>)          // auth state listener: the current user's uid
    | ProfileSnapshot(profile: Option<Fields>)   // usuarios/{uid}
    | GlobalSnapshot(snap: Option<seq<RawDoc>>)  // every listing
    | OwnSnapshot(snap: Option<seq<RawDoc>>)     // listings with usuarioId == uid
    | PendingSnapshot(snap: Option<seq<RawDoc>>) // pending proposals addressed to uid

  /** With no signed-in user there is no personal data. */
  ghost predicate Gated(c: Caches) {
    IsBlank(c.uid) ==> c.mios == [] && c.pendientes == [] && c.nombre == ""
  }

  /** The state when the app is first composed. */
  function Start(currentUser: Option<string>): (c: Caches)
    ensures c.uid == currentUser.GetOr("")
    ensures c.globales == [] && c.mios == [] && c.pendientes == [] && c.nombre == ""
    ensures Gated(c)
  {
    Caches(currentUser.GetOr(""), "", [], [], [])
  }

  /** The auth listener stores the new uid; the effects keyed on the uid re-run
      only when it changed: a blank uid clears the personal caches and the name,
      a different signed-in uid keeps them until its own snapshots arrive. */
  function OnAuthChanged(c: Caches, user: Option<string>): (r: Caches)
    ensures r.uid == user.GetOr("")
    ensures r.globales == c.globales
    ensures IsBlank(r.uid) && r.uid != c.uid ==> r.mios == [] && r.pendientes == [] && r.nombre == ""
    ensures !IsBlank(r.uid) || r.uid == c.uid ==> r.mios == c.mios && r.pendientes == c.pendientes && r.nombre == c.nombre
    ensures Gated(c) ==> Gated(r)
  {
    var uid := user.GetOr("");
    if uid == c.uid then c
    else if IsBlank(uid) then Caches(uid, "", c.globales, [], [])
    else c.(uid := uid)
  }

  /** The profile listener: the `nombre` field, or "" when the snapshot or
      the field is missing. No listener runs while the uid is blank. */
  function OnProfileSnapshot(c: Caches, profile: Option<Fields>): (r: Caches)
    ensures r.(nombre := c.nombre) == c
    ensures !IsBlank(c.uid) && profile.Some? && "nombre" in profile.value ==> r.nombre == profile.value["nombre"]
    ensures !IsBlank(c.uid) && (profile.None? || "nombre" !in profile.value) ==> r.nombre == ""
    ensures IsBlank(c.uid) ==> r == c
  {
    if IsBlank(c.uid) then c
    else
      match profile
      case None => c.(nombre := "")
      case Some(f) => c.(nombre := FieldOr(f, "nombre", ""))
  }

  /** The all-listings listener: a snapshot replaces the cache with its mapped
      documents, in snapshot order; a null snapshot changes nothing. */
  function OnGlobalSnapshot(c: Caches, snap: Option<seq<RawDoc>>): (r: Caches)
    ensures r.(globales := c.globales) == c
    ensures snap.None? ==> r == c
    ensures snap.Some? ==> forall i :: 0 <= i < |r.globales| ==>
      exists j :: 0 <= j < |snap.value| && MapListing(snap.value[j]) == Some(r.globales[i])
    ensures snap.Some? ==> forall j :: 0 <= j < |snap.value| && "titulo" in snap.value[j].fields ==>
      MapListing(snap.value[j]).value in r.globales
    ensures snap.Some? ==> IsSubsequence(MapSeq(ItemId, r.globales), MapSeq(DocId, snap.value))
  {
    match snap
    case None => c
    case Some(docs) =>
      ListingsKeepSnapshotOrder(docs);
      c.(globales := MapListings(docs))
  }

  /** The own-listings listener, registered only for a non-blank uid. */
  function OnOwnSnapshot(c: Caches, snap: Option<seq<RawDoc>>): (r: Caches)
    ensures r.(mios := c.mios) == c
    ensures snap.None? || IsBlank(c.uid) ==> r == c
    ensures snap.Some? && !IsBlank(c.uid) ==> forall i :: 0 <= i < |r.mios| ==>
      exists j :: 0 <= j < |snap.value| && MapListing(snap.value[j]) == Some(r.mios[i])
    ensures snap.Some? && !IsBlank(c.uid) ==> forall j :: 0 <= j < |snap.value| && "titulo" in snap.value[j].fields ==>
      MapListing(snap.value[j]).value in r.mios
    ensures snap.Some? && !IsBlank(c.uid) ==> IsSubsequence(MapSeq(ItemId, r.mios), MapSeq(DocId, snap.value))
  {
    if snap.None? || IsBlank(c.uid) then c
    else
      ListingsKeepSnapshotOrder(snap.value);
      c.(mios := MapListings(snap.value))
  }

  /** The pending-proposals listener, registered only for a non-blank uid. */
  function OnPendingSnapshot(c: Caches, snap: Option<seq<RawDoc>>): (r: Caches)
    ensures r.(pendientes := c.pendientes) == c
    ensures snap.None? || IsBlank(c.uid) ==> r == c
    ensures snap.Some? && !IsBlank(c.uid) ==> forall i :: 0 <= i < |r.pendientes| ==>
      exists j :: 0 <= j < |snap.value| && MapProposal(snap.value[j]) == Some(r.pendientes[i])
    ensures snap.Some? && !IsBlank(c.uid) ==> forall j :: 0 <= j < |snap.value| && MapProposal(snap.value[j]).Some? ==>
      MapProposal(snap.value[j]).value in r.pendientes
    ensures snap.Some? && !IsBlank(c.uid) ==> IsSubsequence(MapSeq(ProposalId, r.pendientes), MapSeq(DocId, snap.value))
  {
    if snap.None? || IsBlank(c.uid) then c
    else
      ProposalsKeepSnapshotOrder(snap.value);
      c.(pendientes := MapProposals(snap.value))
  }

  /** One callback. Every callback keeps the session gate. */
  function Step(c: Caches, e: Event): (r: Caches)
    ensures Gated(c) ==> Gated(r)
  {
    match e
    case AuthChanged(user) => OnAuthChanged(c, user)
    case ProfileSnapshot(p) => OnProfileSnapshot(c, p)
    case GlobalSnapshot(s) => OnGlobalSnapshot(c, s)
    case OwnSnapshot(s) => OnOwnSnapshot(c, s)
    case PendingSnapshot(s) => OnPendingSnapshot(c, s)
  }

  /** A run of callbacks from the start state. */
  function Run(c: Caches, es: seq<Event>): Caches
    decreases |es|
  {
    if |es| == 0 then c else Run(Step(c, es[0]), es[1..])
  }

  /** However the callbacks interleave, a signed-out session shows no personal data. */
  lemma {:induction false} RunKeepsGate(c: Caches, es: seq<Event>)
    requires Gated(c)
    ensures Gated(Run(c, es))
    decreases |es|
  {
    if |es| > 0 {
      RunKeepsGate(Step(c, es[0]), es[1..]);
    }
  }

  /** The personal caches hold only the signed-in user's data. */
  ghost predicate OwnedByUid(c: Caches) {
    && (forall i :: 0 <= i < |c.mios| ==> c.mios[i].usuarioId == c.uid)
    && (forall i :: 0 <= i < |c.pendientes| ==> c.pendientes[i].propietarioId == c.uid && c.pendientes[i].estado == Pendiente)
  }

  /** An own-listings snapshot of the store for the current uid holds only that
      user's listings. */
  lemma OwnSnapshotIsOwned(c: Caches, st: Store, snap: seq<RawDoc>)
    requires !IsBlank(c.uid) && IsSnapshot(snap, st, ListingsOf(c.uid))
    ensures forall i :: 0 <= i < |OnOwnSnapshot(c, Some(snap)).mios| ==> OnOwnSnapshot(c, Some(snap)).mios[i].usuarioId == c.uid
  {
    var m := OnOwnSnapshot(c, Some(snap)).mios;
    forall i | 0 <= i < |m| ensures m[i].usuarioId == c.uid {
      var j :| 0 <= j < |snap| && MapListing(snap[j]) == Some(m[i]);
      assert FieldIs(snap[j].fields, "usuarioId", c.uid);
    }
  }

  /** A pending snapshot of the store for the current uid holds only pending
      proposals addressed to that user. */
  lemma PendingSnapshotIsOwned(c: Caches, st: Store, snap: seq<RawDoc>)
    requires !IsBlank(c.uid) && IsSnapshot(snap, st, PendingFor(c.uid))
    ensures var p := OnPendingSnapshot(c, Some(snap)).pendientes;
      forall i :: 0 <= i < |p| ==> p[i].propietarioId == c.uid && p[i].estado == Pendiente
  {
    var p := OnPendingSnapshot(c, Some(snap)).pendientes;
    forall i | 0 <= i < |p| ensures p[i].propietarioId == c.uid && p[i].estado == Pendiente {
      var j :| 0 <= j < |snap| && MapProposal(snap[j]) == Some(p[i]);
      assert Selects(PendingFor(c.uid), snap[j].fields);
    }
  }

  /** Switching straight from one signed-in user to another keeps the previous
      user's listings in the cache until the new user's first snapshot. */
  lemma SwitchKeepsPreviousUsersListings()
    ensures var item := TruequeItem("t1", "Bici", "", Objeto, "Ana", "u1", "Otro");
      var c := Caches("u1", "Ana", [], [item], []);
      OwnedByUid(c) && !OwnedByUid(OnAuthChanged(c, Some("u2")))
  {
    var item := TruequeItem("t1", "Bici", "", Objeto, "Ana", "u1", "Otro");
    var c := Caches("u1", "Ana", [], [item], []);
    var r := OnAuthChanged(c, Some("u2"));
    assert !IsWs('u');
    assert r.mios[0].usuarioId != r.uid;
  }
}
