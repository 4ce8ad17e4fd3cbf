/** The app's two record types and the mappers that build them from raw
    documents of the `trueques` and `solicitudes` collections
    (MainScreen.kt, the `mapNotNull` blocks of the snapshot listeners). */
module Records {
  import opened Wrappers
  import opened Seqs

  /** The string fields of a stored document; a missing or non-string field is absent. */
  type Fields = map<string, string>

  /** A document as a snapshot delivers it: its store id and its fields. */
  datatype RawDoc = RawDoc(id: string, fields: Fields)

  datatype TipoTrueque = Objeto | Habilidad

  /** A published item or skill. */
  datatype TruequeItem = TruequeItem(
    id: string,
    titulo: string,
    descripcion: string,
    tipo: TipoTrueque,
    usuario: string,
    usuarioId: string,
    categoria: string)

  /** A trade request: the requested listing, the offered listing, who asks and who owns. */
  datatype SolicitudTrueque = SolicitudTrueque(
    id: string,
    truequeSolicitadoId: string,
    truequeSolicitadoTitulo: string,
    truequeOfrecidoId: string,
    truequeOfrecidoTitulo: string,
    solicitanteId: string,
    solicitanteNombre: string,
    propietarioId: string,
    estado: string)

  const CategoriaPorDefecto := "Otro"
  const Pendiente := "pendiente"
  const Aceptada := "aceptada"
  const Rechazada := "rechazada"

  /** The enum constant's `name`, as it is written into a document. */
  function TipoName(t: TipoTrueque): string {
    match t
    case Objeto => "OBJETO"
    case Habilidad => "HABILIDAD"
  }

  /** `doc.getString(key) ?: default`. */
  function FieldOr(f: Fields, key: string, default: string): string {
    if key in f then f[key] else default
  }

  /** The listing mapper: a document without `titulo` is dropped; the other
      fields fall back to their defaults; `tipo` is HABILIDAD only for that exact name. */
  function MapListing(d: RawDoc): (r: Option<TruequeItem>)
    ensures r.None? <==> "titulo" !in d.fields
    ensures r.Some? ==> r.value.id == d.id && r.value.titulo == d.fields["titulo"]
    ensures r.Some? ==> (r.value.tipo == Habilidad <==> "tipo" in d.fields && d.fields["tipo"] == "HABILIDAD")
    ensures r.Some? ==> r.value.descripcion == (if "descripcion" in d.fields then d.fields["descripcion"] else "")
    ensures r.Some? ==> r.value.usuario == (if "usuario" in d.fields then d.fields["usuario"] else "")
    ensures r.Some? ==> r.value.usuarioId == (if "usuarioId" in d.fields then d.fields["usuarioId"] else "")
    ensures r.Some? ==> r.value.categoria == (if "categoria" in d.fields then d.fields["categoria"] else "Otro")
  {
    var f := d.fields;
    if "titulo" !in f then None
    else
      var tipoStr := FieldOr(f, "tipo", TipoName(Objeto));
      Some(TruequeItem(
        id := d.id,
        titulo := f["titulo"],
        descripcion := FieldOr(f, "descripcion", ""),
        tipo := if tipoStr == TipoName(Habilidad) then Habilidad else Objeto,
        usuario := FieldOr(f, "usuario", ""),
        usuarioId := FieldOr(f, "usuarioId", ""),
        categoria := FieldOr(f, "categoria", CategoriaPorDefecto)))
  }

  /** The keys a listing document is written with (creation time aside). */
  const ListingKeys: set<string> := {"titulo", "descripcion", "tipo", "usuario", "usuarioId", "categoria"}

  /** The fields of a listing as the create-listing action writes them. */
  function ListingFields(x: TruequeItem): Fields {
    map["titulo" := x.titulo, "descripcion" := x.descripcion, "tipo" := TipoName(x.tipo),
        "usuario" := x.usuario, "usuarioId" := x.usuarioId, "categoria" := x.categoria]
  }

  /** Reading back what was written gives the listing back. */
  lemma ListingRoundTrip(x: TruequeItem)
    ensures MapListing(RawDoc(x.id, ListingFields(x))) == Some(x)
  {
  }

  /** A complete, well-typed listing document is exactly what its record writes. */
  lemma ListingFieldsRoundTrip(d: RawDoc)
    requires d.fields.Keys == ListingKeys
    requires d.fields["tipo"] == "OBJETO" || d.fields["tipo"] == "HABILIDAD"
    ensures MapListing(d).Some? && ListingFields(MapListing(d).value) == d.fields
  {
    assert ListingFields(MapListing(d).value).Keys == ListingKeys;
  }

  /** The listing mapper looks at no field outside the ones it names. */
  lemma ListingIgnoresOtherFields(d: RawDoc, k: string, v: string)
    requires k !in ListingKeys
    ensures MapListing(RawDoc(d.id, d.fields[k := v])) == MapListing(d)
  {
  }

  /** The proposal mapper: a document without `truequeSolicitadoId` or
      `truequeOfrecidoId` is dropped; other fields default to "" and `estado`
      to "pendiente". */
  function MapProposal(d: RawDoc): (r: Option<SolicitudTrueque>)
    ensures r.None? <==> "truequeSolicitadoId" !in d.fields || "truequeOfrecidoId" !in d.fields
    ensures r.Some? ==> r.value.id == d.id
    ensures r.Some? ==> r.value.truequeSolicitadoId == d.fields["truequeSolicitadoId"]
    ensures r.Some? ==> r.value.truequeOfrecidoId == d.fields["truequeOfrecidoId"]
    ensures r.Some? ==> r.value.estado == (if "estado" in d.fields then d.fields["estado"] else "pendiente")
    ensures r.Some? ==> r.value.propietarioId == (if "propietarioId" in d.fields then d.fields["propietarioId"] else "")
    ensures r.Some? ==> r.value.solicitanteId == (if "solicitanteId" in d.fields then d.fields["solicitanteId"] else "")
    ensures r.Some? ==> r.value.solicitanteNombre == (if "solicitanteNombre" in d.fields then d.fields["solicitanteNombre"] else "")
    ensures r.Some? ==> r.value.truequeSolicitadoTitulo == (if "truequeSolicitadoTitulo" in d.fields then d.fields["truequeSolicitadoTitulo"] else "")
    ensures r.Some? ==> r.value.truequeOfrecidoTitulo == (if "truequeOfrecidoTitulo" in d.fields then d.fields["truequeOfrecidoTitulo"] else "")
  {
    var f := d.fields;
    if "truequeSolicitadoId" !in f || "truequeOfrecidoId" !in f then None
    else
      Some(SolicitudTrueque(
        id := d.id,
        truequeSolicitadoId := f["truequeSolicitadoId"],
        truequeSolicitadoTitulo := FieldOr(f, "truequeSolicitadoTitulo", ""),
        truequeOfrecidoId := f["truequeOfrecidoId"],
        truequeOfrecidoTitulo := FieldOr(f, "truequeOfrecidoTitulo", ""),
        solicitanteId := FieldOr(f, "solicitanteId", ""),
        solicitanteNombre := FieldOr(f, "solicitanteNombre", ""),
        propietarioId := FieldOr(f, "propietarioId", ""),
        estado := FieldOr(f, "estado", Pendiente)))
  }

  /** The keys a proposal document is written with (creation time aside). */
  const ProposalKeys: set<string> := {
    "truequeSolicitadoId", "truequeSolicitadoTitulo", "truequeOfrecidoId", "truequeOfrecidoTitulo",
    "solicitanteId", "solicitanteNombre", "propietarioId", "estado"}

  /** The fields of a proposal as the send-proposal action writes them. */
  function ProposalFields(s: SolicitudTrueque): Fields {
    map["truequeSolicitadoId" := s.truequeSolicitadoId, "truequeSolicitadoTitulo" := s.truequeSolicitadoTitulo,
        "truequeOfrecidoId" := s.truequeOfrecidoId, "truequeOfrecidoTitulo" := s.truequeOfrecidoTitulo,
        "solicitanteId" := s.solicitanteId, "solicitanteNombre" := s.solicitanteNombre,
        "propietarioId" := s.propietarioId, "estado" := s.estado]
  }

  /** Reading back what was written gives the proposal back. */
  lemma ProposalRoundTrip(s: SolicitudTrueque)
    ensures MapProposal(RawDoc(s.id, ProposalFields(s))) == Some(s)
  {
  }

  /** A complete proposal document is exactly what its record writes. */
  lemma ProposalFieldsRoundTrip(d: RawDoc)
    requires d.fields.Keys == ProposalKeys
    ensures MapProposal(d).Some? && ProposalFields(MapProposal(d).value) == d.fields
  {
    assert ProposalFields(MapProposal(d).value).Keys == ProposalKeys;
  }

  /** The proposal mapper looks at no field outside the ones it names. */
  lemma ProposalIgnoresOtherFields(d: RawDoc, k: string, v: string)
    requires k !in ProposalKeys
    ensures MapProposal(RawDoc(d.id, d.fields[k := v])) == MapProposal(d)
  {
  }

  function DocId(d: RawDoc): string { d.id }
  function ItemId(x: TruequeItem): string { x.id }
  function ProposalId(s: SolicitudTrueque): string { s.id }

  /** A listing snapshot's documents, mapped; malformed ones dropped. */
  function MapListings(docs: seq<RawDoc>): (r: seq<TruequeItem>)
    ensures |r| <= |docs|
    ensures forall i :: 0 <= i < |r| ==> exists j :: 0 <= j < |docs| && MapListing(docs[j]) == Some(r[i])
    ensures forall j :: 0 <= j < |docs| && "titulo" in docs[j].fields ==> MapListing(docs[j]).value in r
  {
    MapNotNull(MapListing, docs)
  }

  /** A proposal snapshot's documents, mapped; malformed ones dropped. */
  function MapProposals(docs: seq<RawDoc>): (r: seq<SolicitudTrueque>)
    ensures |r| <= |docs|
    ensures forall i :: 0 <= i < |r| ==> exists j :: 0 <= j < |docs| && MapProposal(docs[j]) == Some(r[i])
    ensures forall j :: 0 <= j < |docs| && MapProposal(docs[j]).Some? ==> MapProposal(docs[j]).value in r
  {
    MapNotNull(MapProposal, docs)
  }

  /** The mapped listings keep the snapshot's order: their ids are a subsequence of the documents' ids. */
  lemma ListingsKeepSnapshotOrder(docs: seq<RawDoc>)
    ensures IsSubsequence(MapSeq(ItemId, MapListings(docs)), MapSeq(DocId, docs))
  {
    MapNotNullKeysInOrder(MapListing, docs, DocId, ItemId);
  }

  /** The mapped proposals keep the snapshot's order. */
  lemma ProposalsKeepSnapshotOrder(docs: seq<RawDoc>)
    ensures IsSubsequence(MapSeq(ProposalId, MapProposals(docs)), MapSeq(DocId, docs))
  {
    MapNotNullKeysInOrder(MapProposal, docs, DocId, ProposalId);
  }
}
