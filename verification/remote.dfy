/** The remote document store as the app uses it: the `trueques` and
    `solicitudes` collections, `add`, `update`, `delete`, the all-or-nothing
    write batch (`runBatch`), and the three queries the app listens to. */
module Remote {
  import opened Wrappers
  import opened Records

  /** A collection: document id to fields. */
  type Collection = map<string, Fields>

  datatype Coll = Trueques | Solicitudes

  datatype Store = Store(trueques: Collection, solicitudes: Collection)

  function Docs(st: Store, c: Coll): Collection {
    match c
    case Trueques => st.trueques
    case Solicitudes => st.solicitudes
  }

  function WithDocs(st: Store, c: Coll, m: Collection): (r: Store)
    ensures Docs(r, c) == m
    ensures forall c' :: c' != c ==> Docs(r, c') == Docs(st, c')
  {
    match c
    case Trueques => st.(trueques := m)
    case Solicitudes => st.(solicitudes := m)
  }

  /** `add(fields)`: a new document under the id the store generates. */
  function Add(st: Store, c: Coll, newId: string, fields: Fields): (r: Store)
    requires newId !in Docs(st, c)
    ensures Docs(r, c).Keys == Docs(st, c).Keys + {newId}
    ensures Docs(r, c)[newId] == fields
    ensures forall id :: id in Docs(st, c) ==> Docs(r, c)[id] == Docs(st, c)[id]
    ensures forall c' :: c' != c ==> Docs(r, c') == Docs(st, c')
  {
    WithDocs(st, c, Docs(st, c)[newId := fields])
  }

  /** One write of a batch. `Update` merges the given fields into an existing document. */
  datatype Write = Delete(coll: Coll, id: string) | Update(coll: Coll, id: string, changes: Fields)

  /** The writes applied in order; None when an update names a missing document,
      which makes the backend reject the whole batch. */
  function ApplyWrites(st: Store, ws: seq<Write>): (r: Option<Store>)
    decreases |ws|
    ensures (forall k :: 0 <= k < |ws| ==> ws[k].Delete?) ==> r.Some?
    ensures |ws| > 0 && ws[0].Update? && ws[0].id !in Docs(st, ws[0].coll) ==> r.None?
    ensures r.Some? ==> forall c :: Docs(r.value, c).Keys <= Docs(st, c).Keys
  {
    if |ws| == 0 then Some(st)
    else
      assert forall k :: 0 <= k < |ws| - 1 ==> ws[1..][k] == ws[k + 1];
      match ws[0]
      case Delete(c, id) => ApplyWrites(WithDocs(st, c, Docs(st, c) - {id}), ws[1..])
      case Update(c, id, ch) =>
        if id !in Docs(st, c) then None
        else ApplyWrites(WithDocs(st, c, Docs(st, c)[id := Docs(st, c)[id] + ch]), ws[1..])
  }

  /** A batch is its writes in order: the first part is applied, and the rest
      continues from its result, or the whole batch fails with it. */
  lemma {:induction false} ApplyWritesAppend(st: Store, a: seq<Write>, b: seq<Write>)
    ensures ApplyWrites(st, a + b) == (match ApplyWrites(st, a) case None => None case Some(m) => ApplyWrites(m, b))
    decreases |a|
  {
    if |a| == 0 {
      assert a + b == b;
    } else {
      assert (a + b)[0] == a[0] && (a + b)[1..] == a[1..] + b;
      match a[0]
      case Delete(c, id) =>
        ApplyWritesAppend(WithDocs(st, c, Docs(st, c) - {id}), a[1..], b);
      case Update(c, id, ch) =>
        if id in Docs(st, c) {
          ApplyWritesAppend(WithDocs(st, c, Docs(st, c)[id := Docs(st, c)[id] + ch]), a[1..], b);
        }
    }
  }

  /** Deleting a document that does not exist succeeds and changes nothing. */
  lemma DeleteMissingIsNoop(st: Store, c: Coll, id: string)
    requires id !in Docs(st, c)
    ensures ApplyWrites(st, [Delete(c, id)]) == Some(st)
  {
    assert Docs(st, c) - {id} == Docs(st, c);
    assert [Delete(c, id)][1..] == [];
  }

  /** The store after a write request, and whether the backend accepted it. */
  datatype Outcome = Outcome(store: Store, ok: bool)

  /** A batch commit: every write lands, or none does. `fault` stands for a
      failure the backend reports for reasons of its own (network, permissions). */
  function Commit(st: Store, ws: seq<Write>, fault: bool): (r: Outcome)
    ensures !r.ok ==> r.store == st
    ensures r.ok ==> Some(r.store) == ApplyWrites(st, ws)
    ensures r.ok <==> !fault && ApplyWrites(st, ws).Some?
  {
    if fault then Outcome(st, false)
    else
      match ApplyWrites(st, ws)
      case Some(st') => Outcome(st', true)
      case None => Outcome(st, false)
  }

  /** The three live queries of the app. */
  datatype Query =
    | AllListings                 // trueques, newest first
    | ListingsOf(uid: string)     // trueques where usuarioId == uid
    | PendingFor(uid: string)     // solicitudes where propietarioId == uid and estado == "pendiente"

  /** `whereEqualTo(key, value)` on one document: the field is present and equal. */
  predicate FieldIs(f: Fields, key: string, value: string) {
    key in f && f[key] == value
  }

  predicate Selects(q: Query, f: Fields) {
    match q
    case AllListings => true
    case ListingsOf(uid) => FieldIs(f, "usuarioId", uid)
    case PendingFor(uid) => FieldIs(f, "propietarioId", uid) && FieldIs(f, "estado", Pendiente)
  }

  function Target(q: Query): Coll {
    match q
    case AllListings => Trueques
    case ListingsOf(_) => Trueques
    case PendingFor(_) => Solicitudes
  }

  /** `snap` is a snapshot of query `q` over `st`: each matching document once,
      as stored, in some order. */
  ghost predicate IsSnapshot(snap: seq<RawDoc>, st: Store, q: Query) {
    var docs := Docs(st, Target(q));
    && (forall i, j :: 0 <= i < j < |snap| ==> snap[i].id != snap[j].id)
    && (forall i :: 0 <= i < |snap| ==> snap[i].id in docs && docs[snap[i].id] == snap[i].fields)
    && (forall i :: 0 <= i < |snap| ==> Selects(q, snap[i].fields))
    && (forall id :: id in docs && Selects(q, docs[id]) ==> exists i :: 0 <= i < |snap| && snap[i].id == id)
  }
}
