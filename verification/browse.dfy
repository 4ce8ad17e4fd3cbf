/** The browse screen `PantallaPrincipal`: the type tab, the free-text query and
    the category chip, applied as successive filters; the chip toggle, the
    type-chip shortcut to a tab and the favourites toggle. */
module Browse {
  import opened Wrappers
  import opened Text
  import opened Seqs
  import opened Records

  /** Tab 1 ("Objetos") admits only items, tab 2 ("Habilidades") only skills, any other tab everything. */
  predicate TabAdmits(tab: int, x: TruequeItem) {
    if tab == 1 then x.tipo == Objeto
    else if tab == 2 then x.tipo == Habilidad
    else true
  }

  /** A blank query admits everything; otherwise the trimmed query must occur,
      ignoring case, in the title, the description or the owner name. */
  predicate QueryAdmits(query: string, x: TruequeItem) {
    IsBlank(query) ||
      var q := Trim(query);
      ContainsIgnoreCase(x.titulo, q) || ContainsIgnoreCase(x.descripcion, q) || ContainsIgnoreCase(x.usuario, q)
  }

  /** No selected category admits everything; otherwise the category must be equal, ignoring case. */
  predicate CategoryAdmits(categoria: Option<string>, x: TruequeItem) {
    categoria.None? || EqualsIgnoreCase(x.categoria, categoria.value)
  }

  /** What the screen shows, stated in one piece. */
  ghost predicate Shown(tab: int, query: string, categoria: Option<string>, x: TruequeItem) {
    TabAdmits(tab, x) && QueryAdmits(query, x) && CategoryAdmits(categoria, x)
  }

  /** `itemsToShow`: the tab's filter. */
  function ByTab(items: seq<TruequeItem>, tab: int): (r: seq<TruequeItem>)
    ensures IsSubsequence(r, items)
    ensures forall i :: 0 <= i < |r| ==> r[i] in items && TabAdmits(tab, r[i])
    ensures forall j :: 0 <= j < |items| && TabAdmits(tab, items[j]) ==> items[j] in r
  {
    if tab == 1 then Filter((x: TruequeItem) => x.tipo == Objeto, items)
    else if tab == 2 then Filter((x: TruequeItem) => x.tipo == Habilidad, items)
    else
      assert IsSubsequence(items, items) by { FilterAll((x: TruequeItem) => true, items); }
      items
  }

  /** `itemsFiltrados`: the tab, then the query, then the category; the result
      is the order-preserving subsequence of exactly the items shown. */
  function Browse(items: seq<TruequeItem>, tab: int, query: string, categoria: Option<string>): (r: seq<TruequeItem>)
    ensures IsSubsequence(r, items)
    ensures forall i :: 0 <= i < |r| ==> r[i] in items && Shown(tab, query, categoria, r[i])
    ensures forall j :: 0 <= j < |items| && Shown(tab, query, categoria, items[j]) ==> items[j] in r
  {
    var a := ByTab(items, tab);
    var b := Filter(x => QueryAdmits(query, x), a);
    var c := Filter(x => CategoryAdmits(categoria, x), b);
    SubsequenceTransitive(c, b, a);
    SubsequenceTransitive(c, a, items);
    c
  }

  /** A query that is only whitespace filters nothing out. */
  lemma BlankQueryKeepsAll(items: seq<TruequeItem>, query: string)
    requires IsBlank(query)
    ensures Browse(items, 0, query, None) == items
  {
    FilterAll(x => QueryAdmits(query, x), items);
    FilterAll(x => CategoryAdmits(None, x), items);
  }

  /** The tab's filter is a single filter by `TabAdmits`. */
  lemma ByTabIsFilter(items: seq<TruequeItem>, tab: int)
    ensures ByTab(items, tab) == Filter(x => TabAdmits(tab, x), items)
  {
    if tab == 1 {
      FilterSame((x: TruequeItem) => x.tipo == Objeto, x => TabAdmits(tab, x), items);
    } else if tab == 2 {
      FilterSame((x: TruequeItem) => x.tipo == Habilidad, x => TabAdmits(tab, x), items);
    } else {
      FilterAll(x => TabAdmits(tab, x), items);
    }
  }

  /** The three successive filters of the screen are one filter by `Shown`:
      the shown list is determined, order and repetitions included. */
  lemma BrowseIsOneFilter(items: seq<TruequeItem>, tab: int, query: string, categoria: Option<string>)
    ensures Browse(items, tab, query, categoria) == Filter(x => Shown(tab, query, categoria, x), items)
  {
    ByTabIsFilter(items, tab);
    FilterFilter(x => TabAdmits(tab, x), x => QueryAdmits(query, x),
                 x => TabAdmits(tab, x) && QueryAdmits(query, x), items);
    FilterFilter(x => TabAdmits(tab, x) && QueryAdmits(query, x), x => CategoryAdmits(categoria, x),
                 x => Shown(tab, query, categoria, x), items);
  }

  /** Filtering a pair keeps each element exactly when it is admitted. */
  lemma FilterPair<T>(p: T -> bool, a: T, b: T)
    ensures Filter(p, [a, b]) == (if p(a) then [a] else []) + (if p(b) then [b] else [])
  {
    assert [a, b][1..] == [b];
    assert [b][1..] == [];
  }

  function Bici(): TruequeItem { TruequeItem("1", "Bicicleta", "", Objeto, "", "", "Deportes") }
  function Guitarra(): TruequeItem { TruequeItem("2", "Guitarra", "", Objeto, "", "", "Música") }

  /** "guit" occurs in "Guitarra" ignoring case, and nowhere in the bicycle listing. */
  lemma GuitQuery()
    ensures QueryAdmits("guit", Guitarra()) && !QueryAdmits("guit", Bici())
  {
    assert Trim("guit") == "guit" by { TrimFixed("guit"); }
    assert !IsWs("guit"[0]);
    assert MatchesAt(Guitarra().titulo, "guit", 0);
    var t := Bici().titulo;
    assert forall i :: 0 <= i < |t| ==> Fold(t[i]) != 'g';
    assert forall i :: !MatchesAt(t, "guit", i);
  }

  /** "zzz" occurs in neither listing. */
  lemma ZzzQuery()
    ensures !QueryAdmits("zzz", Guitarra()) && !QueryAdmits("zzz", Bici())
  {
    assert Trim("zzz") == "zzz" by { TrimFixed("zzz"); }
    assert !IsWs("zzz"[0]);
    var t, u := Bici().titulo, Guitarra().titulo;
    assert forall i :: 0 <= i < |t| ==> Fold(t[i]) != 'z';
    assert forall i :: 0 <= i < |u| ==> Fold(u[i]) != 'z';
    assert forall i :: !MatchesAt(t, "zzz", i) && !MatchesAt(u, "zzz", i);
  }

  /** The text filter step of the "guit" query. */
  lemma GuitFilter()
    ensures Filter((x: TruequeItem) => QueryAdmits("guit", x), [Bici(), Guitarra()]) == [Guitarra()]
  {
    GuitQuery();
    FilterPair((x: TruequeItem) => QueryAdmits("guit", x), Bici(), Guitarra());
  }

  /** A text query keeps only the listing it occurs in. */
  lemma QueryExample()
    ensures Browse([Bici(), Guitarra()], 0, "guit", None) == [Guitarra()]
  {
    assert ByTab([Bici(), Guitarra()], 0) == [Bici(), Guitarra()];
    GuitFilter();
    FilterAll((x: TruequeItem) => CategoryAdmits(None, x), [Guitarra()]);
  }

  /** A query that occurs nowhere leaves nothing. */
  lemma NoMatchExample()
    ensures Browse([Bici(), Guitarra()], 0, "zzz", None) == []
  {
    var items := [Bici(), Guitarra()];
    assert ByTab(items, 0) == items;
    ZzzQuery();
    FilterPair((x: TruequeItem) => QueryAdmits("zzz", x), Bici(), Guitarra());
  }

  /** A category keeps only the listing of that category. */
  lemma CategoryExample()
    ensures Browse([Bici(), Guitarra()], 0, "", Some("Deportes")) == [Bici()]
  {
    var items := [Bici(), Guitarra()];
    assert ByTab(items, 0) == items;
    assert IsBlank("");
    FilterAll((x: TruequeItem) => QueryAdmits("", x), [Bici(), Guitarra()]);
    assert EqualsIgnoreCase(Bici().categoria, "Deportes");
    assert |Guitarra().categoria| != |"Deportes"|;
    FilterPair((x: TruequeItem) => CategoryAdmits(Some("Deportes"), x), Bici(), Guitarra());
  }

  /** The chip click: the selected chip deselects, any other chip becomes the selection. */
  function ToggleCategory(seleccionada: Option<string>, nombre: string): (r: Option<string>)
    ensures r.None? <==> seleccionada == Some(nombre)
    ensures r.Some? ==> r.value == nombre
  {
    if seleccionada == Some(nombre) then None else Some(nombre)
  }

  /** Clicking a chip twice returns to the selection before the first click
      when that chip was selected, and to no selection otherwise. */
  lemma ToggleTwice(seleccionada: Option<string>, nombre: string)
    ensures ToggleCategory(ToggleCategory(seleccionada, nombre), nombre)
      == (if seleccionada == Some(nombre) then seleccionada else None)
  {
  }

  /** The tab a card's type chip jumps to; that tab admits exactly the items of that type. */
  function TabForTipo(t: TipoTrueque): (tab: int)
    ensures tab == 1 || tab == 2
    ensures forall x: TruequeItem :: TabAdmits(tab, x) <==> x.tipo == t
  {
    if t == Objeto then 1 else 2
  }

  ghost predicate NoDup(s: seq<string>) {
    forall i, j :: 0 <= i < j < |s| ==> s[i] != s[j]
  }

  /** `indexOf(x)` on a list holding `x`. */
  function FirstIndex(s: seq<string>, x: string): (i: nat)
    requires x in s
    ensures i < |s| && s[i] == x
    ensures forall k :: 0 <= k < i ==> s[k] != x
  {
    if s[0] == x then 0 else 1 + FirstIndex(s[1..], x)
  }

  /** `list.remove(x)` on a list holding `x`: drops its first occurrence and
      keeps every other element, in order. */
  function RemoveFirst(s: seq<string>, x: string): (r: seq<string>)
    requires x in s
    ensures |r| == |s| - 1
    ensures var i := FirstIndex(s, x);
      (forall k :: 0 <= k < i ==> r[k] == s[k]) && (forall k :: i <= k < |r| ==> r[k] == s[k + 1])
  {
    var i := FirstIndex(s, x);
    s[..i] + s[i + 1..]
  }

  /** The favourite button: removes the id when it is a favourite, adds it otherwise.
      The list never holds an id twice, and other ids are untouched. */
  function ToggleFavorite(favoritos: seq<string>, id: string): (r: seq<string>)
    ensures NoDup(favoritos) ==> NoDup(r)
    ensures NoDup(favoritos) ==> (id in r <==> id !in favoritos)
    ensures forall other :: other != id ==> (other in r <==> other in favoritos)
  {
    if id in favoritos then
      var r := RemoveFirst(favoritos, id);
      assert (NoDup(favoritos) ==> NoDup(r) && id !in r) && forall other :: other != id ==> (other in r <==> other in favoritos) by {
        var i := FirstIndex(favoritos, id);
        assert forall k :: 0 <= k < |r| ==> r[k] == favoritos[if k < i then k else k + 1];
        assert forall k :: 0 <= k < |favoritos| && k != i ==> favoritos[k] == r[if k < i then k else k - 1];
      }
      r
    else favoritos + [id]
  }
}
