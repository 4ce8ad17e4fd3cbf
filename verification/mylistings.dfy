/** The "my listings" projection `misTruequesParaUI`: the user's own listings,
    followed by legacy listings (no owner id) whose owner name matches the
    user's display name, de-duplicated by id with the first occurrence kept. */
module MyListings {
  import opened Text
  import opened Seqs
  import opened Records

  function IdSet(s: seq<TruequeItem>): set<string> {
    set i | 0 <= i < |s| :: s[i].id
  }

  ghost predicate UniqueIds(s: seq<TruequeItem>) {
    forall i, j :: 0 <= i < j < |s| ==> s[i].id != s[j].id
  }

  /** `s[j]` is the first element of `s` with its id. */
  ghost predicate FirstWithId(s: seq<TruequeItem>, j: int)
    requires 0 <= j < |s|
  {
    forall k :: 0 <= k < j ==> s[k].id != s[j].id
  }

  /** `distinctBy { it.id }` over `s`, for ids not already in `seen`:
      no id twice, order kept, and for every id the first element carrying it. */
  function DistinctFrom(s: seq<TruequeItem>, seen: set<string>): (r: seq<TruequeItem>)
    ensures UniqueIds(r)
    ensures forall i :: 0 <= i < |r| ==> r[i].id !in seen
    ensures IsSubsequence(r, s)
    ensures forall j :: 0 <= j < |s| && s[j].id !in seen ==> s[j].id in IdSet(r)
    ensures forall j :: 0 <= j < |s| && s[j].id !in seen && FirstWithId(s, j) ==> s[j] in r
    decreases |s|
  {
    if |s| == 0 then []
    else
      var rest := DistinctFrom(s[1..], seen + {s[0].id});
      var skip := DistinctFrom(s[1..], seen);
      if s[0].id in seen then
        assert forall j :: 1 <= j < |s| ==> s[j] == s[1..][j - 1];
        skip
      else
        var r := [s[0]] + rest;
        assert r[1..] == rest;
        assert r[0].id in IdSet(r);
        assert forall i :: 0 <= i < |rest| ==> rest[i] == r[i + 1];
        assert forall j :: 1 <= j < |s| ==> s[j] == s[1..][j - 1];
        r
  }

  /** Only first occurrences are kept: every element of the result is the
      first element of `s` carrying its id. Together with the subsequence
      order this fixes the result of `distinctBy` completely. */
  lemma {:induction false} DistinctFromFirstOnly(s: seq<TruequeItem>, seen: set<string>)
    ensures forall i :: 0 <= i < |DistinctFrom(s, seen)| ==>
      exists j :: 0 <= j < |s| && FirstWithId(s, j) && DistinctFrom(s, seen)[i] == s[j]
    decreases |s|
  {
    if |s| > 0 {
      var r := DistinctFrom(s, seen);
      if s[0].id in seen {
        DistinctFromFirstOnly(s[1..], seen);
        assert r == DistinctFrom(s[1..], seen);
        forall i | 0 <= i < |r| ensures exists j :: 0 <= j < |s| && FirstWithId(s, j) && r[i] == s[j] {
          assert exists j :: 0 <= j < |s[1..]| && FirstWithId(s[1..], j) && r[i] == s[1..][j];
          var j :| 0 <= j < |s[1..]| && FirstWithId(s[1..], j) && r[i] == s[1..][j];
          assert r[i].id !in seen;
          assert FirstWithId(s, j + 1);
        }
      } else {
        var seen' := seen + {s[0].id};
        var rest := DistinctFrom(s[1..], seen');
        DistinctFromFirstOnly(s[1..], seen');
        assert r == [s[0]] + rest;
        forall i | 0 <= i < |r| ensures exists j :: 0 <= j < |s| && FirstWithId(s, j) && r[i] == s[j] {
          if i == 0 {
            assert FirstWithId(s, 0);
          } else {
            assert r[i] == rest[i - 1];
            assert exists j :: 0 <= j < |s[1..]| && FirstWithId(s[1..], j) && rest[i - 1] == s[1..][j];
            var j :| 0 <= j < |s[1..]| && FirstWithId(s[1..], j) && rest[i - 1] == s[1..][j];
            assert rest[i - 1].id !in seen';
            assert FirstWithId(s, j + 1);
          }
        }
      }
      assert r == DistinctFrom(s, seen);
    } else {
      assert DistinctFrom(s, seen) == [];
    }
  }

  /** `s.distinctBy { it.id }`: no id twice, order kept, every id of `s`
      present through the first element carrying it; a list whose ids are
      already unique is returned as it is. */
  function DistinctById(s: seq<TruequeItem>): (r: seq<TruequeItem>)
    ensures UniqueIds(r) && IsSubsequence(r, s)
    ensures forall j :: 0 <= j < |s| ==> s[j].id in IdSet(r)
    ensures forall j :: 0 <= j < |s| && FirstWithId(s, j) ==> s[j] in r
    ensures UniqueIds(s) ==> r == s
  {
    assert UniqueIds(s) ==> DistinctFrom(s, {}) == s by {
      if UniqueIds(s) { DistinctUnique(s, {}); }
    }
    DistinctFrom(s, {})
  }

  /** The ids of a non-empty sequence: the head's id and the tail's ids. */
  lemma IdSetCons(a: seq<TruequeItem>)
    requires |a| > 0
    ensures IdSet(a) == {a[0].id} + IdSet(a[1..])
  {
    forall id | id in IdSet(a) ensures id in {a[0].id} + IdSet(a[1..]) {
      var i :| 0 <= i < |a| && a[i].id == id;
      if i > 0 { assert a[1..][i - 1].id == id; }
    }
    forall id | id in IdSet(a[1..]) ensures id in IdSet(a) {
      var i :| 0 <= i < |a[1..]| && a[1..][i].id == id;
      assert a[i + 1].id == id;
    }
  }

  /** De-duplicating a concatenation de-duplicates the first part, then
      continues with the second part past the first part's ids. */
  lemma {:induction false} DistinctAppend(a: seq<TruequeItem>, b: seq<TruequeItem>, seen: set<string>)
    ensures DistinctFrom(a + b, seen) == DistinctFrom(a, seen) + DistinctFrom(b, seen + IdSet(a))
    decreases |a|
  {
    if |a| == 0 {
      assert a + b == b;
      assert IdSet(a) == {};
      assert seen + IdSet(a) == seen;
    } else {
      assert (a + b)[0] == a[0];
      assert (a + b)[1..] == a[1..] + b;
      IdSetCons(a);
      if a[0].id in seen {
        DistinctAppend(a[1..], b, seen);
        assert seen + IdSet(a[1..]) == seen + IdSet(a);
      } else {
        DistinctAppend(a[1..], b, seen + {a[0].id});
        assert seen + {a[0].id} + IdSet(a[1..]) == seen + IdSet(a);
      }
    }
  }

  /** A sequence whose ids are already unique and unseen is left as it is. */
  lemma {:induction false} DistinctUnique(s: seq<TruequeItem>, seen: set<string>)
    requires UniqueIds(s)
    requires forall i :: 0 <= i < |s| ==> s[i].id !in seen
    ensures DistinctFrom(s, seen) == s
    decreases |s|
  {
    if |s| > 0 {
      DistinctUnique(s[1..], seen + {s[0].id});
      assert s == [s[0]] + s[1..];
    }
  }

  /** A global listing shown as the user's: no owner id, and an owner name equal,
      ignoring case, to the user's trimmed display name. */
  predicate LegacyMatch(x: TruequeItem, nombre: string) {
    IsBlank(x.usuarioId) && EqualsIgnoreCase(x.usuario, nombre)
  }

  /** The legacy listings that `misTruequesParaUI` adds for a display name:
      every matching listing, in order and as often as it occurs. */
  function SinId(globales: seq<TruequeItem>, nombreActual: string): (r: seq<TruequeItem>)
    ensures forall i :: 0 <= i < |r| ==> r[i] in globales && !IsBlank(nombreActual) && LegacyMatch(r[i], Trim(nombreActual))
    ensures !IsBlank(nombreActual) ==> forall j :: 0 <= j < |globales| && LegacyMatch(globales[j], Trim(nombreActual)) ==>
      globales[j] in r
    ensures IsBlank(nombreActual) ==> r == []
    ensures IsSubsequence(r, globales)
  {
    var nombre := Trim(nombreActual);
    TrimBlankIff(nombreActual);
    if IsBlank(nombre) then [] else Filter(x => LegacyMatch(x, nombre), globales)
  }

  /** The legacy listings are taken as often as they occur among the global ones. */
  lemma SinIdCounts(globales: seq<TruequeItem>, nombreActual: string)
    ensures forall y ::
      multiset(SinId(globales, nombreActual))[y] ==
      (if !IsBlank(nombreActual) && LegacyMatch(y, Trim(nombreActual)) then multiset(globales)[y] else 0)
  {
    FilterCounts(x => LegacyMatch(x, Trim(nombreActual)), globales);
  }

  /** The de-duplicated concatenation starts with the de-duplicated first part. */
  lemma DistinctKeepsPrefix(a: seq<TruequeItem>, b: seq<TruequeItem>)
    ensures DistinctById(a) <= DistinctById(a + b)
    ensures UniqueIds(a) ==> a <= DistinctById(a + b)
  {
    DistinctAppend(a, b, {});
    if UniqueIds(a) {
      DistinctUnique(a, {});
    }
  }

  /** Every element kept comes from one of the two parts, and every id of
      either part is kept. */
  lemma DistinctMembers(a: seq<TruequeItem>, b: seq<TruequeItem>)
    ensures var r := DistinctById(a + b);
      && (forall i :: 0 <= i < |r| ==> r[i] in a || r[i] in b)
      && (forall j :: 0 <= j < |a| ==> a[j].id in IdSet(r))
      && (forall j :: 0 <= j < |b| ==> b[j].id in IdSet(r))
  {
    var r := DistinctById(a + b);
    SubsequenceMembers(r, a + b);
    forall j | 0 <= j < |a| ensures a[j].id in IdSet(r) {
      assert (a + b)[j] == a[j];
    }
    forall j | 0 <= j < |b| ensures b[j].id in IdSet(r) {
      assert (a + b)[|a| + j] == b[j];
    }
  }

  /** What the merged list holds: own listings and matching legacy listings
      only, with every id of either kind present. */
  lemma MisTruequesMembers(globales: seq<TruequeItem>, mios: seq<TruequeItem>, nombreActual: string)
    ensures var r := DistinctById(mios + SinId(globales, nombreActual));
      && (forall i :: 0 <= i < |r| ==>
            r[i] in mios || (r[i] in globales && !IsBlank(nombreActual) && LegacyMatch(r[i], Trim(nombreActual))))
      && (forall j :: 0 <= j < |mios| ==> mios[j].id in IdSet(r))
      && (!IsBlank(nombreActual) ==> forall j :: 0 <= j < |globales| && LegacyMatch(globales[j], Trim(nombreActual)) ==>
            globales[j].id in IdSet(r))
  {
    var sinId := SinId(globales, nombreActual);
    DistinctMembers(mios, sinId);
    assert forall j :: 0 <= j < |globales| && globales[j] in sinId ==> exists k :: 0 <= k < |sinId| && sinId[k] == globales[j];
  }

  /** `misTruequesParaUI`: unique ids; the user's own listings first, in order;
      then only legacy listings matching the trimmed, non-blank display name. */
  function MisTrueques(globales: seq<TruequeItem>, mios: seq<TruequeItem>, nombreActual: string): (r: seq<TruequeItem>)
    ensures UniqueIds(r)
    ensures IsSubsequence(r, mios + SinId(globales, nombreActual))
    ensures DistinctById(mios) <= r
    ensures UniqueIds(mios) ==> mios <= r
    ensures forall i :: 0 <= i < |r| ==>
      r[i] in mios || (r[i] in globales && !IsBlank(nombreActual) && LegacyMatch(r[i], Trim(nombreActual)))
    ensures forall j :: 0 <= j < |mios| ==> mios[j].id in IdSet(r)
    ensures !IsBlank(nombreActual) ==> forall j :: 0 <= j < |globales| && LegacyMatch(globales[j], Trim(nombreActual)) ==>
      globales[j].id in IdSet(r)
    ensures IsBlank(nombreActual) ==> r == DistinctById(mios)
  {
    var sinId := SinId(globales, nombreActual);
    DistinctKeepsPrefix(mios, sinId);
    MisTruequesMembers(globales, mios, nombreActual);
    assert IsBlank(nombreActual) ==> mios + sinId == mios;
    DistinctById(mios + sinId)
  }
}
