/**
 * The favourite candidates kept in a cookie: a list with one entry per slug,
 * in order of addition, with membership, add, remove, toggle and clear, the
 * list newest first and its size. The clock is a parameter (`now`).
 */
module Favoritos {
  import opened Wrappers
  import opened Seqs

  /** A favourite as the page hands it over, before its timestamp is set. */
  datatype NovoFavorito = NovoFavorito(
    slug: string, nome: string, nomeCompleto: Option<string>, uf: string,
    partido: Option<string>, cargo: Option<string>)

  datatype Favorito = Favorito(
    slug: string, nome: string, nomeCompleto: Option<string>, uf: string,
    partido: Option<string>, cargo: Option<string>, addedAt: int)

  function Slug(f: Favorito): string { f.slug }
  function AddedAtKey(f: Favorito): real { f.addedAt as real }

  /** `{...candidato, addedAt: now}`. */
  function Stamp(c: NovoFavorito, now: int): (f: Favorito)
    ensures f.slug == c.slug && f.addedAt == now
    ensures f.nome == c.nome && f.nomeCompleto == c.nomeCompleto && f.uf == c.uf
    ensures f.partido == c.partido && f.cargo == c.cargo
  {
    Favorito(c.slug, c.nome, c.nomeCompleto, c.uf, c.partido, c.cargo, now)
  }

  predicate IsFavorito(fs: seq<Favorito>, slug: string) {
    exists i :: 0 <= i < |fs| && fs[i].slug == slug
  }

  /** The list after adding: unchanged when the slug is present, otherwise the new entry at the end. */
  function Added(fs: seq<Favorito>, c: NovoFavorito, now: int): seq<Favorito> {
    if IsFavorito(fs, c.slug) then fs else fs + [Stamp(c, now)]
  }

  /** The list after removing: the entries with another slug, in order. */
  function Removed(fs: seq<Favorito>, slug: string): seq<Favorito> {
    Filter(fs, (f: Favorito) => f.slug != slug)
  }

  function Toggled(fs: seq<Favorito>, c: NovoFavorito, now: int): seq<Favorito> {
    if IsFavorito(fs, c.slug) then Removed(fs, c.slug) else Added(fs, c, now)
  }

  /** `[...favoritos].sort((a, b) => b.addedAt - a.addedAt)`. */
  function Ordenados(fs: seq<Favorito>): seq<Favorito> {
    SortDesc(fs, AddedAtKey)
  }

  // ---------------------------------------------------------------------------
  // Properties

  /** After adding, the slug is a favourite, nothing else changes membership, and at most one entry is new. */
  lemma AddedSpec(fs: seq<Favorito>, c: NovoFavorito, now: int)
    ensures var r := Added(fs, c, now);
      && IsFavorito(r, c.slug)
      && (forall s :: s != c.slug ==> (IsFavorito(r, s) <==> IsFavorito(fs, s)))
      && (IsFavorito(fs, c.slug) ==> r == fs)
      && (!IsFavorito(fs, c.slug) ==> r[..|fs|] == fs && |r| == |fs| + 1 && r[|fs|] == Stamp(c, now))
  {
    var r := Added(fs, c, now);
    if !IsFavorito(fs, c.slug) {
      assert r[|fs|].slug == c.slug;
      forall s | s != c.slug ensures IsFavorito(r, s) <==> IsFavorito(fs, s) {
        if IsFavorito(r, s) {
          var i :| 0 <= i < |r| && r[i].slug == s;
          assert fs[i].slug == s;
        }
        if IsFavorito(fs, s) {
          var i :| 0 <= i < |fs| && fs[i].slug == s;
          assert r[i].slug == s;
        }
      }
    }
  }

  /** After removing, the slug is no favourite and every other slug keeps its membership. */
  lemma RemovedSpec(fs: seq<Favorito>, slug: string)
    ensures var r := Removed(fs, slug);
      && !IsFavorito(r, slug)
      && (forall s :: s != slug ==> (IsFavorito(r, s) <==> IsFavorito(fs, s)))
      && |r| <= |fs|
  {
    var r := Removed(fs, slug);
    forall s | s != slug ensures IsFavorito(r, s) <==> IsFavorito(fs, s) {
      if IsFavorito(r, s) {
        var i :| 0 <= i < |r| && r[i].slug == s;
        assert r[i] in fs;
        var j :| 0 <= j < |fs| && fs[j] == r[i];
      }
      if IsFavorito(fs, s) {
        var i :| 0 <= i < |fs| && fs[i].slug == s;
        assert fs[i] in r;
        var j :| 0 <= j < |r| && r[j] == fs[i];
      }
    }
  }

  /** Toggling flips the slug's membership and leaves every other slug's alone. */
  lemma ToggledSpec(fs: seq<Favorito>, c: NovoFavorito, now: int)
    ensures var r := Toggled(fs, c, now);
      && (IsFavorito(r, c.slug) <==> !IsFavorito(fs, c.slug))
      && forall s :: s != c.slug ==> (IsFavorito(r, s) <==> IsFavorito(fs, s))
  {
    AddedSpec(fs, c, now);
    RemovedSpec(fs, c.slug);
  }

  /** Filtering a list with distinct keys keeps them distinct. */
  lemma {:induction false} FilterDistinctKeys<T, K>(s: seq<T>, p: T -> bool, f: T -> K)
    requires DistinctKeys(s, f)
    ensures DistinctKeys(Filter(s, p), f)
    decreases |s|
  {
    if s != [] {
      FilterDistinctKeys(s[1..], p, f);
      var rest := Filter(s[1..], p);
      forall i | 0 <= i < |rest| ensures f(s[0]) != f(rest[i]) {
        var j :| 0 <= j < |s[1..]| && s[1..][j] == rest[i];
        assert s[j + 1] == rest[i];
      }
    }
  }

  /** Adding, removing and toggling keep the slugs unique. */
  lemma UniqueSlugsKept(fs: seq<Favorito>, c: NovoFavorito, now: int, slug: string)
    requires DistinctKeys(fs, Slug)
    ensures DistinctKeys(Added(fs, c, now), Slug)
    ensures DistinctKeys(Removed(fs, slug), Slug)
    ensures DistinctKeys(Toggled(fs, c, now), Slug)
  {
    FilterDistinctKeys(fs, (f: Favorito) => f.slug != slug, Slug);
    FilterDistinctKeys(fs, (f: Favorito) => f.slug != c.slug, Slug);
    var r := Added(fs, c, now);
    if !IsFavorito(fs, c.slug) {
      forall i, j | 0 <= i < j < |r| ensures Slug(r[i]) != Slug(r[j]) {
        if j == |fs| {
          assert r[i] == fs[i];
        } else {
          assert r[i] == fs[i] && r[j] == fs[j];
        }
      }
    }
  }

  /** The list newest first holds the same entries, ordered by timestamp, ties in order of addition. */
  lemma OrdenadosSpec(fs: seq<Favorito>)
    ensures var o := Ordenados(fs);
      && multiset(o) == multiset(fs)
      && |o| == |fs|
      && (forall i, j :: 0 <= i < j < |o| ==> o[i].addedAt >= o[j].addedAt)
      && forall t :: WithKey(o, AddedAtKey, t) == WithKey(fs, AddedAtKey, t)
  {
    var o := Ordenados(fs);
    SortDescSpec(fs, AddedAtKey);
    forall i, j | 0 <= i < j < |o| ensures o[i].addedAt >= o[j].addedAt {
      assert AddedAtKey(o[i]) >= AddedAtKey(o[j]);
    }
  }

  // ---------------------------------------------------------------------------
  // The store

  class Store {
    var favoritos: seq<Favorito>

    /**
     * The list the cookie holds when the page loads (`None` when there is no
     * cookie yet, which reads as the empty default). A stored list is taken
     * as it is, so it may hold a slug twice.
     */
    constructor(stored: Option<seq<Favorito>>)
      ensures favoritos == if stored.Some? then stored.value else []
      ensures stored.None? ==> Valid()
    {
      favoritos := if stored.Some? then stored.value else [];
    }

    predicate Valid()
      reads this
    {
      DistinctKeys(favoritos, Slug)
    }

    method IsFavoritoNow(slug: string) returns (b: bool)
      ensures b <==> IsFavorito(favoritos, slug)
    {
      b := false;
      for i := 0 to |favoritos|
        invariant b <==> exists j :: 0 <= j < i && favoritos[j].slug == slug
      {
        if favoritos[i].slug == slug {
          b := true;
        }
      }
    }

    method Add(c: NovoFavorito, now: int)
      modifies this
      ensures favoritos == Added(old(favoritos), c, now)
      ensures old(Valid()) ==> Valid()
    {
      if Valid() {
        UniqueSlugsKept(favoritos, c, now, c.slug);
      }
      var present := IsFavoritoNow(c.slug);
      if present {
        return;
      }
      favoritos := favoritos + [Stamp(c, now)];
    }

    method Remove(slug: string)
      modifies this
      ensures favoritos == Removed(old(favoritos), slug)
      ensures old(Valid()) ==> Valid()
    {
      if Valid() {
        UniqueSlugsKept(favoritos, NovoFavorito(slug, "", None, "", None, None), 0, slug);
      }
      favoritos := Filter(favoritos, (f: Favorito) => f.slug != slug);
    }

    method Toggle(c: NovoFavorito, now: int)
      modifies this
      ensures favoritos == Toggled(old(favoritos), c, now)
      ensures old(Valid()) ==> Valid()
    {
      var present := IsFavoritoNow(c.slug);
      if present {
        Remove(c.slug);
      } else {
        Add(c, now);
      }
    }

    method Clear()
      modifies this
      ensures Valid() && favoritos == []
    {
      favoritos := [];
    }

    function Total(): nat
      reads this
    {
      |favoritos|
    }
  }
}
