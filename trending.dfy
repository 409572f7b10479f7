/**
 * The trending tracker: a POST handler that records one access to a
 * candidate page in a key-value store. Per state (UF, uppercased) and slug the
 * store keeps the access timestamps of the last 365 days and the candidate's
 * metadata, and per state an index of the slugs seen there. The store is the
 * map held by a `Kv` object, the clock is a parameter (`now`, in
 * milliseconds), and a storage failure is the index of the first store
 * operation that throws (`failAt`).
 */
module Trending {
  import opened Wrappers
  import opened Text
  import opened Seqs

  const MsPerDay: int := 24 * 60 * 60 * 1000
  const DaysToKeep: int := 365

  /** The request body; every field may be missing. */
  datatype TrackBody = TrackBody(
    slug: Option<string>, uf: Option<string>, nome: Option<string>,
    nomeCompleto: Option<string>, partido: Option<string>, cargo: Option<string>,
    anoEleicao: Option<int>, situacao: Option<string>, totalVotos: Option<int>)

  datatype CandidatoMeta = CandidatoMeta(
    nome: string, nomeCompleto: string, partido: string, cargo: string,
    anoEleicao: int, situacao: string, totalVotos: int, lastAccess: int)

  /** A stored value: a hit list, a candidate's metadata, or a state's slug index. */
  datatype Value = Hits(hits: seq<int>) | Meta(meta: CandidatoMeta) | Index(slugs: seq<string>)

  /** `{success: true, count}` or `{success: false, error}`. */
  datatype TrackResponse = Tracked(count: nat) | NotTracked(error: string)

  const MethodNotAllowed := HttpError(405, "Método não permitido")
  const MissingFields := HttpError(400, "Campos obrigatórios: slug, uf, nome")
  const TrackFailed := "Erro ao registrar acesso"

  function HitsKey(uf: string, slug: string): string { "trending:hits:" + uf + ":" + slug }
  function MetaKey(uf: string, slug: string): string { "trending:meta:" + uf + ":" + slug }
  function IndexKey(uf: string): string { "trending:index:" + uf }

  /** The body carries a non-empty `slug`, `uf` and `nome`. */
  predicate ValidBody(body: Option<TrackBody>) {
    body.Some? && Truthy(body.value.slug) && Truthy(body.value.uf) && Truthy(body.value.nome)
  }

  /** Timestamps at or before this instant are dropped. */
  function Cutoff(now: int): int { now - DaysToKeep * MsPerDay }

  /** `storage.getItem<number[]>(key) || []`: a value of another shape reads as absent. */
  function StoredHits(items: map<string, Value>, key: string): seq<int> {
    if key in items && items[key].Hits? then items[key].hits else []
  }

  /** `storage.getItem<string[]>(key) || []`. */
  function StoredIndex(items: map<string, Value>, key: string): seq<string> {
    if key in items && items[key].Index? then items[key].slugs else []
  }

  /** The hit list after an access at `now`: the hits after the cutoff, in order, then `now`. */
  function Retained(hits: seq<int>, now: int): seq<int> {
    Filter(hits, (t: int) => t > Cutoff(now)) + [now]
  }

  /** The metadata written for a body: missing strings become `''`, missing numbers 0. */
  function MetaOf(b: TrackBody, now: int): (m: CandidatoMeta)
    requires Truthy(b.nome)
    ensures m.nome == b.nome.value && m.lastAccess == now
    ensures m.nomeCompleto == (if Truthy(b.nomeCompleto) then b.nomeCompleto.value else b.nome.value)
    ensures m.nomeCompleto != []
    ensures m.partido == b.partido.GetOr("") && m.cargo == b.cargo.GetOr("") && m.situacao == b.situacao.GetOr("")
    ensures m.anoEleicao == b.anoEleicao.GetOr(0) && m.totalVotos == b.totalVotos.GetOr(0)
  {
    CandidatoMeta(
      b.nome.value,
      if Truthy(b.nomeCompleto) then b.nomeCompleto.value else b.nome.value,
      if Truthy(b.partido) then b.partido.value else "",
      if Truthy(b.cargo) then b.cargo.value else "",
      if TruthyInt(b.anoEleicao) then b.anoEleicao.value else 0,
      if Truthy(b.situacao) then b.situacao.value else "",
      if TruthyInt(b.totalVotos) then b.totalVotos.value else 0,
      now)
  }

  /** The index after a visit: unchanged when the slug is listed, otherwise the slug appended. */
  function WithSlug(index: seq<string>, slug: string): seq<string> {
    if slug in index then index else index + [slug]
  }

  predicate NoDuplicates(s: seq<string>) {
    forall i, j :: 0 <= i < j < |s| ==> s[i] != s[j]
  }

  /** The store operations a valid request performs: read hits, write hits, write meta, read index, and write index only when the slug is new. */
  function OpCount(items: map<string, Value>, uf: string, slug: string): nat {
    if slug in StoredIndex(items, IndexKey(uf)) then 4 else 5
  }

  /**
   * The store once the first `k` operations of a valid request have run: the
   * hit list is written by operation 1, the metadata by operation 2 and the
   * index by operation 4.
   */
  function StoredAfter(items: map<string, Value>, b: TrackBody, now: int, k: nat): map<string, Value>
    requires ValidBody(Some(b))
  {
    var uf := Upper(b.uf.value);
    var slug := b.slug.value;
    var afterHits := if 1 < k then items[HitsKey(uf, slug) := Hits(Retained(StoredHits(items, HitsKey(uf, slug)), now))] else items;
    var afterMeta := if 2 < k then afterHits[MetaKey(uf, slug) := Meta(MetaOf(b, now))] else afterHits;
    var index := StoredIndex(items, IndexKey(uf));
    if 4 < k && slug !in index then afterMeta[IndexKey(uf) := Index(index + [slug])] else afterMeta
  }

  /** Every slug index in the store lists each slug once. */
  predicate IndexesUnique(items: map<string, Value>) {
    forall key :: key in items && items[key].Index? ==> NoDuplicates(items[key].slugs)
  }

  // ---------------------------------------------------------------------------
  // The handler

  class Kv {
    var items: map<string, Value>

    constructor()
      ensures items == map[]
    {
      items := map[];
    }

    predicate Valid()
      reads this
    {
      IndexesUnique(items)
    }
  }

  /** The `POST /api/trending/track` handler. */
  method Track(kv: Kv, httpMethod: string, body: Option<TrackBody>, now: int, failAt: Option<nat>)
    returns (r: Result<TrackResponse>)
    requires kv.Valid()
    modifies kv
    ensures kv.Valid()
    ensures httpMethod != "POST" ==> r == Err(MethodNotAllowed) && kv.items == old(kv.items)
    ensures httpMethod == "POST" && !ValidBody(body) ==> r == Err(MissingFields) && kv.items == old(kv.items)
    ensures httpMethod == "POST" && ValidBody(body) ==>
      var uf := Upper(body.value.uf.value);
      var slug := body.value.slug.value;
      var ops := OpCount(old(kv.items), uf, slug);
      if failAt.Some? && failAt.value < ops then
        r == Ok(NotTracked(TrackFailed)) && kv.items == StoredAfter(old(kv.items), body.value, now, failAt.value)
      else
        r == Ok(Tracked(|Retained(StoredHits(old(kv.items), HitsKey(uf, slug)), now)|))
        && kv.items == StoredAfter(old(kv.items), body.value, now, ops)
  {
    if httpMethod != "POST" {
      return Err(MethodNotAllowed);
    }
    if !ValidBody(body) {
      return Err(MissingFields);
    }
    var b := body.value;
    var slug := b.slug.value;
    var uf := Upper(b.uf.value);
    ghost var items0 := kv.items;
    var hitsKey := HitsKey(uf, slug);
    var metaKey := MetaKey(uf, slug);
    var indexKey := IndexKey(uf);
    KeysDiffer(uf, slug);
    StoredAfterKeepsIndexes(items0, b, now, 5);
    StoredAfterKeepsIndexes(items0, b, now, 4);
    StoredAfterKeepsIndexes(items0, b, now, 3);
    StoredAfterKeepsIndexes(items0, b, now, 2);

    if failAt == Some(0) {
      return Ok(NotTracked(TrackFailed));
    }
    StoredAfterSteps(items0, b, now);
    var hits := StoredHits(kv.items, hitsKey);
    var updatedHits := Retained(hits, now);
    if failAt == Some(1) {
      return Ok(NotTracked(TrackFailed));
    }
    kv.items := kv.items[hitsKey := Hits(updatedHits)];
    assert kv.items == StoredAfter(items0, b, now, 2);

    var meta := MetaOf(b, now);
    if failAt == Some(2) {
      return Ok(NotTracked(TrackFailed));
    }
    kv.items := kv.items[metaKey := Meta(meta)];
    assert kv.items == StoredAfter(items0, b, now, 3);

    if failAt == Some(3) {
      return Ok(NotTracked(TrackFailed));
    }
    var index := StoredIndex(kv.items, indexKey);
    assert index == StoredIndex(items0, indexKey);
    if slug !in index {
      if failAt == Some(4) {
        return Ok(NotTracked(TrackFailed));
      }
      kv.items := kv.items[indexKey := Index(index + [slug])];
    }
    assert kv.items == StoredAfter(items0, b, now, OpCount(items0, uf, slug));
    return Ok(Tracked(|updatedHits|));
  }

  /** The store after each prefix of a valid request's operations. */
  lemma StoredAfterSteps(items: map<string, Value>, b: TrackBody, now: int)
    requires ValidBody(Some(b))
    ensures var uf := Upper(b.uf.value);
      var slug := b.slug.value;
      var index := StoredIndex(items, IndexKey(uf));
      && StoredAfter(items, b, now, 0) == items
      && StoredAfter(items, b, now, 1) == items
      && StoredAfter(items, b, now, 2) == items[HitsKey(uf, slug) := Hits(Retained(StoredHits(items, HitsKey(uf, slug)), now))]
      && StoredAfter(items, b, now, 3) == StoredAfter(items, b, now, 2)[MetaKey(uf, slug) := Meta(MetaOf(b, now))]
      && StoredAfter(items, b, now, 4) == StoredAfter(items, b, now, 3)
      && StoredAfter(items, b, now, 5) ==
           (if slug in index then StoredAfter(items, b, now, 3) else StoredAfter(items, b, now, 3)[IndexKey(uf) := Index(index + [slug])])
  {
  }

  // ---------------------------------------------------------------------------
  // Properties

  /** The three key families never meet: they differ in the word after `trending:`. */
  lemma KeysDiffer(uf: string, slug: string)
    ensures forall u: string, s: string :: HitsKey(uf, slug) != MetaKey(u, s)
    ensures forall u: string :: HitsKey(uf, slug) != IndexKey(u) && MetaKey(uf, slug) != IndexKey(u)
  {
    forall u: string, s: string ensures HitsKey(uf, slug) != MetaKey(u, s) {
      assert HitsKey(uf, slug)[9] == 'h' && MetaKey(u, s)[9] == 'm';
    }
    forall u: string ensures HitsKey(uf, slug) != IndexKey(u) && MetaKey(uf, slug) != IndexKey(u) {
      assert HitsKey(uf, slug)[9] == 'h' && MetaKey(uf, slug)[9] == 'm' && IndexKey(u)[9] == 'i';
    }
  }

  /** Every write of a request, complete or cut short, keeps each index duplicate-free. */
  lemma StoredAfterKeepsIndexes(items: map<string, Value>, b: TrackBody, now: int, k: nat)
    requires ValidBody(Some(b)) && IndexesUnique(items)
    ensures IndexesUnique(StoredAfter(items, b, now, k))
  {
    var uf := Upper(b.uf.value);
    var index := StoredIndex(items, IndexKey(uf));
    assert NoDuplicates(index);
    WithSlugSpec(index, b.slug.value);
  }

  /**
   * The new hit list ends with `now`; every other entry is an old hit after the
   * cutoff, every old hit after the cutoff is kept, and when none is dropped the
   * list is the old one with `now` appended.
   */
  lemma RetainedSpec(hits: seq<int>, now: int)
    ensures var r := Retained(hits, now);
      && |r| >= 1 && r[|r| - 1] == now
      && (forall i :: 0 <= i < |r| - 1 ==> r[i] in hits && r[i] > Cutoff(now))
      && (forall t :: t in hits && t > Cutoff(now) ==> t in r)
      && ((forall t :: t in hits ==> t > Cutoff(now)) ==> r == hits + [now])
  {
    var r := Retained(hits, now);
    var kept := Filter(hits, (t: int) => t > Cutoff(now));
    assert r[..|r| - 1] == kept;
    forall t | t in hits && t > Cutoff(now) ensures t in r {
      var i :| 0 <= i < |hits| && hits[i] == t;
      assert t in kept;
    }
    if forall t :: t in hits ==> t > Cutoff(now) {
      assert forall i :: 0 <= i < |hits| ==> hits[i] in hits;
      FilterAll(hits, (t: int) => t > Cutoff(now));
    }
  }

  predicate Ascending(s: seq<int>) {
    forall i, j :: 0 <= i < j < |s| ==> s[i] <= s[j]
  }

  lemma {:induction false} FilterAscending(s: seq<int>, p: int -> bool)
    requires Ascending(s)
    ensures Ascending(Filter(s, p))
    decreases |s|
  {
    if s != [] {
      var tail := s[1..];
      assert Ascending(tail) by {
        forall i, j | 0 <= i < j < |tail| ensures tail[i] <= tail[j] {
          assert tail[i] == s[i + 1] && tail[j] == s[j + 1];
        }
      }
      FilterAscending(tail, p);
      var rest := Filter(tail, p);
      forall j | 0 <= j < |rest| ensures s[0] <= rest[j] {
        assert rest[j] in tail;
        var i :| 0 <= i < |tail| && tail[i] == rest[j];
        assert s[0] <= s[1 + i];
      }
      AscendingCons(s[0], rest);
      assert Filter(s, p) == (if p(s[0]) then [s[0]] else []) + rest;
    }
  }

  lemma AscendingCons(x: int, r: seq<int>)
    requires Ascending(r) && forall j :: 0 <= j < |r| ==> x <= r[j]
    ensures Ascending([x] + r)
  {
    var c := [x] + r;
    forall i, j | 0 <= i < j < |c| ensures c[i] <= c[j] {
      assert c[j] == r[j - 1];
      if i > 0 {
        assert c[i] == r[i - 1];
      }
    }
  }

  /**
   * The retention window is an invariant: a hit list in ascending order with no
   * entry after `now` becomes, after an access at `now`, an ascending list that
   * lies inside `(now - 365 days, now]`.
   */
  lemma RetainedWindow(hits: seq<int>, now: int)
    requires Ascending(hits) && forall t :: t in hits ==> t <= now
    ensures var r := Retained(hits, now);
      Ascending(r) && forall t :: t in r ==> Cutoff(now) < t <= now
  {
    var kept := Filter(hits, (t: int) => t > Cutoff(now));
    FilterAscending(hits, (t: int) => t > Cutoff(now));
    var r := kept + [now];
    forall i, j | 0 <= i < j < |r| ensures r[i] <= r[j] {
      if j < |kept| {
        assert r[i] == kept[i] && r[j] == kept[j];
      } else {
        assert kept[i] in hits;
      }
    }
    forall t | t in r ensures Cutoff(now) < t <= now {
      var i :| 0 <= i < |r| && r[i] == t;
      if i < |kept| {
        assert kept[i] in hits;
      }
    }
  }

  /** The slug is listed afterwards, the index only changes when it was not listed, and stays duplicate-free. */
  lemma WithSlugSpec(index: seq<string>, slug: string)
    ensures var r := WithSlug(index, slug);
      && slug in r
      && (r == index <==> slug in index)
      && (slug !in index ==> r == index + [slug])
      && (forall s :: s != slug ==> (s in r <==> s in index))
      && (NoDuplicates(index) ==> NoDuplicates(r))
  {
    var r := WithSlug(index, slug);
    if slug !in index {
      assert r[|index|] == slug;
      assert |r| != |index|;
      forall s | s != slug && s in r ensures s in index {
        var i :| 0 <= i < |r| && r[i] == s;
        assert r[i] == index[i];
      }
    }
  }

  /**
   * After a complete valid request the store holds the new hit list, whose
   * length is the reported count, the request's metadata, and an index that
   * lists the slug; every other key is untouched.
   */
  lemma TrackedStore(items: map<string, Value>, b: TrackBody, now: int)
    requires ValidBody(Some(b))
    ensures var uf := Upper(b.uf.value);
      var slug := b.slug.value;
      var after := StoredAfter(items, b, now, OpCount(items, uf, slug));
      && StoredHits(after, HitsKey(uf, slug)) == Retained(StoredHits(items, HitsKey(uf, slug)), now)
      && after[MetaKey(uf, slug)] == Meta(MetaOf(b, now))
      && StoredIndex(after, IndexKey(uf)) == WithSlug(StoredIndex(items, IndexKey(uf)), slug)
      && (forall key :: key !in {HitsKey(uf, slug), MetaKey(uf, slug), IndexKey(uf)} ==>
            (key in after <==> key in items) && (key in items ==> after[key] == items[key]))
  {
    KeysDiffer(Upper(b.uf.value), b.slug.value);
  }

  /** A second access to the same candidate leaves the state's index as the first one left it. */
  lemma IndexSettles(items: map<string, Value>, b: TrackBody, now: int, later: int)
    requires ValidBody(Some(b))
    ensures var uf := Upper(b.uf.value);
      var slug := b.slug.value;
      var once := StoredAfter(items, b, now, OpCount(items, uf, slug));
      var twice := StoredAfter(once, b, later, OpCount(once, uf, slug));
      && OpCount(once, uf, slug) == 4
      && StoredIndex(twice, IndexKey(uf)) == StoredIndex(once, IndexKey(uf))
  {
    var uf := Upper(b.uf.value);
    var slug := b.slug.value;
    TrackedStore(items, b, now);
    WithSlugSpec(StoredIndex(items, IndexKey(uf)), slug);
    var once := StoredAfter(items, b, now, OpCount(items, uf, slug));
    TrackedStore(once, b, later);
    WithSlugSpec(StoredIndex(once, IndexKey(uf)), slug);
  }
}
