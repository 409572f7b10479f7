/**
 * What the analysis handler promises: its error statuses, the contests it
 * builds from the candidate's vote rows, the one contest it keeps per year,
 * the four newest years it analyses and the counts of its summary.
 */
module AnaliseEleitoralSpec {
  import opened Wrappers
  import opened Text
  import opened Seqs
  import opened Grouping
  import opened Slug
  import opened Analise
  import opened AnaliseSpec
  import opened AnaliseEleitoral

  // ---------------------------------------------------------------------------
  // Contests

  function ContestVotes(e: Eleicao): int { e.totalVotos }
  function RowVotes(v: VotoRow): int { v.qtVotosNominais }

  /** The fields a contest takes from its first row. */
  function ContestFields(e: Eleicao): (string, string, int, string, int, string, string, bool) {
    (e.nmMunicipio, e.sgUf, e.anoEleicao, e.dsCargo, e.nrTurno, e.sgPartido, e.dsSitTotTurno, e.isEstadual)
  }

  function FirstRowFields(v: VotoRow): (string, string, int, string, int, string, string, bool) {
    var est := IsEstadual(v.dsCargo);
    (if est then v.sgUf else v.nmMunicipio, v.sgUf, v.anoEleicao, v.dsCargo, v.nrTurno,
     v.sgPartido, v.dsSitTotTurno, est)
  }

  /**
   * One contest per distinct key; each sums the votes of the rows with its
   * key, is statewide exactly when its office is, and then names the state
   * where the municipality would be.
   */
  lemma ContestsSpec(votos: seq<VotoRow>)
    ensures var gs := GroupRows(votos, ContestKey, ContestInit, ContestStep);
      && KeysDistinct(gs)
      && |Contests(votos)| == |gs| <= |votos|
      && (forall k :: 0 <= k < |votos| ==> IndexOfKey(gs, ContestKey(votos[k])) < |gs|)
      && (forall i :: 0 <= i < |gs| ==>
            var rs := RowsWithKey(votos, ContestKey, gs[i].key);
            var c := Contests(votos)[i];
            && rs != []
            && c.totalVotos == Sum(rs, RowVotes)
            && c.isEstadual == IsEstadual(rs[0].dsCargo)
            && c.nmMunicipio == (if c.isEstadual then rs[0].sgUf else rs[0].nmMunicipio)
            && c.anoEleicao == rs[0].anoEleicao && c.dsCargo == rs[0].dsCargo && c.nrTurno == rs[0].nrTurno
            && c.sgUf == rs[0].sgUf && c.sgPartido == rs[0].sgPartido && c.dsSitTotTurno == rs[0].dsSitTotTurno)
  {
    var gs := GroupRows(votos, ContestKey, ContestInit, ContestStep);
    GroupRowsKeys(votos, ContestKey, ContestInit, ContestStep);
    GroupSums(votos, ContestKey, ContestInit, ContestStep, ContestVotes, RowVotes);
    GroupKeepsFirst(votos, ContestKey, ContestInit, ContestStep, ContestFields, FirstRowFields);
    forall k | 0 <= k < |votos| ensures IndexOfKey(gs, ContestKey(votos[k])) < |gs| {
      assert votos[k] in votos;
    }
  }

  // ---------------------------------------------------------------------------
  // One contest per year

  /**
   * Keeping the later contest only when it has strictly more votes keeps the
   * first contest with the most votes.
   */
  lemma FoldKeepsFirstGreatest(rs: seq<Eleicao>)
    requires |rs| > 0
    ensures var b := Fold(rs, Self, KeepGreater);
      && (forall k :: 0 <= k < |rs| ==> rs[k].totalVotos <= b.totalVotos)
      && exists j :: 0 <= j < |rs| && rs[j] == b && forall k :: 0 <= k < j ==> rs[k].totalVotos < b.totalVotos
  {
    FoldIsGreatest(rs);
    FoldIsFirst(rs);
  }

  /** No contest has more votes than the one the fold keeps. */
  lemma {:induction false} FoldIsGreatest(rs: seq<Eleicao>)
    requires |rs| > 0
    ensures forall k :: 0 <= k < |rs| ==> rs[k].totalVotos <= Fold(rs, Self, KeepGreater).totalVotos
    decreases |rs|
  {
    if |rs| > 1 {
      var pre := rs[..|rs| - 1];
      FoldIsGreatest(pre);
      forall k | 0 <= k < |rs| - 1 ensures rs[k].totalVotos <= Fold(pre, Self, KeepGreater).totalVotos {
        assert rs[k] == pre[k];
      }
    }
  }

  /** The kept contest is one of the input, and every contest before it has fewer votes. */
  lemma {:induction false} FoldIsFirst(rs: seq<Eleicao>)
    requires |rs| > 0
    ensures var b := Fold(rs, Self, KeepGreater);
      exists j :: 0 <= j < |rs| && rs[j] == b && forall k :: 0 <= k < j ==> rs[k].totalVotos < b.totalVotos
    decreases |rs|
  {
    if |rs| > 1 {
      var pre := rs[..|rs| - 1];
      FoldIsFirst(pre);
      var a := Fold(pre, Self, KeepGreater);
      var j :| 0 <= j < |pre| && pre[j] == a && forall k :: 0 <= k < j ==> pre[k].totalVotos < a.totalVotos;
      var last := |rs| - 1;
      if rs[last].totalVotos > a.totalVotos {
        FoldIsGreatest(pre);
        forall k | 0 <= k < last ensures rs[k].totalVotos < rs[last].totalVotos {
          assert rs[k] == pre[k];
        }
      } else {
        assert rs[j] == a;
      }
    } else {
      assert rs[0] == Fold(rs, Self, KeepGreater);
    }
  }


  /** `b` is the first contest of year `ano` with the most votes among `cs`. */
  predicate IsBestOfYear(cs: seq<Eleicao>, ano: int, b: Eleicao) {
    var rs := RowsWithKey(cs, Ano, ano);
    && b.anoEleicao == ano
    && (forall k :: 0 <= k < |rs| ==> rs[k].totalVotos <= b.totalVotos)
    && exists j :: 0 <= j < |rs| && rs[j] == b && forall k :: 0 <= k < j ==> rs[k].totalVotos < b.totalVotos
  }

  /** Some entry of `bs` is of year `ano`. */
  predicate HasYear(bs: seq<Eleicao>, ano: int) {
    exists i :: 0 <= i < |bs| && bs[i].anoEleicao == ano
  }

  /** One kept contest per year, the first with the most votes of its year, and every year is kept. */
  lemma BestPerYearSpec(cs: seq<Eleicao>)
    ensures var bs := BestPerYear(cs);
      && DistinctKeys(bs, Ano)
      && (forall i :: 0 <= i < |bs| ==> IsBestOfYear(cs, bs[i].anoEleicao, bs[i]))
      && (forall k :: 0 <= k < |cs| ==> HasYear(bs, cs[k].anoEleicao))
  {
    var gs := GroupRows(cs, Ano, Self, KeepGreater);
    var bs := BestPerYear(cs);
    GroupRowsKeys(cs, Ano, Self, KeepGreater);
    GroupRowsAcc(cs, Ano, Self, KeepGreater);
    forall i | 0 <= i < |bs| ensures bs[i].anoEleicao == gs[i].key && IsBestOfYear(cs, gs[i].key, bs[i]) {
      var rs := RowsWithKey(cs, Ano, gs[i].key);
      FoldKeepsFirstGreatest(rs);
      RowsWithKeyMember(cs, Ano, gs[i].key);
      var j :| 0 <= j < |rs| && rs[j] == bs[i] && forall k :: 0 <= k < j ==> rs[k].totalVotos < bs[i].totalVotos;
      assert rs[j] in rs;
    }
    forall k | 0 <= k < |cs| ensures HasYear(bs, cs[k].anoEleicao) {
      assert cs[k] in cs;
      var i := IndexOfKey(gs, Ano(cs[k]));
      assert bs[i].anoEleicao == gs[i].key;
    }
  }

  /** Years sorted newest first and distinct are strictly decreasing. */
  lemma StrictYears(s: seq<Eleicao>)
    requires SortedDesc(s, AnoKey) && DistinctKeys(s, Ano)
    ensures forall i, j :: 0 <= i < j < |s| ==> s[i].anoEleicao > s[j].anoEleicao
  {
    forall i, j | 0 <= i < j < |s| ensures s[i].anoEleicao > s[j].anoEleicao {
      assert AnoKey(s[i]) >= AnoKey(s[j]) && Ano(s[i]) != Ano(s[j]);
    }
  }

  /** A year of `s` is among its first `n` entries or older than all of them. */
  lemma TakeNewest(s: seq<Eleicao>, n: nat, ano: int)
    requires forall i, j :: 0 <= i < j < |s| ==> s[i].anoEleicao > s[j].anoEleicao
    requires HasYear(s, ano)
    ensures HasYear(Take(s, n), ano) || forall i :: 0 <= i < |Take(s, n)| ==> Take(s, n)[i].anoEleicao > ano
  {
    var p :| 0 <= p < |s| && s[p].anoEleicao == ano;
    var t := Take(s, n);
    if p < |t| {
      assert t[p] == s[p];
    } else {
      assert forall i :: 0 <= i < |t| ==> t[i] == s[i];
    }
  }

  /** The best contests per year, newest first. */
  function PorAno(votos: seq<VotoRow>): seq<Eleicao> {
    SortDesc(BestPerYear(Contests(votos)), AnoKey)
  }

  /** Sorting the best contests per year keeps them, one per year, and orders their years strictly. */
  lemma PorAnoSpec(votos: seq<VotoRow>)
    ensures var cs := Contests(votos);
      var s := PorAno(votos);
      && (forall i, j :: 0 <= i < j < |s| ==> s[i].anoEleicao > s[j].anoEleicao)
      && (forall i :: 0 <= i < |s| ==> IsBestOfYear(cs, s[i].anoEleicao, s[i]))
      && (forall k :: 0 <= k < |cs| ==> HasYear(s, cs[k].anoEleicao))
  {
    var cs := Contests(votos);
    var bs := BestPerYear(cs);
    var s := PorAno(votos);
    BestPerYearSpec(cs);
    SortDescSpec(bs, AnoKey);
    DistinctKeysPermutation(bs, s, Ano);
    StrictYears(s);
    forall i | 0 <= i < |s| ensures IsBestOfYear(cs, s[i].anoEleicao, s[i]) {
      var j := IndexOf(bs, s[i]);
    }
    forall k | 0 <= k < |cs| ensures HasYear(s, cs[k].anoEleicao) {
      var b :| 0 <= b < |bs| && bs[b].anoEleicao == cs[k].anoEleicao;
      var p := IndexOf(s, bs[b]);
    }
  }

  /**
   * The selected contests: at most four, years strictly decreasing, each
   * the best of its year, and no year left out is newer than a selected one.
   */
  lemma SelecionadasSpec(votos: seq<VotoRow>)
    ensures var cs := Contests(votos);
      var sel := Selecionadas(votos);
      && |sel| <= 4
      && (forall i, j :: 0 <= i < j < |sel| ==> sel[i].anoEleicao > sel[j].anoEleicao)
      && (forall i :: 0 <= i < |sel| ==> IsBestOfYear(cs, sel[i].anoEleicao, sel[i]))
      && (forall k :: 0 <= k < |cs| && !HasYear(sel, cs[k].anoEleicao) ==>
            forall i :: 0 <= i < |sel| ==> sel[i].anoEleicao > cs[k].anoEleicao)
  {
    var s := PorAno(votos);
    var sel := Selecionadas(votos);
    assert sel == Take(s, 4);
    PorAnoSpec(votos);
    assert forall i :: 0 <= i < |sel| ==> sel[i] == s[i];
    SelecionadasNewest(votos);
  }

  /** A year left out of the selection is older than every selected one. */
  lemma SelecionadasNewest(votos: seq<VotoRow>)
    ensures var cs := Contests(votos);
      var sel := Selecionadas(votos);
      forall k :: 0 <= k < |cs| && !HasYear(sel, cs[k].anoEleicao) ==>
        forall i :: 0 <= i < |sel| ==> sel[i].anoEleicao > cs[k].anoEleicao
  {
    var cs := Contests(votos);
    var s := PorAno(votos);
    var sel := Selecionadas(votos);
    assert sel == Take(s, 4);
    PorAnoSpec(votos);
    forall k | 0 <= k < |cs| && !HasYear(sel, cs[k].anoEleicao)
      ensures forall i :: 0 <= i < |sel| ==> sel[i].anoEleicao > cs[k].anoEleicao
    {
      TakeNewest(s, 4, cs[k].anoEleicao);
    }
  }


  // ---------------------------------------------------------------------------
  // Analyses

  /** Appending at most one analysis of the last contest keeps the years of the analyses in order. */
  lemma SnocYears(es: seq<Eleicao>, an0: seq<AnaliseEleicao>, tail: seq<AnaliseEleicao>)
    requires es != []
    requires forall i, j :: 0 <= i < j < |es| ==> es[i].anoEleicao > es[j].anoEleicao
    requires |an0| <= |es| - 1 && |tail| <= 1
    requires forall i :: 0 <= i < |an0| ==> HasYear(es[..|es| - 1], an0[i].anoEleicao)
    requires forall i, j :: 0 <= i < j < |an0| ==> an0[i].anoEleicao > an0[j].anoEleicao
    requires forall i :: 0 <= i < |tail| ==> tail[i].anoEleicao == es[|es| - 1].anoEleicao
    ensures var an := an0 + tail;
      && |an| <= |es|
      && (forall i :: 0 <= i < |an| ==> HasYear(es, an[i].anoEleicao))
      && (forall i, j :: 0 <= i < j < |an| ==> an[i].anoEleicao > an[j].anoEleicao)
  {
    var pre := es[..|es| - 1];
    var e := es[|es| - 1];
    forall i | 0 <= i < |an0| ensures HasYear(es, an0[i].anoEleicao) && an0[i].anoEleicao > e.anoEleicao {
      var j :| 0 <= j < |pre| && pre[j].anoEleicao == an0[i].anoEleicao;
      assert es[j] == pre[j];
    }
    assert HasYear(es, e.anoEleicao) by { assert es[|es| - 1] == e; }
  }

  /** One step of the analysis loop adds at most one analysis, of the last contest. */
  lemma AnalisesStep(es: seq<Eleicao>, field: FieldQuery -> Fetched<seq<FieldRow>>,
                     sqs: seq<int>, partido: string, uf: string) returns (tail: seq<AnaliseEleicao>)
    requires es != []
    ensures Analises(es, field, sqs, partido, uf) == Analises(es[..|es| - 1], field, sqs, partido, uf) + tail
    ensures |tail| <= 1 && forall i :: 0 <= i < |tail| ==> tail[i].anoEleicao == es[|es| - 1].anoEleicao
  {
    var e := es[|es| - 1];
    var f := AnaliseOf(field, sqs, partido, uf);
    FilterMapSnoc(es, f, |es| - 1);
    assert es[..|es|] == es;
    AnaliseOfYear(field, sqs, partido, uf, e);
    tail := if f(e).Some? then [f(e).value] else [];
  }

  /** The analysis of a contest, when there is one, is of that contest's year. */
  lemma AnaliseOfYear(field: FieldQuery -> Fetched<seq<FieldRow>>, sqs: seq<int>, partido: string, uf: string, e: Eleicao)
    ensures var a := AnaliseOf(field, sqs, partido, uf)(e);
      a.Some? ==> a.value.anoEleicao == e.anoEleicao
  {
    AnalisarOfContest(e, BodyOf(field(FieldQueryOf(e))), sqs, partido, uf);
  }

  /** Each analysis is of one of the contests, and they keep the contests' order of years. */
  lemma {:induction false} AnalisesYears(es: seq<Eleicao>, field: FieldQuery -> Fetched<seq<FieldRow>>,
                                         sqs: seq<int>, partido: string, uf: string)
    requires forall i, j :: 0 <= i < j < |es| ==> es[i].anoEleicao > es[j].anoEleicao
    ensures var an := Analises(es, field, sqs, partido, uf);
      && |an| <= |es|
      && (forall i :: 0 <= i < |an| ==> HasYear(es, an[i].anoEleicao))
      && (forall i, j :: 0 <= i < j < |an| ==> an[i].anoEleicao > an[j].anoEleicao)
    decreases |es|
  {
    if es != [] {
      var pre := es[..|es| - 1];
      var e := es[|es| - 1];
      AnalisesYears(pre, field, sqs, partido, uf);
      var an0 := Analises(pre, field, sqs, partido, uf);
      var tail := AnalisesStep(es, field, sqs, partido, uf);
      SnocYears(es, an0, tail);
    }
  }

  /**
   * The analysis loop stops on a throw exactly when some contest's field
   * fetch throws, and it reports the first such contest's message.
   */
  lemma {:induction false} FirstThrownSpec(es: seq<Eleicao>, field: FieldQuery -> Fetched<seq<FieldRow>>)
    ensures FirstThrown(es, field).None? <==> forall i :: 0 <= i < |es| ==> !field(FieldQueryOf(es[i])).Thrown?
    ensures FirstThrown(es, field).Some? ==>
      exists i :: 0 <= i < |es| && field(FieldQueryOf(es[i])) == Thrown(FirstThrown(es, field).value)
        && forall j :: 0 <= j < i ==> !field(FieldQueryOf(es[j])).Thrown?
    decreases |es|
  {
    if es != [] && !field(FieldQueryOf(es[0])).Thrown? {
      var rest := es[1..];
      FirstThrownSpec(rest, field);
      if FirstThrown(rest, field).Some? {
        var i :| 0 <= i < |rest| && field(FieldQueryOf(rest[i])) == Thrown(FirstThrown(rest, field).value)
          && forall j :: 0 <= j < i ==> !field(FieldQueryOf(rest[j])).Thrown?;
        assert es[i + 1] == rest[i];
        forall j | 0 <= j < i + 1 ensures !field(FieldQueryOf(es[j])).Thrown? {
          if j > 0 {
            assert es[j] == rest[j - 1];
          }
        }
      } else {
        forall i | 0 <= i < |es| ensures !field(FieldQueryOf(es[i])).Thrown? {
          if i > 0 {
            assert es[i] == rest[i - 1];
          }
        }
      }
    }
  }

  // ---------------------------------------------------------------------------
  // The handler

  /** Some selected contest's field fetch throws. */
  predicate FieldThrows(es: seq<Eleicao>, field: FieldQuery -> Fetched<seq<FieldRow>>) {
    exists i :: 0 <= i < |es| && field(FieldQueryOf(es[i])).Thrown?
  }

  /**
   * The handler's outcomes: 400 exactly for a missing or empty slug or one
   * without a dash; 404 exactly when both lookups find nobody; 500 exactly
   * when a lookup that is made throws, the vote rows cannot be fetched, or
   * the field fetch of a selected contest throws; otherwise at most four
   * analyses of strictly decreasing years, each of a selected contest, and
   * a summary whose counts do not exceed the number of analyses.
   */
  lemma HandleSpec(slug: Option<string>,
                   rpc: (string, string) -> Fetched<seq<CandidatoRecord>>,
                   ilike: (string, string) -> Fetched<seq<CandidatoRecord>>,
                   votacao: seq<int> -> Fetched<seq<VotoRow>>,
                   field: FieldQuery -> Fetched<seq<FieldRow>>)
    ensures var r := Handle(slug, rpc, ilike, votacao, field);
      var req := ParseRequestSlug(slug);
      && (r.Err? ==> r.error.statusCode == 400 || r.error.statusCode == 404 || r.error.statusCode == 500)
      && ((r.Err? && r.error.statusCode == 400) <==> slug.None? || slug.value == [] || '-' !in slug.value)
      && ((r.Err? && r.error.statusCode == 404) <==>
            req.Ok? && Lookup(rpc(req.value.uf, req.value.nomeCompleto), ilike(req.value.uf, req.value.nomeCompleto)) == Ok([]))
      && ((r.Err? && r.error.statusCode == 500) <==>
            req.Ok? &&
            var found := Lookup(rpc(req.value.uf, req.value.nomeCompleto), ilike(req.value.uf, req.value.nomeCompleto));
            || found.Err?
            || (found.value != [] &&
                var votos := votacao(SqsOf(found.value));
                !votos.Body? || FieldThrows(Selecionadas(votos.body), field)))
      && (r.Ok? ==>
            var an := r.value.analises;
            && |an| <= 4
            && (forall i, j :: 0 <= i < j < |an| ==> an[i].anoEleicao > an[j].anoEleicao)
            && r.value.resumo.totalEleicoes == |an|
            && 0 <= r.value.resumo.vezesNoBloco <= |an|
            && 0 <= r.value.resumo.oportunidadesReais <= |an|)
  {
    var req := ParseRequestSlug(slug);
    if req.Ok? {
      var found := Lookup(rpc(req.value.uf, req.value.nomeCompleto), ilike(req.value.uf, req.value.nomeCompleto));
      if found.Ok? && found.value != [] {
        var records := found.value;
        var votos := votacao(SqsOf(records));
        if votos.Body? {
          var sel := Selecionadas(votos.body);
          FirstThrownSpec(sel, field);
          SelecionadasSpec(votos.body);
          AnalisesYears(sel, field, SqsOf(records), records[0].sgPartido, req.value.uf);
        }
      }
    }
  }

  // ---------------------------------------------------------------------------
  // Cache key

  /** Distinct non-empty slugs are cached apart. */
  lemma CacheKeyInjective(a: string, b: string)
    requires a != [] && b != [] && a != b
    ensures CacheKey(Some(a)) != CacheKey(Some(b))
  {
    assert CacheKey(Some(a))[3..] == a;
  }

  /** A request without a slug shares its cache key with the slug `unknown`. */
  lemma CacheKeyUnknown()
    ensures CacheKey(None) == CacheKey(Some([])) == CacheKey(Some("unknown"))
  {
  }
}
