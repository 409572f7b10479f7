# Electoral analysis portal — a Dafny model of its core

This project models the computational core of a Nuxt/Nitro portal that serves
Brazilian election results, and proves properties of it. Its centre is the
"cutoff block" analyser behind `/api/analise-eleitoral`. For a candidate slug
(`uf-nome-...`), the analyser does the following:

- It resolves the candidate through an RPC lookup with an ILIKE fallback.
- It groups the candidate's zone-level vote rows into contests. Statewide
  offices are keyed by state and the others by municipality.
- It keeps the best contest per year, newest first, at most four years.
- For each contest, it re-fetches the whole field and aggregates it per
  `sq_candidato`. It then ranks the field with positions 1..N, counts the seats
  (`isEleito`) and cuts the block `max(ceil(1.5·vagas), vagas+5)`.
- It finds the nearest same-party and other-party candidates above the analysed
  candidate, and the weakest elected candidate of another party.
- It builds the per-party efficiency table of the block and the summary counts.

Around it sit the same kinds of sequential logic spread across the portal:

- the group-and-sum aggregations of the search endpoints and composables;
- the status classifiers;
- slug generation and parsing;
- the parameterised SQL `WHERE` builder;
- small state machines: favourites, the region selection, the trending tracker
  and its sitemap, the typeahead cache, the state (UF) preference and the
  selected-candidate slot.

How the model is built:

- **Fetches and storage.** Every fetch, database query and KV access is a
  parameter of the model: a function from the request to its reply.
- **Insertion-ordered maps.** A JavaScript `Map` is an insertion-ordered
  sequence of groups: `Grouping.GroupRows` is the specification and
  `Grouping.Aggregate` the loop.
- **Stable sort.** `Array.prototype.sort` is a stable insertion sort,
  `Seqs.SortDesc`, so ties keep first-seen order.
- **Mixed and imperative code.** The grouping loops are methods proved equal to
  their specification functions. Composables whose state the source mutates
  are classes, and their operations are methods with `modifies` clauses.
- **Shared modules.** `Slug`, `Situacao`, `Busca` (the shared
  search-result aggregation) and `Regiao` (shared by the two region
  composables) hold logic that several source files repeat.

Behaviour that the model keeps as the code writes it, and states as lemmas:

- A missing slug and the literal slug `unknown` share the analyser's cache
  entry (`AnaliseEleitoralSpec.CacheKeyUnknown`), and the candidate
  endpoint's as well (`CandidatoApi.CacheKeyUnknown`).
- Three keys of the party-logo table can never be matched, because lookups use
  the trimmed, upper-cased sigla (`Partido.UnreachableKeys`).
- `getTopPartidos` always reports `total_candidatos = 0`, because its set is
  never filled (`Postgrest.TopPartidosSpec`).
- A plain `MÉDIA` or `QP` status counts as elected for the analyser, but it is
  not a victory for the candidate page (`Situacao.QpIsEleitoButNotVitoria`).
- `extrairPalavrasBusca` has a fallback to the last kept part that is never
  taken: every kept part has four or more characters, so the second-to-last
  part never upper-cases to the empty string
  (`CandidatoApi.PalavrasBuscaPenultima`).

## Model

| member | source | states |
|---|---|---|
| Analise.FieldQueryOf | server/api/analise-eleitoral.ts:308-317 | The field of a statewide contest is fetched by state, and any other contest by municipality. Year, office and round come from the contest. |
| Analise.CeilThreeHalves | server/api/analise-eleitoral.ts:392 | The value is the ceiling of 1.5·vagas: twice it is at least 3·vagas and less than 3·vagas+2. |
| Analise.BlockSize | server/api/analise-eleitoral.ts:391-392 | The block size is at least vagas+5 and at least 1.5·vagas. It equals vagas+5, or else it is the smallest integer not below 1.5·vagas. |
| Analise.TargetIndex | server/api/analise-eleitoral.ts:398-405 | The analysed candidate is the first ranked entry whose `sq_candidato` is one of theirs, and no earlier entry matches. |
| Analise.TargetIndexIsFirst | server/api/analise-eleitoral.ts:398-405 | The linear search of the source finds exactly that index. |
| Analise.RoundDiv | server/api/analise-eleitoral.ts:498 | `Math.round(v/c)` for c > 0: the nearest integer, with halves rounded up. |
| Analise.AnalisarEleicao | server/api/analise-eleitoral.ts:287-529 | The aggregation loop, the sort and the analysis give exactly the specified analysis of the contest. |
| Analise.AnalisarRankedField | server/api/analise-eleitoral.ts:384-529 | The seat count, the target search and the party-table loop give exactly the specified analysis of a ranked field. |
| Analise.Analisar | server/api/analise-eleitoral.ts:287-512 | `analisarEleicao` as a value: no field gives null; otherwise the ranked field, the candidate's position, the internal and external comparisons and the party table. AnalisarEleicao runs it as loops; AnalisarIsNull, AnalisarOfContest, BuildSpec, InternoSpec, ExternoSpec, PiorEleitoSpec and PartyTableSpec state its properties. |
| AnaliseSpec.TotalsSpec | server/api/analise-eleitoral.ts:338-353 | There is one total per distinct `sq_candidato`. Its votes are the sum of that candidate's rows, and its other fields come from the candidate's first row. |
| AnaliseSpec.OrderedSpec | server/api/analise-eleitoral.ts:356-357 | The sorted totals are a permutation of the totals, with votes non-increasing. |
| AnaliseSpec.RankingSpec | server/api/analise-eleitoral.ts:338-381 | Positions are exactly 1..N and votes never increase with position. Every candidate of the field is ranked once, with the sum of their rows. The ranking is empty iff the field is. |
| AnaliseSpec.RankedShape | server/api/analise-eleitoral.ts:356-381 | The ranking is numbered 1..N and sorted by votes, descending. |
| AnaliseSpec.BlockSizeMonotone | server/api/analise-eleitoral.ts:391-392 | More seats never give a smaller block. |
| AnaliseSpec.BlockSizeClosedForm | server/api/analise-eleitoral.ts:391-392 | For every seat count the block holds `vagas + 5` entries up to ten seats, and `⌈1.5·vagas⌉` beyond. |
| AnaliseSpec.VagasZero | server/api/analise-eleitoral.ts:384-389 | There are no seats iff no ranked entry is elected. |
| AnaliseSpec.NoneElected | server/api/analise-eleitoral.ts:363-389 | Nobody in the ranking is elected iff no candidate's status passes `isEleito`. |
| AnaliseSpec.TargetAbsent | server/api/analise-eleitoral.ts:398-405 | The target search fails iff no row of the field has one of the candidate's `sq_candidato`. |
| AnaliseSpec.AnalisarIsNull | server/api/analise-eleitoral.ts:300-405 | There is no analysis iff the fetch failed, the field is empty, nobody is elected, or the candidate is absent from the field. |
| AnaliseSpec.VotosCorteIsMin | server/api/analise-eleitoral.ts:408 | `votos_corte` is the votes of an elected entry, and no elected entry has fewer. |
| AnaliseSpec.VotosUltimoBlocoIsMin | server/api/analise-eleitoral.ts:409 | `votos_ultimo_bloco` is the votes of the block's last entry, and no block entry has fewer. |
| AnaliseSpec.CandidatoSpec | server/api/analise-eleitoral.ts:398-405 | The analysed candidate's position and votes are those of the first matching entry. `no_bloco_corte` holds iff one of their entries is in the block. |
| AnaliseSpec.BuildSpec | server/api/analise-eleitoral.ts:384-409 | The metrics are the field size, the seats and a block size of at least vagas+5. The block is the first min(size, N) ranked entries. `votos_corte` is the weakest elected entry's votes. |
| AnaliseSpec.SortedPrefix | server/api/analise-eleitoral.ts:395 | A prefix of a ranking sorted by votes is sorted. |
| AnaliseSpec.BlockSpec | server/api/analise-eleitoral.ts:384-409 | Every produced analysis has a non-empty field and at least one seat. Its block is a prefix of the ranking, and the metrics and candidate facts above hold. |
| AnaliseSpec.AnalisarOfContest | server/api/analise-eleitoral.ts:503-512 | The analysis carries the contest's year, office, round and municipality, and the request's state. |
| AnaliseSpec.FilterEmpty | server/api/analise-eleitoral.ts:412-466 | A competitor filter is empty iff no ranked entry passes it. |
| AnaliseSpec.LastMatch | server/api/analise-eleitoral.ts:412-466 | The last entry of a filtered ranking passes the filter and sits at its own position. No passing entry has fewer votes. |
| AnaliseSpec.AboveMeansBefore | server/api/analise-eleitoral.ts:412-447 | An entry with more votes than the target is ranked before it. |
| AnaliseSpec.LastMatchIsLast | server/api/analise-eleitoral.ts:411-418 | The entry `.at(-1)` takes from a filtered ranking is the last that passes: no entry at or after its position passes the filter. |
| AnaliseSpec.PiorEleitoLast | server/api/analise-eleitoral.ts:453-466 | The worst elected external candidate is built from the entry at its own position, and no later entry is an elected one of another party. |
| Seqs.LastOfFilterIndex | server/api/analise-eleitoral.ts:411-418 | Returns an index holding the last element of a filtered sequence, after which no element passes the filter. |
| AnaliseSpec.InternoSpec | server/api/analise-eleitoral.ts:412-427 | The internal competitor exists iff some same-party candidate has more votes. It is of that party, ranked above, its difference is positive, and no such candidate is closer. It is built from the entry at its own position, and no later entry of the ranking is a same-party candidate with more votes, as `.at(-1)` picks the last one. |
| AnaliseSpec.ExternoSpec | server/api/analise-eleitoral.ts:430-447 | The same as the internal competitor, for other parties. The difference equals the opportunity score and is positive. It is built from the entry at its own position, and no later entry is an other-party candidate with more votes (the last one, as `.at(-1)` picks). |
| AnaliseSpec.PiorEleitoSpec | server/api/analise-eleitoral.ts:450-466 | The worst elected external candidate exists iff another party has an elected entry. It is the elected entry of another party with the fewest votes, and its score is its votes minus the target's (possibly ≤ 0). Its name, slug and party are those of the entry at its position, and no later entry is an elected one of another party (the last one, as `.at(-1)` picks). |
| AnaliseSpec.CompetitorsOf | server/api/analise-eleitoral.ts:398-466 | The three competitors of a produced analysis are those of its sorted, numbered ranking and its target entry, whose votes and position the analysed candidate carries. With `InternoSpec`, `ExternoSpec` and `PiorEleitoSpec` this characterises every produced analysis's competitors. |
| AnaliseSpec.PartyRowOfGroup | server/api/analise-eleitoral.ts:475-501 | A party group whose tally counts its entries becomes that party's row. |
| AnaliseSpec.PartyRowsEach | server/api/analise-eleitoral.ts:469-501 | Each unsorted row is its party's row, and the parties are distinct. |
| AnaliseSpec.PartyRowsCover | server/api/analise-eleitoral.ts:469-501 | Every block party has a row. The candidate counts add up to the block length and the votes to the block's votes. |
| AnaliseSpec.PartyTableSpec | server/api/analise-eleitoral.ts:468-501 | The table has one row per distinct block party, with `eleitos` ≤ `candidatos_bloco`. Counts sum to the block length and votes to the block's votes. The rows are sorted by efficiency, descending. |
| AnaliseEleitoral.Lookup | server/api/analise-eleitoral.ts:127-155 | A non-empty RPC answer wins, and the ILIKE fallback is used only when it is missing. A thrown fetch (or `response.json()`) of a lookup that runs gives a 500. The result is empty iff neither throws and both answers are empty or not ok. |
| AnaliseEleitoral.ResumoOf | server/api/analise-eleitoral.ts:257-269 | `vezes_no_bloco` ≤ `total_eleicoes` = the number of analyses, and `oportunidades_reais` ≤ `total_eleicoes`. |
| AnaliseEleitoral.HandleRequest | server/api/analise-eleitoral.ts:100-270 | The handler's steps, including each throw that ends the request, give exactly the specified response. |
| AnaliseEleitoral.SelecionarEleicoes | server/api/analise-eleitoral.ts:201-238 | The two grouping loops and the sort give exactly the selected contests. |
| AnaliseEleitoral.AnalisarTodas | server/api/analise-eleitoral.ts:240-255 | The sequential analysis loop ends with a 500 at the first contest, in order, whose field fetch throws. Otherwise it keeps, in order, every contest that yields an analysis. |
| AnaliseEleitoralSpec.FirstThrownSpec | server/api/analise-eleitoral.ts:243-252 | No message is reported iff no contest's field fetch throws. A reported message is the throw of some contest, and no earlier contest's fetch throws. |
| AnaliseEleitoral.CacheKey | server/api/analise-eleitoral.ts:276-279 | The key is `v4:` followed by the slug, when the slug is non-empty. |
| AnaliseEleitoral.Handle | server/api/analise-eleitoral.ts:100-270 | The analysis handler as a value: the 400 for a missing slug, the lookups, the 404, the contests and their analyses. HandleRequest runs it; HandleSpec states its outcomes. |
| AnaliseEleitoralSpec.ContestsSpec | server/api/analise-eleitoral.ts:184-225 | There is one contest per distinct key (state or municipality, year, office, round). Each total is the sum of its rows. The state, party and status come from the first row. |
| AnaliseEleitoralSpec.FoldKeepsFirstGreatest | server/api/analise-eleitoral.ts:229-234 | The per-year fold keeps a contest with the greatest total, and the first one on ties. |
| AnaliseEleitoralSpec.BestPerYearSpec | server/api/analise-eleitoral.ts:228-234 | There is one contest per year, it is the first one with the greatest total, and every year is represented. |
| AnaliseEleitoralSpec.StrictYears | server/api/analise-eleitoral.ts:236-237 | Distinct years sorted descending are strictly decreasing. |
| AnaliseEleitoralSpec.TakeNewest | server/api/analise-eleitoral.ts:238 | Cutting at four drops only years older than every kept one. |
| AnaliseEleitoralSpec.PorAnoSpec | server/api/analise-eleitoral.ts:228-237 | The per-year contests have strictly decreasing years, and each is the year's best. |
| AnaliseEleitoralSpec.SelecionadasSpec | server/api/analise-eleitoral.ts:228-238 | At most 4 contests, with strictly decreasing years, each the best of its year. A missing year is older than every kept one. |
| AnaliseEleitoralSpec.AnalisesYears | server/api/analise-eleitoral.ts:243-255 | The analyses are at most the selected contests, with strictly decreasing years that are among the selected ones. |
| AnaliseEleitoralSpec.HandleSpec | server/api/analise-eleitoral.ts:104-170 | The status is 400, 404 or 500. 400 iff the slug is missing or has no `-`. 404 iff both lookups run without a throw and find nothing. 500 iff a lookup throws, or the candidate is found and the vote fetch throws or is not ok, or a selected contest's field fetch throws. Otherwise at most 4 analyses with strictly decreasing years, and summary counts bounded by their number. |
| AnaliseEleitoralSpec.CacheKeyInjective | server/api/analise-eleitoral.ts:276-279 | Distinct non-empty slugs have distinct cache keys. |
| AnaliseEleitoralSpec.CacheKeyUnknown | server/api/analise-eleitoral.ts:278 | A missing slug, an empty slug and `unknown` share one key. |
| Situacao.VitoriaIsEleito | server/api/candidato.ts:289-292 | Every victory status is an elected status for the analyser. |
| Situacao.QpIsEleitoButNotVitoria | server/api/analise-eleitoral.ts:363-367 | `QP` is elected for the analyser but is not a victory. |
| Situacao.NaoEleitoIsError | app/utils/formatters.ts:27-29 | A `NÃO ELEITO` status also contains `ELEITO`, yet it is coloured `error` and formatted as ''. |
| Situacao.NaoEleitoContainsEleito | app/utils/formatters.ts:27-29 | `NÃO ELEITO` contains `ELEITO`. |
| Situacao.FormatAgreesWithColor | app/utils/formatters.ts:21-59 | Formatted as `ELEITO` iff coloured `success`; `2º TURNO` iff `warning`; `error` formats as ''. |
| Situacao.SuccessIsVitoria | app/utils/formatters.ts:21-37 | A `success` status is a victory and elected. |
| Situacao.IsEleito | server/api/analise-eleitoral.ts:363-367 | `isEleito`: the upper-cased status mentions ELEITO, MÉDIA or QP and not NÃO ELEITO. VitoriaIsEleito and QpIsEleitoButNotVitoria relate it to the victory test. |
| Situacao.IsVitoria | server/api/candidato.ts:289-292 | The candidate page's victory test: ELEITO and not NÃO ELEITO. VitoriaIsEleito, QpIsEleitoButNotVitoria and SuccessIsVitoria state how it relates to `isEleito` and to the colours. |
| Situacao.GetSituacaoColor | app/utils/formatters.ts:21-37 | `getSituacaoColor`: grey for an empty status, then the first matching rule. NaoEleitoIsError, SuccessIsVitoria and FormatAgreesWithColor state its properties. |
| Situacao.FormatSituacao | app/utils/formatters.ts:44-59 | `formatSituacao`: a dash for an empty status, then the first matching label. FormatAgreesWithColor relates it to the colour. |
| Slug.DropLeading | app/utils/slug.ts:18 | Dropping leading hyphens leaves a suffix that does not start with one, and only hyphens were dropped. |
| Slug.DropTrailing | app/utils/slug.ts:19 | The same for trailing hyphens. |
| Slug.CollapseHyphens | app/utils/slug.ts:17 | After collapsing runs, no `--` remains and the first character is kept. |
| Slug.SlugifyIsSlug | app/utils/slug.ts:9-21 | `slugify` output has only lower-case letters, digits, `_` and `-`, no leading or trailing `-`, and no `--`. |
| Slug.SlugifyFixesSlugs | app/utils/slug.ts:9-21 | A slug is left unchanged by `slugify`. |
| Slug.SlugifyIdempotent | app/utils/slug.ts:9-21 | `slugify(slugify(t)) = slugify(t)`. |
| Slug.ParseCandidatoSlugAccepts | app/utils/slug.ts:43-50 | Parsing succeeds iff the slug has a `-` and does not start with one. |
| Slug.ParseCandidatoSlugSplits | app/utils/slug.ts:43-55 | `uf` is the first part upper-cased, and `nomeSlug` the remaining parts joined with `-`. |
| Slug.ParseGeneratedSlug | app/utils/slug.ts:27-55 | For a two-letter state code, parsing a generated slug gives back the state and `slugify(nome)`, from either generator. |
| Slug.NomeCompleto | server/api/candidato.ts:116-120 | `nomeCompleto` is the name slug upper-cased with `-` turned into spaces. |
| Slug.ParseRequestSlug | server/api/candidato.ts:99-120 | 400 iff the slug is missing, empty or has no `-`. Otherwise the slug is the state part, `-`, then the name slug. |
| Slug.NomeCompletoRoundTrip | server/api/candidato.ts:99-120 | For a plain upper-case name, the handler's parse of the generated slug gives back the state, the name's slug and the name itself. |
| Slug.ParseRequestJoined | server/api/candidato.ts:99-120 | Parsing `a-b`, where `a` has no `-`, gives `Upper(a)`, `b` and `b`'s full name. |
| Slug.NomeCompletoOfPlain | server/api/candidato.ts:116-120 | The full name of a plain name's slug is the name. |
| Slug.SlugifyPlainName | app/utils/slug.ts:9-21 | A plain name slugifies to its lower-cased, hyphenated form, which is a slug. |
| Slug.GerarSlugAgrees | server/api/analise-eleitoral.ts:283-285 | For plain names, `gerarSlug` agrees with `generateCandidatoSlugFromUrna`. |
| Slug.Slugify | app/utils/slug.ts:9-21 | `slugify`: strips combining marks, lower-cases, turns white-space runs into `-`, drops non-word characters and collapses and trims hyphens. SlugifyIsSlug, SlugifyFixesSlugs and SlugifyIdempotent state what it promises. |
| Slug.GenerateCandidatoSlug | app/utils/slug.ts:27-29 | The state's slug, `-`, then the slug of the full name. ParseGeneratedSlug states that parsing it gives back the state and the name slug. |
| Slug.GenerateCandidatoSlugFromUrna | app/utils/slug.ts:35-37 | The same shape over the ballot name. GerarSlugAgrees relates it to the analyser's own `gerarSlug`. |
| Slug.ParseCandidatoSlug | app/utils/slug.ts:43-55 | Splits on `-`: no parts beyond the first, or an empty first part, gives null; otherwise the upper-cased first part and the rest joined by `-`. ParseCandidatoSlugAccepts and ParseCandidatoSlugSplits state both outcomes. |
| Slug.GerarSlug | server/api/analise-eleitoral.ts:283-285 | The analyser's slug: lower-cased state, `-`, and the ballot name with marks stripped, spaces hyphenated and non-word characters dropped. GerarSlugAgrees states when it equals the slug the client generates. |
| CandidatoApi.PalavrasBusca | server/api/candidato.ts:78-92 | At most 2 words. Empty iff no part has length ≥ 4. One such part gives that part upper-cased; with more, two words, the first of them the first part upper-cased. |
| CandidatoApi.PalavrasBuscaPenultima | server/api/candidato.ts:87-91 | The fallback to the last part is never taken: with two or more kept parts the second word is always the second-to-last part upper-cased. |
| CandidatoApi.PalavrasBuscaSpec | server/api/candidato.ts:78-92 | Every word has length ≥ 4 and is an upper-cased part of the slug. |
| CandidatoApi.FindRecords | server/api/candidato.ts:127-145 | The RPC and name-ILIKE steps of the reassignment chain, each throw ending it, then the keyword steps once nothing was found, give exactly the specified records or 500. |
| CandidatoApi.FindByKeywords | server/api/candidato.ts:146-172 | The urna-keyword step, sent only with a kept word, and then the first+last step while nothing was found, give exactly the specified result of those two strategies. |
| CandidatoApi.FindByPrimeiroUltimo | server/api/candidato.ts:160-172 | The first+last step, sent only with two name parts of ≥ 3 characters, gives exactly the specified result of that strategy. |
| CandidatoApi.RecordsOrder | server/api/candidato.ts:127-179 | The strategies run in order RPC, name ILIKE, urna keywords, first+last name, each only while nothing was found. A throw of a strategy that runs gives a 500. The records are empty iff all four run without a throw and find nothing. |
| CandidatoApi.FallbacksNeedWords | server/api/candidato.ts:146-172 | Without a kept word the keyword strategy sends no request and finds nothing; without two name parts of length ≥ 3 the first+last strategy does the same. |
| CandidatoApi.SqsOf | server/api/candidato.ts:181-183 | The ranking ids are non-zero. |
| CandidatoApi.FetchMunicipiosRanking | server/api/candidato.ts:219-264 | The accumulation loop gives exactly the specified ranking. |
| CandidatoApi.MunicipiosRankingSpec | server/api/candidato.ts:239-261 | There is one entry per distinct municipality, with its votes summed and sorted descending. The entries' votes add up to the rows' votes. |
| CandidatoApi.MunicipiosRankingEmpty | server/api/candidato.ts:219-264 | No ids, a non-ok response or a thrown fetch give no entries. |
| CandidatoApi.BuildResponseSpec | server/api/candidato.ts:266-306 | The elections are the records' elections sorted by year, descending. Total votes is the sum, years, parties and offices are distinct and complete, `vitorias` counts victories, and `derrotas` = N − `vitorias` ≥ 0. |
| CandidatoApi.HandleRequest | server/api/candidato.ts:95-199 | The handler's steps give exactly the specified response. |
| CandidatoApi.HandleSpec | server/api/candidato.ts:95-199 | The status is 400, 404 or 500. 400 iff the slug is malformed, 500 iff a strategy that runs throws, and 404 iff every strategy runs and finds nothing. Otherwise the strategies found records, `sg_uf` is the upper-cased first part, and there is one election per record. |
| CandidatoApi.CacheKey | server/api/candidato.ts:208-212 | The key is `v13:` followed by the slug when one is given and non-empty. |
| CandidatoApi.CacheKeyInjective | server/api/candidato.ts:211 | Two different non-empty slugs never share a cached response. |
| CandidatoApi.CacheKeyUnknown | server/api/candidato.ts:211 | A missing slug, an empty slug and `unknown` share one key. |
| CandidatoApi.Handle | server/api/candidato.ts:95-199 | The candidate handler as a value: the 400 for a malformed slug, the record lookups, the 404 and the response. HandleRequest runs it; HandleSpec states its outcomes. |
| CandidatoApi.MunicipiosRanking | server/api/candidato.ts:219-264 | The per-municipality ranking: empty without candidate ids or without a body, otherwise the rows grouped by municipality and sorted by votes. FetchMunicipiosRanking runs it; MunicipiosRankingSpec and MunicipiosRankingEmpty state its properties. |
| CandidatoApi.BuildResponse | server/api/candidato.ts:266-306 | The response built from the records: the elections newest first, the victories and the ranking. BuildResponseSpec states its fields. |
| Busca.AggregateCandidatos | server/api/search/suggestions.ts:92-121 | The map loop, sort and cut give exactly the specified records. |
| Busca.AgrupadosSpec | server/api/search/suggestions.ts:92-118 | One record per `urna-ano-cargo-uf-turno` key, with votes summed (missing counts as 0) and the first row's fields. Sorted by votes, descending. The votes add up. |
| Busca.AgregadosSpec | server/api/search/suggestions.ts:118-121 | min(limit, number of distinct keys) records, sorted descending, distinct keys, each the aggregate of its key. Every key cut off has no more votes than any kept record. |
| Busca.AgregadosCount | server/api/search/suggestions.ts:118-121 | The cut keeps min(limit, number of distinct keys) records, and they are a prefix of all the aggregates sorted by votes. |
| Suggestions.HandleRequest | server/api/search/suggestions.ts:18-58 | The handler, including a `$fetch` that throws, gives exactly the specified result. |
| Suggestions.HandleSpec | server/api/search/suggestions.ts:18-58 | The status is 400 or 500. 400 iff the trimmed `termo` is shorter than 3, and 500 iff it is long enough and the `$fetch` throws. Otherwise the result is the aggregation of the returned rows: min(15, number of distinct keys) records, sorted by votes, descending, distinct keys, each its key's aggregate. |
| Suggestions.ParamsSpec | server/api/search/suggestions.ts:33-39 | `p_termo` and `p_limite=500` are always sent, and `p_uf` (upper-cased) only with a state. |
| Suggestions.CacheKeyDistinguishes | server/api/search/suggestions.ts:61-66 | Equal cache keys mean the same state part and the same normalised term. |
| Suggestions.UpperNoColon | server/api/search/suggestions.ts:63 | Upper-casing a colon-free state leaves it colon-free. |
| Suggestions.UpperIsNotAll | server/api/search/suggestions.ts:63 | An upper-cased state is never the lower-case `all`. |
| Suggestions.Handle | server/api/search/suggestions.ts:14-49 | The suggestions handler as a value: the 400 for a short term, the RPC parameters and the aggregation. HandleRequest runs it; HandleSpec states its outcomes. |
| CandidatoSearch.ConditionsCount | app/composables/useCandidatoSearch.ts:177-204 | Each set filter adds exactly one condition on its column. The term adds one condition on `nm_urna_candidato` in candidate mode and on `nm_municipio` in city mode, only when it has ≥ 3 characters; `nm_municipio` therefore counts the term and the city filter together. |
| CandidatoSearch.ConditionsIlike | app/composables/useCandidatoSearch.ts:194-204 | Every ILIKE condition uses the term pattern of the trimmed query. |
| CandidatoSearch.TermPatternSpec | app/composables/useCandidatoSearch.ts:177-178 | The pattern starts and ends with `%` and has no whitespace. |
| CandidatoSearch.ColumnCountConcat | app/composables/useCandidatoSearch.ts:177-204 | Condition counts add over concatenation. |
| CandidatoSearch.CountFlags | app/composables/useCandidatoSearch.ts:100-111 | The flag count is the number of set flags. |
| CandidatoSearch.CanSearchSpec | app/composables/useCandidatoSearch.ts:114-124 | City mode without a state cannot search, and `cargo` alone does not enable a search. A term of ≥ 3 characters always does in candidate mode. |
| CandidatoSearch.SearchState.constructor | app/composables/useCandidatoSearch.ts:32-45 | The search starts in the default state and not loading. |
| CandidatoSearch.SearchState.FilterCount | app/composables/useCandidatoSearch.ts:100-111 | The count of set filters is in 0..4, and it is 0 iff none of `uf`, `ano`, `cidade`, `cargo` is set. |
| CandidatoSearch.SearchState.Search | app/composables/useCandidatoSearch.ts:176-250 | A no-op when searching is not allowed. Otherwise the results, error and flags follow the query's outcome, and the filters are untouched. |
| CandidatoSearch.SearchState.ClearResults | app/composables/useCandidatoSearch.ts:254-258 | Only results, `searched` and error are reset. |
| CandidatoSearch.SearchState.ClearFilters | app/composables/useCandidatoSearch.ts:263-276 | Clears all four filters in candidate mode, and keeps `uf` in city mode. |
| CandidatoSearch.SearchState.SetUf | app/composables/useCandidatoSearch.ts:281-283 | Only the state filter changes. |
| CandidatoSearch.SearchState.ResetState | app/composables/useCandidatoSearch.ts:288-290 | Back to the default state. |
| CandidatoSearch.SearchState.IsEleicaoMunicipal | app/composables/useCandidatoSearch.ts:97 | The chosen year is 2020 or 2024. No other property of the search depends on it. |
| CandidatoSearch.SearchState.CanSearch | app/composables/useCandidatoSearch.ts:114-124 | Whether a search may run, read from the state through CanSearchOf; CanSearchSpec states when it holds. |
| Regiao.AgregarCandidatos | app/composables/useMesorregiao.ts:212-245 | The aggregation loop and sort give exactly the specified candidates. |
| Regiao.FoldMunicipios | app/composables/useMesorregiao.ts:218-241 | `municipios_votados` is the duplicate-free list of the candidate's municipalities, in first-seen order. |
| Regiao.CandidatosSpec | app/composables/useMesorregiao.ts:212-245 | Empty rows give no candidates. One candidate per `nome-partido-cargo` key, sorted by votes, descending, with votes adding up to the rows' votes. The same loop is at app/composables/useRegiaoConsulta.ts:176-209. |
| Regiao.ComputeStats | app/composables/useMesorregiao.ts:248-275 | The statistics loop gives exactly the specified statistics. |
| Regiao.StatsSpec | app/composables/useMesorregiao.ts:248-275 | All zeros and `-` for no candidates. Otherwise the vote sum, count, number of distinct parties, the first candidate, and a top party with the greatest vote sum. |
| Mesorregiao.CandidatosRegiao.constructor | app/composables/useMesorregiao.ts:155-160 | Starts with no rows, not loading, no error. |
| Mesorregiao.CandidatosRegiao.Refresh | app/composables/useMesorregiao.ts:162-209 | Without a state or municipalities it clears the rows and fetches nothing. Otherwise it keeps the query's rows, or clears them and records the error. Loading ends. |
| RegiaoConsulta.SemMunicipio | app/composables/useRegiaoConsulta.ts:96-100 | Keeps exactly the entries with another id. |
| RegiaoConsulta.SemMunicipioAbsent | app/composables/useRegiaoConsulta.ts:96-100 | Removing an absent id changes nothing. |
| RegiaoConsulta.SemMunicipioIdempotent | app/composables/useRegiaoConsulta.ts:96-100 | Removing twice is removing once. |
| RegiaoConsulta.Consulta.constructor | app/composables/useRegiaoConsulta.ts:19-28 | The default state: year 2024, empty selection and results. |
| RegiaoConsulta.Consulta.OnMesorregiaoChange | app/composables/useRegiaoConsulta.ts:46-54 | A new id that differs from the old one and from the stored one resets to the default with that id. Otherwise nothing changes. |
| RegiaoConsulta.Consulta.InitMunicipios | app/composables/useRegiaoConsulta.ts:83-91 | Fills the selection only when it is empty and the input is not. Otherwise nothing changes. |
| RegiaoConsulta.Consulta.RemoverMunicipio | app/composables/useRegiaoConsulta.ts:96-100 | The selection without that id. |
| RegiaoConsulta.Consulta.RestaurarTodos | app/composables/useRegiaoConsulta.ts:105-107 | The selection becomes the given list. |
| RegiaoConsulta.Consulta.MarcarConsultaIniciada | app/composables/useRegiaoConsulta.ts:112-114 | Sets the query-started flag. |
| RegiaoConsulta.Consulta.ResetState | app/composables/useRegiaoConsulta.ts:119-121 | Back to the default state. |
| RegiaoConsulta.Consulta.BuscarCandidatos | app/composables/useRegiaoConsulta.ts:126-170 | No state or no names clears the rows without fetching. A failure clears them. Otherwise the rows are the query's rows, and loading ends. |
| Favoritos.Stamp | app/composables/useFavoritos.ts:43-47 | A new favourite carries every field of the candidate handed over, and the insertion time as `addedAt`. |
| Favoritos.AddedSpec | app/composables/useFavoritos.ts:34-51 | After adding, the slug is a favourite and the others are unchanged. A present slug changes nothing; otherwise one entry is appended at the end. |
| Favoritos.RemovedSpec | app/composables/useFavoritos.ts:56-61 | After removing, the slug is gone and every other slug's membership is unchanged. |
| Favoritos.ToggledSpec | app/composables/useFavoritos.ts:66-73 | Toggling flips the slug's membership and leaves the others alone. |
| Favoritos.FilterDistinctKeys | app/composables/useFavoritos.ts:56-61 | Filtering keeps keys distinct. |
| Favoritos.UniqueSlugsKept | app/composables/useFavoritos.ts:34-61 | Adding and removing keep slugs unique. |
| Favoritos.OrdenadosSpec | app/composables/useFavoritos.ts:85-92 | A permutation sorted by `addedAt`, descending, that keeps the relative order of equal stamps. |
| Favoritos.Store.constructor | app/composables/useFavoritos.ts:17-22 | Starts from the list the 365-day cookie stores, or from the empty default when there is no cookie. |
| Favoritos.Store.IsFavoritoNow | app/composables/useFavoritos.ts:27-29 | True iff some favourite has the slug. |
| Favoritos.Store.Add | app/composables/useFavoritos.ts:34-51 | The list becomes the specified addition, and slugs that were unique stay unique. |
| Favoritos.Store.Remove | app/composables/useFavoritos.ts:56-61 | The list becomes the specified removal, and slugs that were unique stay unique. |
| Favoritos.Store.Toggle | app/composables/useFavoritos.ts:66-73 | The list becomes the specified toggle, and slugs that were unique stay unique. |
| Favoritos.Store.Clear | app/composables/useFavoritos.ts:78-80 | The list is empty. |
| Partido.Lookup | app/utils/partido.ts:53-59 | Found iff the table has the key, and then it is that key's file. |
| Partido.FilesNonEmpty | app/utils/partido.ts:5-46 | Every logo file name is non-empty. |
| Partido.GetPartidoLogoUrlSpec | app/utils/partido.ts:49-67 | A URL iff the sigla is present, non-empty and its normalised key is in the table; then it is `/partido/` + file. `hasPartidoLogo` iff a URL. |
| Partido.UnreachableKeys | app/utils/partido.ts:15-16 | No sigla reaches the keys `PC do B`, `PCdoB` or `SOLIDARIEDADE `. |
| Partido.GetPartidoLogoUrl | app/utils/partido.ts:49-63 | No acronym, an empty one or one missing from the table gives null; otherwise `/partido/` and the file stored under the trimmed, upper-cased acronym. GetPartidoLogoUrlSpec states both directions and UnreachableKeys the table keys no input reaches. |
| Partido.HasPartidoLogo | app/utils/partido.ts:65-67 | A party has a logo exactly when the lookup finds one; GetPartidoLogoUrlSpec states when that is. |
| EleicoesCandidatos.WhereClause | server/api/eleicoes/candidatos.ts:90-92 | Empty iff there are no conditions; otherwise `WHERE ` + the conditions joined by ` AND `. |
| EleicoesCandidatos.ClausesAppend | server/api/eleicoes/candidatos.ts:55-88 | One more column adds that column's clause, if its filter is present. |
| EleicoesCandidatos.NumberedAppend | server/api/eleicoes/candidatos.ts:55-88 | A new clause is numbered one past the previous ones. |
| EleicoesCandidatos.Step | server/api/eleicoes/candidatos.ts:55-88 | One filter step keeps conditions and parameters in step with the specification. |
| EleicoesCandidatos.BuildWhere | server/api/eleicoes/candidatos.ts:52-88 | The conditions and parameters are those of the present filters, numbered `$1..$n`. |
| EleicoesCandidatos.ClausesOfSpec | server/api/eleicoes/candidatos.ts:55-88 | Exactly the columns with a present filter get a clause, in column order. |
| EleicoesCandidatos.ClausesOfDistinct | server/api/eleicoes/candidatos.ts:55-88 | No column gets two clauses. |
| EleicoesCandidatos.AllColumnsComplete | server/api/eleicoes/candidatos.ts:55-88 | Every filter column is visited. |
| EleicoesCandidatos.BuildWhereSpec | server/api/eleicoes/candidatos.ts:52-88 | As many conditions as parameters. The i-th placeholder is `$i` for a present filter, with that filter's parameter (upper-cased, `%…%` or parsed). Every present filter has one condition. |
| EleicoesCandidatos.WhereEmpty | server/api/eleicoes/candidatos.ts:90-92 | The `WHERE` clause is empty iff no filter is present. |
| EleicoesCandidatos.PagesSpec | server/api/eleicoes/candidatos.ts:138 | `pages` = ceil(total/limit): the pages cover the total, and one fewer would not. |
| EleicoesCandidatos.ParseOrSpec | server/api/eleicoes/candidatos.ts:47-48 | Page 1 and limit 50 by default, with offset 0. A rendered integer is parsed back to itself. |
| EleicoesCandidatos.HandleRequest | server/api/eleicoes/candidatos.ts:37-151 | The handler gives exactly the specified response. |
| EleicoesCandidatos.HandleSpec | server/api/eleicoes/candidatos.ts:94-151 | Both statements share the `WHERE` clause and parameters. Success iff both succeed, any failure is a 500, and the page, total and pages come from the query and the count. |
| Postgrest.GetStats | app/composables/usePostgrest.ts:15-57 | A query error is rethrown; otherwise the specified statistics. |
| Postgrest.YearAccs | app/composables/usePostgrest.ts:28-46 | Each year's accumulator holds the vote sum and the sets of its rows. |
| Postgrest.YearOfGroup | app/composables/usePostgrest.ts:28-56 | A year's row counts the distinct candidates, municipalities and parties of its rows. |
| Postgrest.YearsOfSpec | app/composables/usePostgrest.ts:28-56 | One row per distinct year, each the row of its year. |
| Postgrest.YearOfMember | app/composables/usePostgrest.ts:28-56 | Every produced row is the row of its year. |
| Postgrest.StatsYears | app/composables/usePostgrest.ts:25-57 | Every statistics row is the row of its year. |
| Postgrest.StatsOrder | app/composables/usePostgrest.ts:56 | The years are strictly decreasing. |
| Postgrest.StatsCover | app/composables/usePostgrest.ts:25-57 | Every year of the input has a row. |
| Postgrest.StatsSpec | app/composables/usePostgrest.ts:25-57 | One row per year, sorted by year with strictly decreasing years, with summed votes and distinct counts. |
| Postgrest.SearchPagesSpec | app/composables/usePostgrest.ts:71-116 | The range is `[offset, offset+limit−1]` with offset (page−1)·limit, and defaults page 1 and limit 50. `pages` = ceil(count/limit). |
| Postgrest.ItemCounts | app/composables/usePostgrest.ts:78-98 | A filter adds one condition on its own column iff it is present. |
| Postgrest.SearchColumnCount | app/composables/usePostgrest.ts:78-98 | The condition count of a column is the sum over the filters. |
| Postgrest.SearchConditionsSpec | app/composables/usePostgrest.ts:78-98 | Each present filter gives exactly one condition on its column. |
| Postgrest.GetTopPartidos | app/composables/usePostgrest.ts:124-166 | A query error is rethrown; otherwise the specified top parties, at most `limit` of them, 10 when no limit is given. |
| Postgrest.TopPartidosSpec | app/composables/usePostgrest.ts:142-166 | min(limit, number of parties) rows with distinct parties, sorted by votes. Each row has its party's vote sum and first name, and `total_candidatos` is always 0. No cut-off party outvotes a kept one. |
| Postgrest.TopPartidosShape | app/composables/usePostgrest.ts:159-166 | min(limit, number of parties) rows, sorted by votes, with distinct parties. |
| Postgrest.TopPartidosOfParty | app/composables/usePostgrest.ts:142-166 | Every kept row has its party's vote sum and first name, and `total_candidatos` 0. |
| Postgrest.TopPartidosCut | app/composables/usePostgrest.ts:160-166 | A party left out by `.slice(0, limit)` has no more votes than any party kept. |
| Postgrest.GetByUF | app/composables/usePostgrest.ts:170-194 | A query error is rethrown; otherwise the specified per-state rows. |
| Postgrest.UfsOfSpec | app/composables/usePostgrest.ts:177-194 | One row per distinct state, with its distinct-candidate count and vote sum. |
| Postgrest.ByUFSpec | app/composables/usePostgrest.ts:177-194 | Sorted by votes, descending, with distinct states, each the row of its state, and every state present. |
| Postgrest.Stats | app/composables/usePostgrest.ts:15-57 | Votes and candidates per year, newest year first. StatsSpec states its rows. |
| Postgrest.Search | app/composables/usePostgrest.ts:60-117 | The filtered, ordered and paged query, then the pagination built from the count. SearchPagesSpec states the page count. |
| Postgrest.TopPartidos | app/composables/usePostgrest.ts:133-166 | Votes and candidates per party, sorted descending, cut to the limit. TopPartidosSpec, TopPartidosShape, TopPartidosOfParty and TopPartidosCut state its properties. |
| Postgrest.ByUF | app/composables/usePostgrest.ts:169-194 | Votes and candidates per state, sorted descending. ByUFSpec states its rows. |
| Eleicoes.GetStatsPartido | app/composables/useEleicoes.ts:55-81 | Fetches `limit·4` rows (default limit 10). An error passes through; otherwise the merged top parties. |
| Eleicoes.StatsPartidoRequestLimit | app/composables/useEleicoes.ts:61 | The request's `limit` is the rendering of 4·limit. |
| Eleicoes.PartidoOfGroup | app/composables/useEleicoes.ts:66-76 | A merged party row sums votes and candidates over that party's rows. |
| Eleicoes.PartidosSpec | app/composables/useEleicoes.ts:66-76 | One merged row per distinct party. |
| Eleicoes.PartidoOfMember | app/composables/useEleicoes.ts:66-76 | Every merged row is its party's merge. |
| Eleicoes.TopPartidosShape | app/composables/useEleicoes.ts:78-80 | The top list is sorted, has at most `limit` rows and distinct parties. |
| Eleicoes.TopPartidosMerged | app/composables/useEleicoes.ts:66-80 | Every kept row is its party's merge. |
| Eleicoes.PartidoOfRow | app/composables/useEleicoes.ts:66-76 | Every input row's party has a merged row with its vote sum. |
| Eleicoes.TopPartidosCut | app/composables/useEleicoes.ts:78-80 | A party cut off has no more votes than any kept one. |
| Eleicoes.TopPartidosSpec | app/composables/useEleicoes.ts:66-80 | min(limit, number of parties) rows, sorted by votes, distinct, merged, and no cut-off party outvotes a kept one. |
| Eleicoes.BuildSearchQuery | app/composables/useEleicoes.ts:92-125 | The successive assignments build exactly the specified query. |
| Eleicoes.ValueOfAppend | app/composables/useEleicoes.ts:92-125 | A later assignment does not override an earlier key. |
| Eleicoes.AssignNext | app/composables/useEleicoes.ts:92-125 | One optional assignment keeps the query in step with its entries. |
| Eleicoes.SearchBaseAssigned | app/composables/useEleicoes.ts:92-95 | `order` and `limit` are always set; `select` is not. |
| Eleicoes.SearchQueryAssigned | app/composables/useEleicoes.ts:92-125 | Every key holds its entry. |
| Eleicoes.AscendingDistinct | app/composables/useEleicoes.ts:92-125 | The query has no repeated key. |
| Eleicoes.SearchEntryNumbers | app/composables/useEleicoes.ts:92-125 | `limit` parses to the given limit or 50, and `ano` and `turno` parse back after `eq.`. |
| Eleicoes.SearchQuerySpec | app/composables/useEleicoes.ts:92-125 | Distinct keys, each holding exactly its entry: `eq.` for party, state, year and round; `ilike.*…*` for name and office; `order=total_votos.desc`. |
| Eleicoes.EleicoesClient.constructor | app/composables/useEleicoes.ts:23-24 | Not loading, no error. |
| Eleicoes.EleicoesClient.SearchCandidatos | app/composables/useEleicoes.ts:87-138 | Loading is false afterwards. Success gives the rows with no error; failure gives `[]` and the error message. |
| Eleicoes.HistoricoRequest | app/composables/useEleicoes.ts:144-157 | No request iff the name is shorter than 3; otherwise an ILIKE on the name. |
| Eleicoes.Historico | app/composables/useEleicoes.ts:144-157 | A short name gives `[]` without a fetch; otherwise the fetch's outcome. |
| Eleicoes.SearchQuery | app/composables/useEleicoes.ts:87-125 | The query of `searchCandidatos`: one filter per truthy field, in the source's order. BuildSearchQuery builds it step by step; SearchQuerySpec states its filters. |
| Eleicoes.TopPartidos | app/composables/useEleicoes.ts:66-80 | Votes summed per party, sorted descending, cut to the limit. TopPartidosSpec states its length, order and cut-off. |
| Trending.MetaOf | server/api/trending/track.ts:78-88 | Strings default to '', numbers to 0, `nomeCompleto` to `nome` (so it is non-empty), and `lastAccess` is now. |
| Trending.Kv.constructor | server/api/trending/track.ts:62 | An empty store. |
| Trending.Track | server/api/trending/track.ts:39-103 | 405 for a non-POST, and 400 for a missing `slug`, `uf` or `nome`, both with the store unchanged. A store failure gives `success: false` with the writes before it applied. Otherwise the hits, meta and index writes, and `count` = the retained hits. The index stays duplicate-free. |
| Trending.KeysDiffer | server/api/trending/track.ts:59-69 | Hits, meta and index keys never coincide. |
| Trending.StoredAfterKeepsIndexes | server/api/trending/track.ts:91-95 | Every prefix of the writes keeps every index duplicate-free. |
| Trending.RetainedSpec | server/api/trending/track.ts:63-75 | The new hits end with now. The others are exactly the old hits after the cutoff, in order, and all are kept when none are stale. |
| Trending.FilterAscending | server/api/trending/track.ts:63-75 | Filtering keeps hits ascending. |
| Trending.RetainedWindow | server/api/trending/track.ts:63-75 | Ascending hits up to now stay ascending and within the last 365 days. |
| Trending.WithSlugSpec | server/api/trending/track.ts:91-95 | The slug is in the index afterwards, appended only if absent, and duplicates never appear. |
| Trending.TrackedStore | server/api/trending/track.ts:59-97 | A successful track stores the hits, the meta and the index, and leaves every other key alone. |
| Trending.IndexSettles | server/api/trending/track.ts:91-95 | A second track of the same slug leaves the index as it was and skips its write. |
| Trending.Retained | server/api/trending/track.ts:63-74 | The hits newer than the twelve-month cutoff, then the new hit. RetainedSpec and RetainedWindow state what it keeps. |
| Trending.StoredAfter | server/api/trending/track.ts:66-95 | The store after a hit: the hit list, the metadata and the state's index. StoredAfterKeepsIndexes and TrackedStore state what it changes and what it keeps. |
| Typeahead.Suggester.constructor | app/composables/useCandidatoTypeahead.ts:25-38 | Empty input and suggestions, not loading, no error, no state, over the session's cache. |
| Typeahead.Suggester.SetInput | app/composables/useCandidatoTypeahead.ts:27 | The input changes. |
| Typeahead.Suggester.FetchSuggestions | app/composables/useCandidatoTypeahead.ts:52-78 | A trimmed term under 3 characters clears the suggestions without a fetch. A cache hit serves the cached list without a fetch. A miss starts loading and requests the trimmed term, carrying the cache key computed from the term and the current state. |
| Typeahead.Suggester.ReceiveSuggestions | app/composables/useCandidatoTypeahead.ts:79-96 | A reply is always cached under the request's key, and shown only if the trimmed input still equals the term. An error clears the suggestions and sets the message. Loading ends. |
| Typeahead.Suggester.ClearSuggestions | app/composables/useCandidatoTypeahead.ts:101-104 | Empties suggestions and input; the cache is kept. |
| Typeahead.Suggester.SetUf | app/composables/useCandidatoTypeahead.ts:109-113 | Sets the state and empties the suggestions. |
| Typeahead.UfPrefix | app/composables/useCandidatoTypeahead.ts:44-47 | The key prefix is the two-letter state or `all`, colon-free. |
| Typeahead.CacheKeyInjective | app/composables/useCandidatoTypeahead.ts:44-47 | Two keys are equal iff the states are equal and the terms normalise alike. |
| Typeahead.NormalizeIdempotent | app/composables/useCandidatoTypeahead.ts:45 | Normalising a normalised term changes nothing. |
| Typeahead.StoreKeepsConsistent | app/composables/useCandidatoTypeahead.ts:79-82 | Caching the endpoint's answer keeps the cache consistent with it, so a later hit serves what a fetch would. |
| Typeahead.CacheKey | app/composables/useCandidatoTypeahead.ts:44-47 | `{uf}:{term}`, or `all:{term}` without a state. CacheKeyInjective states that equal keys mean the same state and the same normalised term. |
| Typeahead.Normalize | app/composables/useCandidatoTypeahead.ts:45 | The term lower-cased, then trimmed. NormalizeIdempotent states that normalising twice changes nothing. |
| UfPreference.EstadoCodes | app/data/eleicoes.ts:5-33 | Every state code is two upper-case letters. |
| UfPreference.IsValidEstado | app/composables/useUfPreference.ts:56-60 | False for a missing code; otherwise true iff the code is one of the 27 states. |
| UfPreference.Preference.constructor | app/composables/useUfPreference.ts:17-22 | The cookie and the detected state as given. |
| UfPreference.Preference.UfEfetivo | app/composables/useUfPreference.ts:28-36 | The cookie when set, else the geolocated state. Both being states (or null) makes the result one. |
| UfPreference.Preference.Save | app/composables/useUfPreference.ts:42-44 | The cookie becomes the given state, which is then effective; null falls back to geolocation. |
| UfPreference.Preference.Clear | app/composables/useUfPreference.ts:49-51 | No preference; geolocation is effective. |
| UfPreference.Preference.HasUserPreference | app/composables/useUfPreference.ts:25 | A state was saved in the cookie. Preference.UfEfetivo, Preference.Save and Preference.Clear state how the cookie and the detected state combine. |
| Sitemap.Entry | server/api/__sitemap__/urls.ts:37-53 | A URL iff meta is stored with a non-empty office and positive votes. Its `loc` is `/candidato/` + slug. |
| Sitemap.CollectUrls | server/api/__sitemap__/urls.ts:31-57 | The nested loops give exactly the URLs of the states in order, and of each state's index in order. |
| Sitemap.CollectState | server/api/__sitemap__/urls.ts:32-56 | The inner loop gives exactly the entries of one state's indexed slugs, in index order. |
| Sitemap.Urls | server/api/__sitemap__/urls.ts:29-65 | A failing read gives no URL; otherwise the URLs over the state table. |
| Sitemap.SlugUrlsMembers | server/api/__sitemap__/urls.ts:36-54 | A URL is listed for a state iff it is the entry of one of its indexed slugs. |
| Sitemap.UrlsUpToMembers | server/api/__sitemap__/urls.ts:31-57 | A URL is listed iff some state's index has a slug whose entry it is. |
| Sitemap.ListingState | server/api/__sitemap__/urls.ts:31-57 | Every listed URL names a state, among those walked, whose index has a slug with that entry. |
| Sitemap.ListedUpTo | server/api/__sitemap__/urls.ts:31-57 | A slug entry indexed by any walked state is in the sitemap. |
| Sitemap.StateListsMembers | server/api/__sitemap__/urls.ts:32-56 | One state's URLs are exactly the entries of the slugs its index lists. |
| Sitemap.UrlShapes | server/api/__sitemap__/urls.ts:41-53 | Every URL is a candidate page, at 0.8/monthly or 0.5/yearly. |
| Sitemap.TrackedIsListed | server/api/__sitemap__/urls.ts:31-57 | After a successful track with an office and positive votes for one of the 27 states, the candidate's page is in the sitemap. |
| Sitemap.UrlOf | server/api/__sitemap__/urls.ts:41-53 | A tracked candidate's entry: `/candidato/{slug}`, with the priority, frequency and date chosen by the election year and the last access. UrlShapes states its fields. |
| Sitemap.AllUrls | server/api/__sitemap__/urls.ts:29-59 | Every state in order, every slug of its index, one entry per candidate with an office and votes. CollectUrls computes it; Urls and TrackedIsListed state what it lists. |
| CandidatoSelecionado.Selecao.constructor | app/composables/useCandidatoSelecionado.ts:20-22 | The slot starts empty. |
| CandidatoSelecionado.Selecao.CandidatoBySlug | app/composables/useCandidatoSelecionado.ts:35-44 | The stored candidate iff one is stored and its slugified name is the slug; otherwise none. |
| CandidatoSelecionado.Selecao.SetCandidato | app/composables/useCandidatoSelecionado.ts:27-29 | After storing `c`, the lookup by `slugify(c.nm_candidato)` returns `c`. |
| CandidatoSelecionado.Selecao.ClearCandidato | app/composables/useCandidatoSelecionado.ts:49-51 | After clearing, every lookup returns none. |
| CandidatoSelecionado.SelectedFoundByGeneratedSlug | app/composables/useCandidatoSelecionado.ts:35-44 | For a two-letter state, navigating to the generated slug of the stored candidate finds that candidate again. |

## Left out

**Fetches, storage and time**

- Network and database I/O are parameters of the model: the PostgREST queries, `fetch`, `postgres`/`sql.unsafe` and the IBGE fetches. The SQL text itself is not modelled.
- `sql.end()` is not modelled.
- `console.error` logging is not modelled.
- A `fetch` that throws, or a `response.json()` that fails on an ok response, is one `Thrown` outcome with a message. Nothing in the analyser or the candidate endpoint catches it, so the request ends there with status 500. The message h3 shows to the client for such an error is not modelled.
- Suggestions.HandleSpec: every failure of the suggestions `$fetch` is a 500. h3 can instead answer with the upstream status that a `FetchError` carries; that status is not modelled.
- Framework caching is not modelled: the `defineCachedEventHandler` options (maxAge, swr, base) and the storing and serving of entries. Only the `getKey` functions of the three cached handlers are modelled: `AnaliseEleitoral.CacheKey`, `CandidatoApi.CacheKey` and `Suggestions.CacheKey`.
- `Date.now()` is a parameter.
- `useStorage` is a map of typed values. A value of another shape at a key reads as absent.
- The JSON body parsing of the tracker is not modelled; the body is a record of optional fields.

**Numbers and text**

- `percentual` in the candidate page and `formatNumber` are floating point and not modelled.
- The efficiency ratio is an exact rational (`real`), so no floating-point ties or rounding arise.
- Unicode NFD normalisation is not modelled: `slugify` removes combining marks from already-decomposed text.
- Text.UpperChar and Text.LowerChar map ASCII letters and the Latin-1 letters `à`..`þ` ↔ `À`..`Þ` (without `÷` and `×`) one to one, and leave every other character unchanged. JavaScript also maps `ÿ` to `Ÿ`, `µ` to `Μ` and `ß` to `SS` (two characters), and letters beyond Latin-1; none of that is modelled.
- `localeCompare` is not modelled; the order of the mesoregion list is not part of the core.
- Integers are unbounded; no vote count approaches 2^53.
- Object keys that collide with JavaScript prototype properties are not modelled.

**Framework reactivity**

- `ref`, `computed`, `watch`, `watchDebounced` and `useState` are plain fields and functions of a class.
- `useCookie` options, `readonly` wrappers and SSR hydration are not modelled.
- The typeahead's 250 ms debounce and its `currentUf` watcher are not modelled.
- `useEstadoSelecionado`, `useGeolocalizacao`, `useRegioes`, `useCidadesFilter` and `useTrendingCandidatos` are not part of this model: they are a global ref and fetch clients. The geolocated state is an input of `UfPreference`.

**Left out or weaker than the source**

- The `getStatsAno` and `getTopCandidatos` passthroughs of `useEleicoes` and `usePostgrest` are not modelled: they forward a query and return its rows.
- The `filters` echo and `ELECTION_TYPES` of the `eleicoes/candidatos` response are not modelled.
- Eleicoes.GetStatsPartido: `limit` is a natural number. A negative limit, for which the query asks for a negative row count and `.slice(0, limit)` drops entries from the end instead of keeping the first ones, is not modelled.
- Postgrest.GetTopPartidos: `limit` is a natural number or absent (then 10). A negative limit, for which `.slice(0, limit)` drops entries from the end, is not modelled.
- Every query parameter is modelled as one string or none: `slug` in the analyser and the candidate endpoint, `termo` and `uf` in the suggestions endpoint, and every field of `ListQuery` in `EleicoesCandidatos`. `getQuery` yields an array for a parameter given more than once. The analyser and the candidate endpoint then call `.split` on that array, and the suggestions endpoint `.trim` or `.toUpperCase`; the call throws and the request ends with status 500. Neither the array nor that 500 is modelled, and neither is what the list endpoint does with an array.
- Trending.Track: a storage failure is the index of the first store operation that throws, not an arbitrary exception. The hits key of a `uf` or slug containing `:` can collide with another's, and the model keeps that.
- Sitemap.Urls: a read failure is one boolean for the whole walk. Date formatting (`toISOString`) is abstracted to the last-access time or the year's end; an invalid date, which would throw and give `[]`, is not modelled.
- Typeahead.StoreKeepsConsistent: assumes the endpoint's answer depends only on the state and the normalised term. The request sends the trimmed term, which is not lower-cased, while the cache key lower-cases it.
- Favoritos.Store.constructor: a cookie whose value is `null` is read as the empty list, which every operation treats alike. The cookie's serialisation, its expiry and edits made to it outside the page are not modelled; a stored list is taken as it is, and is not checked for duplicate slugs.
- RegiaoConsulta.Consulta.BuscarCandidatos: the source records no error message here, and the model keeps that.
- The `!nomeCandidato ||` test in `getHistoricoCandidato` is subsumed by the length test, so the model has a single guard.
- The intermediate `loading = true` of the search methods is not observable in the model, because each method runs to completion.
