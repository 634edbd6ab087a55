/**
 * The enrichment orchestrator: validate the CNPJ, fetch the registry record,
 * gate on its status, remap it, then overlay whatever CNES data can be found.
 * Identity failures fail the call; a CNES failure never does.
 */
module Enrichment {
  import opened Wrappers
  import opened Text
  import opened ProspectTypes
  import Cnpj
  import CnesLocator
  import CnesTransform
  import CnpjTransform

  /** The registry status a prospect must have to be accepted. */
  const ACTIVE_STATUS: string := "ATIVA"

  /** The outcome of the registry lookup: the record, a non-2xx status, or a rejected promise (with the `Error`'s message, if an `Error` was thrown). */
  datatype RegistryAttempt = Fetched(record: BrasilApiResponse) | HttpStatus(status: int) | Rejected(message: Option<string>)

  /** A request the enrichment sends to an external service. */
  datatype Request = RegistryGet(cnpj: string) | CnesGet(query: CnesLocator.Query)

  function InvalidCnpjMessage(cnpj: string): string {
    "CNPJ inválido: " + cnpj + ". Deve conter 14 dígitos."
  }

  /** The error text of a failed registry lookup for the cleaned CNPJ `cleaned`. */
  function RegistryErrorMessage(a: RegistryAttempt, cleaned: string): string
    requires !a.Fetched?
  {
    match a
    case HttpStatus(status) => "BrasilAPI retornou status " + IntToString(status) + " para CNPJ " + cleaned
    case Rejected(Some(message)) => message
    case Rejected(None) => "Erro ao consultar BrasilAPI"
  }

  function InactiveMessage(situacao: string): string {
    "CNPJ com situação cadastral \"" + situacao + "\". Apenas CNPJs ativos são aceitos."
  }

  /** The search context handed to the CNES locator. */
  function SearchContext(raw: BrasilApiResponse): CnesSearchContext {
    CnesSearchContext(Some(raw.nome_fantasia), Some(raw.municipio), Some(raw.uf))
  }

  /** The CNES keys copied onto the prospect record: they are set, the registry keys are left as they were. */
  function AssignCnes(p: Prospect, cnes: CnesFields): (r: Prospect)
    ensures r.registry == p.registry
    ensures r.cnes == Some(cnes)
  {
    p.(cnes := Some(cnes))
  }

  /** What `enrichProspect` returns, given the answers of the registry and of the CNES registry. */
  function Enrich(cnpj: string, registry: string -> RegistryAttempt, cnes: CnesLocator.Query -> CnesLocator.Attempt): (r: EnrichmentResult)
    // hard failure 1: invalid CNPJ
    ensures !Cnpj.IsValidCnpj(cnpj) ==>
      r == EnrichmentResult(false, None, None, Some(InvalidCnpjMessage(cnpj)))
    // hard failure 2: the registry lookup failed
    ensures Cnpj.IsValidCnpj(cnpj) && !registry(Cnpj.CleanCnpj(cnpj)).Fetched? ==>
      r == EnrichmentResult(false, None, None,
                            Some(RegistryErrorMessage(registry(Cnpj.CleanCnpj(cnpj)), Cnpj.CleanCnpj(cnpj))))
    // hard failure 3: the registration is not active; the fetched record is still returned
    ensures Cnpj.IsValidCnpj(cnpj) && registry(Cnpj.CleanCnpj(cnpj)).Fetched? ==>
      var raw := registry(Cnpj.CleanCnpj(cnpj)).record;
      raw.descricao_situacao_cadastral != ACTIVE_STATUS ==>
        r == EnrichmentResult(false, None, Some(raw), Some(InactiveMessage(raw.descricao_situacao_cadastral)))
    ensures r.success <==>
      && Cnpj.IsValidCnpj(cnpj)
      && registry(Cnpj.CleanCnpj(cnpj)).Fetched?
      && registry(Cnpj.CleanCnpj(cnpj)).record.descricao_situacao_cadastral == ACTIVE_STATUS
    ensures !r.success ==> r.prospect.None? && r.error.Some?
    // success: the registry remap, overlaid with the CNES remap only when a record was located
    ensures r.success ==>
      var raw := registry(Cnpj.CleanCnpj(cnpj)).record;
      var found := CnesLocator.Located(Cnpj.CleanCnpj(cnpj), Some(SearchContext(raw)), cnes);
      && r.brasil_api_raw == Some(raw)
      && r.error.None?
      && r.prospect.Some?
      && r.prospect.value.registry == CnpjTransform.TransformCnpjData(raw)
      && (found.None? ==> r.prospect.value.cnes.None?)
      && (found.Some? ==> r.prospect.value.cnes == Some(CnesTransform.TransformCnesData(found.value)))
  {
    var cleaned := Cnpj.CleanCnpj(cnpj);
    if !Cnpj.IsValidCnpj(cnpj) then
      EnrichmentResult(false, None, None, Some(InvalidCnpjMessage(cnpj)))
    else if !registry(cleaned).Fetched? then
      EnrichmentResult(false, None, None, Some(RegistryErrorMessage(registry(cleaned), cleaned)))
    else
      var raw := registry(cleaned).record;
      if raw.descricao_situacao_cadastral != ACTIVE_STATUS then
        EnrichmentResult(false, None, Some(raw), Some(InactiveMessage(raw.descricao_situacao_cadastral)))
      else
        var prospectData := Prospect(CnpjTransform.TransformCnpjData(raw), None);
        var found := CnesLocator.Located(cleaned, Some(SearchContext(raw)), cnes);
        var merged := if found.Some? then AssignCnes(prospectData, CnesTransform.TransformCnesData(found.value)) else prospectData;
        EnrichmentResult(true, Some(merged), Some(raw), None)
  }

  /** The requests `enrichProspect` sends, in order. */
  function RequestsSent(cnpj: string, registry: string -> RegistryAttempt, cnes: CnesLocator.Query -> CnesLocator.Attempt): (rs: seq<Request>)
    ensures !Cnpj.IsValidCnpj(cnpj) ==> rs == []
    ensures Cnpj.IsValidCnpj(cnpj) ==> |rs| >= 1 && rs[0] == RegistryGet(Cnpj.CleanCnpj(cnpj))
    ensures forall i | 1 <= i < |rs| :: rs[i].CnesGet?
    ensures |rs| > 1 ==> Enrich(cnpj, registry, cnes).success
    ensures Cnpj.IsValidCnpj(cnpj) && !Enrich(cnpj, registry, cnes).success ==> |rs| == 1
    // a successful call always runs the locator, and sends exactly its searches after the registry request
    ensures Enrich(cnpj, registry, cnes).success ==>
      var c := Cnpj.CleanCnpj(cnpj);
      var qs := CnesLocator.QueriesIssued(c, Some(SearchContext(registry(c).record)), cnes);
      && |rs| >= 2
      && rs[1..] == seq(|qs|, i requires 0 <= i < |qs| => CnesGet(qs[i]))
  {
    var cleaned := Cnpj.CleanCnpj(cnpj);
    if !Cnpj.IsValidCnpj(cnpj) then []
    else if !registry(cleaned).Fetched? || registry(cleaned).record.descricao_situacao_cadastral != ACTIVE_STATUS then
      [RegistryGet(cleaned)]
    else
      var qs := CnesLocator.QueriesIssued(cleaned, Some(SearchContext(registry(cleaned).record)), cnes);
      [RegistryGet(cleaned)] + seq(|qs|, i requires 0 <= i < |qs| => CnesGet(qs[i]))
  }

  /** `enrichProspect`: early returns on the three hard failures, then an in-place CNES overlay. */
  method EnrichProspect(cnpj: string, registry: string -> RegistryAttempt, cnes: CnesLocator.Query -> CnesLocator.Attempt)
    returns (result: EnrichmentResult, requests: seq<Request>)
    ensures result == Enrich(cnpj, registry, cnes)
    ensures requests == RequestsSent(cnpj, registry, cnes)
  {
    requests := [];
    if !Cnpj.IsValidCnpj(cnpj) {
      return EnrichmentResult(false, None, None, Some(InvalidCnpjMessage(cnpj))), requests;
    }

    var cleaned := Cnpj.CleanCnpj(cnpj);
    requests := requests + [RegistryGet(cleaned)];
    var attempt := registry(cleaned);
    if !attempt.Fetched? {
      return EnrichmentResult(false, None, None, Some(RegistryErrorMessage(attempt, cleaned))), requests;
    }
    var raw := attempt.record;

    if raw.descricao_situacao_cadastral != ACTIVE_STATUS {
      return EnrichmentResult(false, None, Some(raw), Some(InactiveMessage(raw.descricao_situacao_cadastral))), requests;
    }

    var prospectData := Prospect(CnpjTransform.TransformCnpjData(raw), None);

    var cnesRaw, queries := CnesLocator.FetchCnesData(cnpj, Some(SearchContext(raw)), cnes);
    requests := requests + seq(|queries|, i requires 0 <= i < |queries| => CnesGet(queries[i]));
    if cnesRaw.Some? {
      prospectData := AssignCnes(prospectData, CnesTransform.TransformCnesData(cnesRaw.value));
    }

    result := EnrichmentResult(true, Some(prospectData), Some(raw), None);
  }

  /**
   * The soft tier: whatever the CNES registry answers, the call succeeds or fails
   * alike, returns the same registry payload and the same registry-derived fields.
   */
  lemma CnesNeverDecidesSuccess(
    cnpj: string, registry: string -> RegistryAttempt,
    cnes1: CnesLocator.Query -> CnesLocator.Attempt, cnes2: CnesLocator.Query -> CnesLocator.Attempt)
    ensures var r1, r2 := Enrich(cnpj, registry, cnes1), Enrich(cnpj, registry, cnes2);
      && r1.success == r2.success
      && r1.brasil_api_raw == r2.brasil_api_raw
      && r1.error == r2.error
      && (r1.success ==> r1.prospect.value.registry == r2.prospect.value.registry)
  {
  }

  /** Nothing is asked of the CNES registry before the registry lookup succeeded and passed the status gate. */
  lemma CnesOnlyAfterGate(cnpj: string, registry: string -> RegistryAttempt, cnes: CnesLocator.Query -> CnesLocator.Attempt)
    requires exists i | 0 <= i < |RequestsSent(cnpj, registry, cnes)| :: RequestsSent(cnpj, registry, cnes)[i].CnesGet?
    ensures Cnpj.IsValidCnpj(cnpj)
    ensures registry(Cnpj.CleanCnpj(cnpj)).Fetched?
    ensures registry(Cnpj.CleanCnpj(cnpj)).record.descricao_situacao_cadastral == ACTIVE_STATUS
    ensures RequestsSent(cnpj, registry, cnes)[0] == RegistryGet(Cnpj.CleanCnpj(cnpj))
  {
  }

  /**
   * The end-to-end scenario: a CNPJ typed with its usual punctuation, an active
   * registry record and an empty CNES answer give a success whose prospect has
   * the registry fields and no CNES keys.
   */
  lemma ActiveWithoutCnesScenario(
    a: string, b: string, c: string, d: string, e: string,
    registry: string -> RegistryAttempt, cnes: CnesLocator.Query -> CnesLocator.Attempt)
    requires AllDigits(a) && AllDigits(b) && AllDigits(c) && AllDigits(d) && AllDigits(e)
    requires |a| == 2 && |b| == 3 && |c| == 3 && |d| == 4 && |e| == 2
    requires registry(a + b + c + d + e).Fetched?
    requires registry(a + b + c + d + e).record.descricao_situacao_cadastral == ACTIVE_STATUS
    requires forall q :: cnes(q) == CnesLocator.Answered(CnesLocator.BareList([]))
    ensures var r := Enrich(a + ['.'] + b + ['.'] + c + ['/'] + d + ['-'] + e, registry, cnes);
      && r.success
      && r.prospect.Some?
      && r.prospect.value.cnes.None?
      && r.prospect.value.registry == CnpjTransform.TransformCnpjData(registry(a + b + c + d + e).record)
  {
    Cnpj.MaskedIsValid(a, b, c, d, e);
    Cnpj.CleanMasked(a, b, c, d, e);
    var cleaned := a + b + c + d + e;
    var ctx := Some(SearchContext(registry(cleaned).record));
    assert CnesLocator.FirstItem(cnes(CnesLocator.ByCnpj(cleaned))).None?;
    assert CnesLocator.NameQuery(ctx).Some? ==> CnesLocator.FirstItem(cnes(CnesLocator.NameQuery(ctx).value)).None?;
  }
}
