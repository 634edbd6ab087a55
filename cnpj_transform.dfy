/** Remapping a BrasilAPI registry record onto the registry keys of a prospect. */
module CnpjTransform {
  import opened Wrappers
  import opened Text
  import opened ProspectTypes
  import Cnpj

  /** The empty string becomes absent; any other string is kept. */
  function NonEmpty(s: string): (r: Option<string>)
    ensures r.None? <==> s == ""
    ensures r.Some? ==> r.value == s
  {
    if s == "" then None else Some(s)
  }

  /** The same for a string that may already be absent. */
  function NonEmptyOrNull(s: Option<string>): (r: Option<string>)
    ensures r.None? <==> s.None? || s.value == ""
    ensures r.Some? ==> r == s
  {
    if s.Some? then NonEmpty(s.value) else None
  }

  /** One secondary activity: the numeric code as text, the description as given. */
  function Activity(c: Cnae): AtividadeEconomica {
    AtividadeEconomica(IntToString(c.codigo), c.descricao)
  }

  /** One partner, field by field. */
  function Partner(q: QsaEntry): Socio {
    Socio(q.nome_socio, q.qualificacao_socio, q.faixa_etaria, q.data_entrada_sociedade)
  }

  /** The secondary activities: one per entry, in the same order. */
  function Activities(cs: seq<Cnae>): (r: seq<AtividadeEconomica>)
    ensures |r| == |cs|
    ensures forall i | 0 <= i < |cs| :: r[i].codigo == IntToString(cs[i].codigo) && r[i].descricao == cs[i].descricao
  {
    if cs == [] then [] else [Activity(cs[0])] + Activities(cs[1..])
  }

  /** The partners: one per entry, in the same order. */
  function Partners(qs: seq<QsaEntry>): (r: seq<Socio>)
    ensures |r| == |qs|
    ensures forall i | 0 <= i < |qs| ::
      && r[i].nome == qs[i].nome_socio
      && r[i].qualificacao == qs[i].qualificacao_socio
      && r[i].faixa_etaria == qs[i].faixa_etaria
      && r[i].data_entrada_sociedade == qs[i].data_entrada_sociedade
  {
    if qs == [] then [] else [Partner(qs[0])] + Partners(qs[1..])
  }

  /** `transformCnpjData`: a one-to-one remap that keeps the whole input as `enrichment_raw`. */
  function TransformCnpjData(raw: BrasilApiResponse): (r: RegistryFields)
    ensures r.cnpj == Cnpj.CleanCnpj(raw.cnpj) && AllDigits(r.cnpj)
    ensures Cnpj.IsValidCnpj(raw.cnpj) ==> |r.cnpj| == 14
    ensures r.nome_fantasia.None? <==> raw.nome_fantasia == ""
    ensures r.telefone.None? <==> raw.ddd_telefone_1 == ""
    ensures r.email.None? <==> raw.email.None? || raw.email.value == ""
    ensures r.nome_fantasia.Some? ==> r.nome_fantasia.value == raw.nome_fantasia
    ensures r.telefone.Some? ==> r.telefone.value == raw.ddd_telefone_1
    ensures r.email.Some? ==> r.email == raw.email
    ensures r.razao_social == raw.razao_social && r.porte == raw.porte
    ensures r.capital_social == raw.capital_social && r.natureza_juridica == raw.natureza_juridica
    ensures r.situacao_cadastral == raw.descricao_situacao_cadastral
    ensures r.data_abertura == raw.data_inicio_atividade
    ensures r.atividade_principal.codigo == IntToString(raw.cnae_fiscal)
    ensures r.atividade_principal.descricao == raw.cnae_fiscal_descricao
    ensures raw.cnaes_secundarios.None? ==> r.atividades_secundarias == []
    ensures raw.cnaes_secundarios.Some? ==>
      && |r.atividades_secundarias| == |raw.cnaes_secundarios.value|
      && forall i | 0 <= i < |r.atividades_secundarias| ::
        r.atividades_secundarias[i] == Activity(raw.cnaes_secundarios.value[i])
    ensures raw.qsa.None? ==> r.socios == []
    ensures raw.qsa.Some? ==>
      && |r.socios| == |raw.qsa.value|
      && forall i | 0 <= i < |r.socios| :: r.socios[i] == Partner(raw.qsa.value[i])
    ensures r.endereco == Endereco(raw.logradouro, raw.numero, raw.complemento, raw.bairro, raw.municipio, raw.uf, raw.cep)
    ensures r.enrichment_raw == raw
  {
    RegistryFields(
      cnpj := Cnpj.CleanCnpj(raw.cnpj),
      razao_social := raw.razao_social,
      nome_fantasia := NonEmpty(raw.nome_fantasia),
      porte := raw.porte,
      capital_social := raw.capital_social,
      natureza_juridica := raw.natureza_juridica,
      situacao_cadastral := raw.descricao_situacao_cadastral,
      data_abertura := raw.data_inicio_atividade,
      atividade_principal := AtividadeEconomica(IntToString(raw.cnae_fiscal), raw.cnae_fiscal_descricao),
      atividades_secundarias := if raw.cnaes_secundarios.Some? then Activities(raw.cnaes_secundarios.value) else [],
      endereco := Endereco(raw.logradouro, raw.numero, raw.complemento, raw.bairro, raw.municipio, raw.uf, raw.cep),
      telefone := NonEmpty(raw.ddd_telefone_1),
      email := NonEmptyOrNull(raw.email),
      socios := if raw.qsa.Some? then Partners(raw.qsa.value) else [],
      enrichment_raw := raw)
  }

  /** The activity codes, rendered as text, read back as the numbers the registry sent. */
  lemma ActivityCodesRoundTrip(raw: BrasilApiResponse, i: nat)
    requires raw.cnaes_secundarios.Some? && i < |raw.cnaes_secundarios.value|
    requires raw.cnaes_secundarios.value[i].codigo >= 0
    ensures var a := TransformCnpjData(raw).atividades_secundarias;
      i < |a| && AllDigits(a[i].codigo) && DigitsValue(a[i].codigo) == raw.cnaes_secundarios.value[i].codigo
  {
    var c := raw.cnaes_secundarios.value[i].codigo;
    NatToStringRoundTrip(c);
  }
}
