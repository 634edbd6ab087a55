/**
 * The records the enrichment pipeline and the pipeline board read and produce.
 * A `T | null` field, and a key that may be missing, is an `Option<T>`: the source
 * only ever tests such fields with `??`, `!= null` or truthiness, none of which
 * tells `null` from `undefined`.
 */
module ProspectTypes {
  import opened Wrappers

  /** The pipeline stages a prospect moves through. */
  datatype Status =
    | Novo | Pesquisando | Contatado | ReuniaoAgendada | PropostaEnviada
    | Negociando | Ganho | Perdido | Inativo

  /** A JSON value whose content the pipeline never inspects (equipment and certification entries). */
  datatype Json =
    | JNull
    | JBool(b: bool)
    | JNumber(n: real)
    | JString(s: string)
    | JArray(items: seq<Json>)
    | JObject(fields: map<string, Json>)

  /** A JSON scalar that the source converts with `String(...)`. */
  datatype Scalar = Text(s: string) | Number(n: int)

  // ---------------------------------------------------------------- BrasilAPI

  datatype Cnae = Cnae(codigo: int, descricao: string)

  datatype QsaEntry = QsaEntry(
    nome_socio: string,
    qualificacao_socio: string,
    faixa_etaria: string,
    data_entrada_sociedade: string)

  /** The company-registry record returned by the CNPJ lookup. */
  datatype BrasilApiResponse = BrasilApiResponse(
    cnpj: string,
    razao_social: string,
    nome_fantasia: string,
    porte: string,
    capital_social: real,
    natureza_juridica: string,
    situacao_cadastral: int,
    descricao_situacao_cadastral: string,
    data_situacao_cadastral: string,
    data_inicio_atividade: string,
    cnae_fiscal: int,
    cnae_fiscal_descricao: string,
    cnaes_secundarios: Option<seq<Cnae>>,
    descricao_tipo_de_logradouro: string,
    logradouro: string,
    numero: string,
    complemento: string,
    bairro: string,
    municipio: string,
    uf: string,
    cep: string,
    ddd_telefone_1: string,
    email: Option<string>,
    qsa: Option<seq<QsaEntry>>)

  // ---------------------------------------------------------------- DataSUS CNES

  /**
   * A health-facility record. Each logical field arrives under several names,
   * depending on the version of the upstream API; every name the normaliser
   * reads is a field here. `equipamentos` and `habilitacoes` may hold anything,
   * so they are raw JSON (`JNull` also stands for a missing key).
   */
  datatype CnesRecord = CnesRecord(
    codigo_cnes: Option<Scalar>,
    codCnes: Option<Scalar>,
    cod_cnes: Option<Scalar>,
    descricao_tipo_unidade: Option<string>,
    tipoUnidadeCnes: Option<string>,
    tipoUnidade: Option<string>,
    tipo_unidade: Option<Scalar>,
    categoria_unidade: Option<string>,
    categoriaUnidade: Option<string>,
    qt_leitos_sus: Option<int>,
    leitos_sus: Option<int>,
    qt_leitos_nao_sus: Option<int>,
    leitos_nao_sus: Option<int>,
    numero_leitos_particular: Option<int>,
    numero_leitos_total: Option<int>,
    qt_leitos_total: Option<int>,
    numero_leitos: Option<int>,
    equipamentos: Json,
    habilitacoes: Json)

  /** What the CNES locator may use to search by name. */
  datatype CnesSearchContext = CnesSearchContext(
    nome_fantasia: Option<string>,
    municipio: Option<string>,
    uf: Option<string>)

  // ---------------------------------------------------------------- Prospect

  datatype AtividadeEconomica = AtividadeEconomica(codigo: string, descricao: string)

  datatype Endereco = Endereco(
    logradouro: string,
    numero: string,
    complemento: string,
    bairro: string,
    municipio: string,
    uf: string,
    cep: string)

  datatype Socio = Socio(
    nome: string,
    qualificacao: string,
    faixa_etaria: string,
    data_entrada_sociedade: string)

  /** The registry-derived keys of a prospect. */
  datatype RegistryFields = RegistryFields(
    cnpj: string,
    razao_social: string,
    nome_fantasia: Option<string>,
    porte: string,
    capital_social: real,
    natureza_juridica: string,
    situacao_cadastral: string,
    data_abertura: string,
    atividade_principal: AtividadeEconomica,
    atividades_secundarias: seq<AtividadeEconomica>,
    endereco: Endereco,
    telefone: Option<string>,
    email: Option<string>,
    socios: seq<Socio>,
    enrichment_raw: BrasilApiResponse)

  /** The CNES-derived keys of a prospect. */
  datatype CnesFields = CnesFields(
    cnes_codigo: Option<string>,
    tipo_estabelecimento: Option<string>,
    subtipo: Option<string>,
    leitos_total: Option<int>,
    leitos_sus: Option<int>,
    leitos_nao_sus: Option<int>,
    equipamentos: seq<Json>,
    habilitacoes: seq<Json>,
    dados_cnes_raw: CnesRecord)

  /**
   * The partial prospect built by an enrichment: every registry key, and the
   * CNES keys only when a CNES record was merged in (`None`: those keys are absent).
   * The two key sets are disjoint, so they are two separate parts here.
   */
  datatype Prospect = Prospect(registry: RegistryFields, cnes: Option<CnesFields>)

  datatype EnrichmentResult = EnrichmentResult(
    success: bool,
    prospect: Option<Prospect>,
    brasil_api_raw: Option<BrasilApiResponse>,
    error: Option<string>)

  // ---------------------------------------------------------------- Board rows

  /** The two address fields the board reads from a stored `endereco`. */
  datatype EnderecoView = EnderecoView(municipio: Option<string>, uf: Option<string>)

  /**
   * The fields of a stored prospect (with its interaction statistics) that the
   * board reads. Timestamps are milliseconds since the epoch.
   */
  datatype ProspectWithStats = ProspectWithStats(
    status: Status,
    nome_fantasia: Option<string>,
    razao_social: Option<string>,
    porte: Option<string>,
    leitos_total: Option<int>,
    endereco: Option<EnderecoView>,
    proximo_contato: Option<int>,
    ultima_interacao: Option<int>,
    total_interacoes: nat)
}
