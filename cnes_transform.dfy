/**
 * Normalising a DataSUS CNES facility record into the CNES keys of a prospect.
 * Each logical field is read from an ordered list of alternative keys, the
 * first present (non-null) one winning, as the `??` chains of the source do.
 */
module CnesTransform {
  import opened Wrappers
  import opened Text
  import opened ProspectTypes

  /** `v` is what a `??` chain over `alts` yields: the first present alternative, or absent if none is. */
  ghost predicate ResolvedFirst<T>(v: Option<T>, alts: seq<Option<T>>) {
    || (v.None? && forall i | 0 <= i < |alts| :: alts[i].None?)
    || (v.Some? && exists i | 0 <= i < |alts| :: alts[i] == v && forall j | 0 <= j < i :: alts[j].None?)
  }

  /** Some alternative is present. */
  predicate AnyPresent<T>(alts: seq<Option<T>>) {
    exists i | 0 <= i < |alts| :: alts[i].Some?
  }

  /** Evaluates the chain `alts[0] ?? alts[1] ?? ... ?? null`. */
  function FirstPresent<T>(alts: seq<Option<T>>): (r: Option<T>)
    ensures ResolvedFirst(r, alts)
    ensures r.Some? <==> AnyPresent(alts)
  {
    if alts == [] then None
    else if alts[0].Some? then alts[0]
    else
      var rest := FirstPresent(alts[1..]);
      ResolvedPastAbsent(rest, alts);
      rest
  }

  /** A `??` chain whose first alternative is absent resolves as the chain of the others. */
  lemma ResolvedPastAbsent<T>(v: Option<T>, alts: seq<Option<T>>)
    requires alts != [] && alts[0].None? && ResolvedFirst(v, alts[1..])
    ensures ResolvedFirst(v, alts)
  {
    assert forall i | 1 <= i < |alts| :: alts[i] == alts[1..][i - 1];
    if v.Some? {
      var k :| 0 <= k < |alts[1..]| && alts[1..][k] == v && forall j | 0 <= j < k :: alts[1..][j].None?;
      assert alts[k + 1] == v;
    }
  }

  /** A `??` chain has one value: `ResolvedFirst` pins its result down. */
  lemma ResolvedFirstUnique<T>(v: Option<T>, w: Option<T>, alts: seq<Option<T>>)
    requires ResolvedFirst(v, alts) && ResolvedFirst(w, alts)
    ensures v == w
  {
    if v.Some? && w.Some? {
      var i :| 0 <= i < |alts| && alts[i] == v && forall j | 0 <= j < i :: alts[j].None?;
      var k :| 0 <= k < |alts| && alts[k] == w && forall j | 0 <= j < k :: alts[j].None?;
      assert !(i < k) && !(k < i);
    }
  }

  /** `String(x)` of a scalar. */
  function ScalarText(x: Scalar): string {
    match x
    case Text(s) => s
    case Number(n) => IntToString(n)
  }

  // The alternative keys of each logical field, in the order they are tried.

  function CodeKeys(raw: CnesRecord): seq<Option<Scalar>> {
    [raw.codigo_cnes, raw.codCnes, raw.cod_cnes]
  }

  /** The last alternative, `tipo_unidade`, is converted with `String(...)` when present. */
  function TipoKeys(raw: CnesRecord): seq<Option<string>> {
    [raw.descricao_tipo_unidade, raw.tipoUnidadeCnes, raw.tipoUnidade, MapOption(raw.tipo_unidade, ScalarText)]
  }

  function SubtipoKeys(raw: CnesRecord): seq<Option<string>> {
    [raw.categoria_unidade, raw.categoriaUnidade]
  }

  function SusKeys(raw: CnesRecord): seq<Option<int>> {
    [raw.qt_leitos_sus, raw.leitos_sus]
  }

  function NaoSusKeys(raw: CnesRecord): seq<Option<int>> {
    [raw.qt_leitos_nao_sus, raw.leitos_nao_sus, raw.numero_leitos_particular]
  }

  function TotalKeys(raw: CnesRecord): seq<Option<int>> {
    [raw.numero_leitos_total, raw.qt_leitos_total, raw.numero_leitos]
  }

  /** The items of an array; anything else counts as an empty list. */
  function ListOrEmpty(v: Json): (r: seq<Json>)
    ensures v.JArray? ==> r == v.items
    ensures !v.JArray? ==> r == []
  {
    if v.JArray? then v.items else []
  }

  /**
   * `String(code ?? '') || null`: the first present code as text, or absent
   * when no code is present or the first present one renders as "".
   */
  function CnesCode(raw: CnesRecord): (r: Option<string>)
    ensures r.None? <==> !AnyPresent(CodeKeys(raw)) || ScalarText(FirstPresent(CodeKeys(raw)).value) == ""
    ensures r.Some? ==> exists i | 0 <= i < 3 ::
      && CodeKeys(raw)[i].Some?
      && r.value == ScalarText(CodeKeys(raw)[i].value)
      && forall j | 0 <= j < i :: CodeKeys(raw)[j].None?
  {
    var code := FirstPresent(CodeKeys(raw));
    var text := if code.Some? then ScalarText(code.value) else "";
    if text == "" then None else Some(text)
  }

  /**
   * The total bed count: an explicit total wins; otherwise it is `sus + nao_sus`
   * when both parts are present, and absent when either is missing.
   */
  function BedTotal(total: Option<int>, sus: Option<int>, naoSus: Option<int>): (r: Option<int>)
    ensures total.Some? ==> r == total
    ensures total.None? && sus.Some? && naoSus.Some? ==> r == Some(sus.value + naoSus.value)
    ensures r.Some? <==> total.Some? || (sus.Some? && naoSus.Some?)
  {
    if total.None? && sus.Some? && naoSus.Some? then Some(sus.value + naoSus.value) else total
  }

  /** `transformCnesData`. */
  function TransformCnesData(raw: CnesRecord): (r: CnesFields)
    ensures ResolvedFirst(r.tipo_estabelecimento, TipoKeys(raw))
    ensures ResolvedFirst(r.subtipo, SubtipoKeys(raw))
    ensures ResolvedFirst(r.leitos_sus, SusKeys(raw))
    ensures ResolvedFirst(r.leitos_nao_sus, NaoSusKeys(raw))
    ensures AnyPresent(TotalKeys(raw)) ==> ResolvedFirst(r.leitos_total, TotalKeys(raw))
    ensures !AnyPresent(TotalKeys(raw)) ==>
      r.leitos_total == if r.leitos_sus.Some? && r.leitos_nao_sus.Some?
                        then Some(r.leitos_sus.value + r.leitos_nao_sus.value) else None
    ensures r.cnes_codigo.None? <==> !AnyPresent(CodeKeys(raw)) || ScalarText(FirstPresent(CodeKeys(raw)).value) == ""
    ensures r.cnes_codigo.Some? ==> r.cnes_codigo.value == ScalarText(FirstPresent(CodeKeys(raw)).value)
    ensures r.equipamentos == (if raw.equipamentos.JArray? then raw.equipamentos.items else [])
    ensures r.habilitacoes == (if raw.habilitacoes.JArray? then raw.habilitacoes.items else [])
    ensures r.dados_cnes_raw == raw
  {
    var sus := FirstPresent(SusKeys(raw));
    var naoSus := FirstPresent(NaoSusKeys(raw));
    CnesFields(
      cnes_codigo := CnesCode(raw),
      tipo_estabelecimento := FirstPresent(TipoKeys(raw)),
      subtipo := FirstPresent(SubtipoKeys(raw)),
      leitos_total := BedTotal(FirstPresent(TotalKeys(raw)), sus, naoSus),
      leitos_sus := sus,
      leitos_nao_sus := naoSus,
      equipamentos := ListOrEmpty(raw.equipamentos),
      habilitacoes := ListOrEmpty(raw.habilitacoes),
      dados_cnes_raw := raw)
  }

  /**
   * Whenever a total is derived rather than read, it is the sum of the two parts;
   * a count absent from the record is never filled with zero.
   */
  lemma BedCountsNeverZeroFilled(raw: CnesRecord)
    ensures var r := TransformCnesData(raw);
      && (r.leitos_sus.None? <==> raw.qt_leitos_sus.None? && raw.leitos_sus.None?)
      && (r.leitos_nao_sus.None? <==> raw.qt_leitos_nao_sus.None? && raw.leitos_nao_sus.None? && raw.numero_leitos_particular.None?)
      && (r.leitos_total.None? <==> !AnyPresent(TotalKeys(raw)) && (r.leitos_sus.None? || r.leitos_nao_sus.None?))
  {
    var r := TransformCnesData(raw);
    assert SusKeys(raw)[0] == raw.qt_leitos_sus && SusKeys(raw)[1] == raw.leitos_sus;
    assert NaoSusKeys(raw)[0] == raw.qt_leitos_nao_sus && NaoSusKeys(raw)[1] == raw.leitos_nao_sus
      && NaoSusKeys(raw)[2] == raw.numero_leitos_particular;
  }

  /** The three bed-count scenarios: a part missing, both parts, an explicit total. */
  lemma BedCountScenarios(raw: CnesRecord)
    requires raw.qt_leitos_sus == Some(40) && raw.leitos_sus.None?
    requires raw.qt_leitos_nao_sus.None? && raw.leitos_nao_sus.None?
    requires raw.qt_leitos_total.None? && raw.numero_leitos.None?
    ensures TransformCnesData(raw.(numero_leitos_particular := None, numero_leitos_total := None)).leitos_total == None
    ensures TransformCnesData(raw.(numero_leitos_particular := Some(10), numero_leitos_total := None)).leitos_total == Some(50)
    ensures TransformCnesData(raw.(numero_leitos_particular := Some(10), numero_leitos_total := Some(60))).leitos_total == Some(60)
  {
    var both := raw.(numero_leitos_particular := Some(10), numero_leitos_total := None);
    assert FirstPresent(SusKeys(both)) == Some(40);
    var parts := NaoSusKeys(both);
    assert parts == [None, None, Some(10)];
    assert parts[2] == Some(10) && parts[0].None? && parts[1].None?;
    assert ResolvedFirst(Some(10), parts);
    ResolvedFirstUnique(Some(10), FirstPresent(parts), parts);
    assert FirstPresent(TotalKeys(both)) == None;
  }
}
