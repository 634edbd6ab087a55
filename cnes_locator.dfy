/**
 * Locating a facility in the DataSUS CNES registry: first by CNPJ, then, if
 * that finds nothing and a trade name is known, by trade name (and state).
 * Each HTTP attempt is an oracle answer; a failed attempt (timeout, network
 * error, non-2xx status, unparsable body) is only ever "no result".
 */
module CnesLocator {
  import opened Wrappers
  import opened Text
  import opened ProspectTypes
  import Cnpj

  /** The two searches the locator can issue. `uf` is set only when the context has a non-empty one. */
  datatype Query = ByCnpj(cnpj: string) | ByName(nome_fantasia: string, uf: Option<string>)

  /** The `estabelecimentos` key of a body that is not itself an array. */
  datatype Establishments = Missing | Listed(items: seq<CnesRecord>) | NotAList

  /** A successful response body: a bare array, or anything else. */
  datatype Body = BareList(items: seq<CnesRecord>) | Keyed(estabelecimentos: Establishments)

  /** The outcome of one HTTP attempt. */
  datatype Attempt = Failed | Answered(body: Body)

  /** The first establishment of a body: a bare array is the list itself, otherwise its `estabelecimentos` list (none when missing). */
  function FirstItem(a: Attempt): (r: Option<CnesRecord>)
    ensures r.Some? <==>
      && a.Answered?
      && (|| (a.body.BareList? && |a.body.items| > 0)
          || (a.body.Keyed? && a.body.estabelecimentos.Listed? && |a.body.estabelecimentos.items| > 0))
    ensures r.Some? && a.body.BareList? ==> r.value == a.body.items[0]
    ensures r.Some? && a.body.Keyed? ==> r.value == a.body.estabelecimentos.items[0]
  {
    if a.Failed? then None
    else
      var items := match a.body
        case BareList(xs) => xs
        case Keyed(Listed(xs)) => xs
        case Keyed(_) => [];
      if |items| > 0 then Some(items[0]) else None
  }

  /** The fallback search, issued only for a non-empty trade name. */
  function NameQuery(context: Option<CnesSearchContext>): (q: Option<Query>)
    ensures q.Some? <==> context.Some? && Truthy(context.value.nome_fantasia)
    ensures q.Some? ==>
      && q.value.ByName?
      && q.value.nome_fantasia == context.value.nome_fantasia.value
      && (q.value.uf.Some? <==> Truthy(context.value.uf))
      && (q.value.uf.Some? ==> q.value.uf == context.value.uf)
  {
    if context.Some? && Truthy(context.value.nome_fantasia) then
      var ctx := context.value;
      Some(ByName(ctx.nome_fantasia.value, if Truthy(ctx.uf) then ctx.uf else None))
    else None
  }

  /** The record the locator returns for a cleaned CNPJ. */
  function Located(cleaned: string, context: Option<CnesSearchContext>, answer: Query -> Attempt): (r: Option<CnesRecord>)
    ensures FirstItem(answer(ByCnpj(cleaned))).Some? ==> r == FirstItem(answer(ByCnpj(cleaned)))
    ensures FirstItem(answer(ByCnpj(cleaned))).None? && NameQuery(context).Some? ==>
      r == FirstItem(answer(NameQuery(context).value))
    ensures r.None? <==>
      && FirstItem(answer(ByCnpj(cleaned))).None?
      && (NameQuery(context).None? || FirstItem(answer(NameQuery(context).value)).None?)
  {
    var byCnpj := FirstItem(answer(ByCnpj(cleaned)));
    if byCnpj.Some? then byCnpj
    else if NameQuery(context).Some? then FirstItem(answer(NameQuery(context).value))
    else None
  }

  /** The searches issued, in order: the CNPJ search always, the name search only as a fallback. */
  function QueriesIssued(cleaned: string, context: Option<CnesSearchContext>, answer: Query -> Attempt): (qs: seq<Query>)
    ensures 1 <= |qs| <= 2 && qs[0] == ByCnpj(cleaned)
    ensures |qs| == 2 <==> FirstItem(answer(ByCnpj(cleaned))).None? && NameQuery(context).Some?
    ensures |qs| == 2 ==> qs[1] == NameQuery(context).value
  {
    if FirstItem(answer(ByCnpj(cleaned))).None? && NameQuery(context).Some?
    then [ByCnpj(cleaned), NameQuery(context).value]
    else [ByCnpj(cleaned)]
  }

  /** `fetchCnesData`: two attempts with early returns; returns the record found and the searches issued. */
  method FetchCnesData(cnpj: string, context: Option<CnesSearchContext>, answer: Query -> Attempt)
    returns (found: Option<CnesRecord>, queries: seq<Query>)
    ensures found == Located(Cnpj.CleanCnpj(cnpj), context, answer)
    ensures queries == QueriesIssued(Cnpj.CleanCnpj(cnpj), context, answer)
  {
    var cleaned := Cnpj.CleanCnpj(cnpj);

    // first attempt: the CNPJ search
    var first := ByCnpj(cleaned);
    queries := [first];
    found := FirstItem(answer(first));
    if found.Some? {
      return;
    }

    // second attempt: the trade-name search, only when the first found nothing
    if context.Some? && Truthy(context.value.nome_fantasia) {
      var uf := if Truthy(context.value.uf) then context.value.uf else None;
      var second := ByName(context.value.nome_fantasia.value, uf);
      queries := queries + [second];
      found := FirstItem(answer(second));
      if found.Some? {
        return;
      }
    }

    found := None;
  }

  /** A failed attempt and an empty answer are the same to the locator: no error ever escapes it. */
  lemma FailureIsNoResult(cleaned: string, context: Option<CnesSearchContext>, answer: Query -> Attempt, q: Query)
    requires answer(q) == Failed
    ensures Located(cleaned, context, answer) == Located(cleaned, context, q' => if q' == q then Answered(BareList([])) else answer(q'))
  {
  }
}
