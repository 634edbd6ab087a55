/**
 * The bookkeeping of the pipeline board: columns by status, the collapsed
 * columns, the summary counters and the labels of a prospect card.
 * Timestamps are integer milliseconds; `now` is a parameter.
 */
module PipelineView {
  import opened Wrappers
  import opened Text
  import opened ProspectTypes

  /** The columns of the board, left to right. */
  const PIPELINE_ORDER: seq<Status> :=
    [Novo, Pesquisando, Contatado, ReuniaoAgendada, PropostaEnviada, Negociando, Ganho, Perdido, Inativo]

  const TERMINAL_STATUSES: seq<Status> := [Ganho, Perdido, Inativo]

  const DAY_MS: int := 86400000
  const FOURTEEN_DAYS_MS: int := 14 * DAY_MS

  /** The columns collapsed when the board is first shown. */
  const INITIAL_COLLAPSED: set<Status> := {Perdido, Inativo}

  predicate IsTerminal(s: Status) {
    s in TERMINAL_STATUSES
  }

  /** How many times `s` appears in `order`. */
  function Occurrences(order: seq<Status>, s: Status): nat {
    if order == [] then 0 else (if order[0] == s then 1 else 0) + Occurrences(order[1..], s)
  }

  predicate Distinct(order: seq<Status>) {
    forall i, j | 0 <= i < j < |order| :: order[i] != order[j]
  }

  lemma {:induction false} OccurrencesOfDistinct(order: seq<Status>, s: Status)
    requires Distinct(order)
    ensures Occurrences(order, s) == if s in order then 1 else 0
  {
    if order != [] {
      var tail := order[1..];
      assert Distinct(tail) by {
        forall i, j | 0 <= i < j < |tail| ensures tail[i] != tail[j] {
          assert tail[i] == order[i + 1] && tail[j] == order[j + 1];
        }
      }
      OccurrencesOfDistinct(tail, s);
      assert order == [order[0]] + tail;
    }
  }

  /** Every status has exactly one column. */
  lemma EveryStatusHasOneColumn(s: Status)
    ensures s in PIPELINE_ORDER
    ensures Occurrences(PIPELINE_ORDER, s) == 1
  {
    OccurrencesOfDistinct(PIPELINE_ORDER, s);
  }

  // ---------------------------------------------------------------- grouping

  /** The prospects of status `s`, in the order they come. */
  function Column(ps: seq<ProspectWithStats>, s: Status): seq<ProspectWithStats> {
    if ps == [] then []
    else Column(ps[..|ps| - 1], s) + (if ps[|ps| - 1].status == s then [ps[|ps| - 1]] else [])
  }

  /** A prospect is in column `s` exactly when it is one of the prospects and has status `s`. */
  lemma {:induction false} ColumnMembers(ps: seq<ProspectWithStats>, s: Status, p: ProspectWithStats)
    ensures p in Column(ps, s) <==> p in ps && p.status == s
  {
    if ps != [] {
      var init := ps[..|ps| - 1];
      ColumnMembers(init, s, p);
      assert ps == init + [ps[|ps| - 1]];
    }
  }

  /** A column keeps the relative order of the prospects: the column of a concatenation is the concatenation of the columns. */
  lemma {:induction false} ColumnConcat(xs: seq<ProspectWithStats>, ys: seq<ProspectWithStats>, s: Status)
    ensures Column(xs + ys, s) == Column(xs, s) + Column(ys, s)
    decreases |ys|
  {
    if ys == [] {
      assert xs + ys == xs;
    } else {
      var init := ys[..|ys| - 1];
      assert (xs + ys)[..|xs + ys| - 1] == xs + init;
      ColumnConcat(xs, init, s);
    }
  }

  /** The total size of the columns of `order`. */
  function ColumnSizes(ps: seq<ProspectWithStats>, order: seq<Status>): nat {
    if order == [] then 0 else |Column(ps, order[0])| + ColumnSizes(ps, order[1..])
  }

  lemma {:induction false} ColumnSizesSnoc(ps: seq<ProspectWithStats>, p: ProspectWithStats, order: seq<Status>)
    ensures ColumnSizes(ps + [p], order) == ColumnSizes(ps, order) + Occurrences(order, p.status)
  {
    if order != [] {
      ColumnSizesSnoc(ps, p, order[1..]);
      assert (ps + [p])[..|ps + [p]| - 1] == ps;
    }
  }

  /** The columns together hold every prospect exactly once. */
  lemma {:induction false} ColumnSizesSum(ps: seq<ProspectWithStats>)
    ensures ColumnSizes(ps, PIPELINE_ORDER) == |ps|
  {
    if ps == [] {
      ColumnSizesEmpty(PIPELINE_ORDER);
    } else {
      var init := ps[..|ps| - 1];
      var p := ps[|ps| - 1];
      assert ps == init + [p];
      ColumnSizesSum(init);
      ColumnSizesSnoc(init, p, PIPELINE_ORDER);
      EveryStatusHasOneColumn(p.status);
    }
  }

  lemma {:induction false} ColumnSizesEmpty(order: seq<Status>)
    ensures ColumnSizes([], order) == 0
  {
    if order != [] {
      ColumnSizesEmpty(order[1..]);
    }
  }

  /** `grouped`: one (possibly empty) column per status, filled by pushing each prospect onto its status's column. */
  method Group(prospects: seq<ProspectWithStats>) returns (grouped: map<Status, seq<ProspectWithStats>>)
    ensures forall s: Status :: s in grouped
    ensures forall s: Status :: grouped[s] == Column(prospects, s)
  {
    grouped := map[];
    for i := 0 to |PIPELINE_ORDER|
      invariant forall j | 0 <= j < i :: PIPELINE_ORDER[j] in grouped
      invariant forall s | s in grouped :: grouped[s] == []
    {
      grouped := grouped[PIPELINE_ORDER[i] := []];
    }
    forall s: Status ensures s in grouped {
      EveryStatusHasOneColumn(s);
    }

    for i := 0 to |prospects|
      invariant forall s: Status :: s in grouped
      invariant forall s: Status :: grouped[s] == Column(prospects[..i], s)
    {
      var p := prospects[i];
      assert prospects[..i + 1][..i] == prospects[..i];
      if p.status in grouped {
        grouped := grouped[p.status := grouped[p.status] + [p]];
      }
    }
    assert prospects[..|prospects|] == prospects;
  }

  // ---------------------------------------------------------------- collapsed columns

  /** `toggleColumn`'s state update: the membership of `status` flips, nothing else changes. */
  function Toggled(prev: set<Status>, status: Status): (next: set<Status>)
    ensures status in next <==> status !in prev
    ensures forall s | s != status :: s in next <==> s in prev
  {
    if status in prev then prev - {status} else prev + {status}
  }

  /** Toggling the same column twice restores the set. */
  lemma ToggledTwice(prev: set<Status>, status: Status)
    ensures Toggled(Toggled(prev, status), status) == prev
  {
  }

  /** The board's state: which columns are collapsed. */
  class PipelineBoard {
    var collapsedColumns: set<Status>

    constructor ()
      ensures collapsedColumns == INITIAL_COLLAPSED
    {
      collapsedColumns := INITIAL_COLLAPSED;
    }

    /** Copies the set, then deletes `status` if it was there and adds it otherwise. */
    method ToggleColumn(status: Status)
      modifies this
      ensures collapsedColumns == Toggled(old(collapsedColumns), status)
    {
      var next := collapsedColumns;
      if status in next {
        next := next - {status};
      } else {
        next := next + {status};
      }
      collapsedColumns := next;
    }
  }

  // ---------------------------------------------------------------- metrics

  /** The conditions the summary counts. */
  datatype Counter = Won | Lost | Overdue | Stale | Open

  predicate Counts(c: Counter, p: ProspectWithStats, now: int) {
    match c
    case Won => p.status == Ganho
    case Lost => p.status == Perdido
    case Overdue => !IsTerminal(p.status) && p.proximo_contato.Some? && p.proximo_contato.value < now
    case Stale =>
      !IsTerminal(p.status) && (p.ultima_interacao.None? || now - p.ultima_interacao.value > FOURTEEN_DAYS_MS)
    case Open => !IsTerminal(p.status)
  }

  /** How many prospects meet counter `c`'s condition. */
  function Tally(ps: seq<ProspectWithStats>, c: Counter, now: int): nat {
    if ps == [] then 0
    else Tally(ps[..|ps| - 1], c, now) + (if Counts(c, ps[|ps| - 1], now) then 1 else 0)
  }

  /** The win rate: not applicable without a decided prospect, otherwise `ganhos` out of `decided`. */
  datatype WinRate = NotApplicable | Rate(ganhos: nat, decided: nat)

  function WinRateOf(ganhos: nat, perdidos: nat): (w: WinRate)
    ensures w.NotApplicable? <==> ganhos + perdidos == 0
    ensures w.Rate? ==> w.ganhos == ganhos && w.decided == ganhos + perdidos && 0 < w.decided
  {
    var total := ganhos + perdidos;
    if total > 0 then Rate(ganhos, total) else NotApplicable
  }

  datatype Metrics = Metrics(contatoVencido: nat, semInteracao14d: nat, winRate: WinRate)

  /** `metrics`: one pass over the prospects, four counters. */
  method ComputeMetrics(prospects: seq<ProspectWithStats>, now: int) returns (m: Metrics)
    ensures m.contatoVencido == Tally(prospects, Overdue, now)
    ensures m.semInteracao14d == Tally(prospects, Stale, now)
    ensures m.winRate == WinRateOf(Tally(prospects, Won, now), Tally(prospects, Lost, now))
  {
    var contatoVencido, semInteracao14d, ganhos, perdidos := 0, 0, 0, 0;
    for i := 0 to |prospects|
      invariant contatoVencido == Tally(prospects[..i], Overdue, now)
      invariant semInteracao14d == Tally(prospects[..i], Stale, now)
      invariant ganhos == Tally(prospects[..i], Won, now)
      invariant perdidos == Tally(prospects[..i], Lost, now)
    {
      var p := prospects[i];
      assert prospects[..i + 1][..i] == prospects[..i];
      var isTerminal := IsTerminal(p.status);

      if p.status == Ganho { ganhos := ganhos + 1; }
      if p.status == Perdido { perdidos := perdidos + 1; }

      if !isTerminal && p.proximo_contato.Some? && p.proximo_contato.value < now {
        contatoVencido := contatoVencido + 1;
      }

      if !isTerminal {
        if p.ultima_interacao.None? || now - p.ultima_interacao.value > FOURTEEN_DAYS_MS {
          semInteracao14d := semInteracao14d + 1;
        }
      }
    }
    assert prospects[..|prospects|] == prospects;
    m := Metrics(contatoVencido, semInteracao14d, WinRateOf(ganhos, perdidos));
  }

  /** A counter whose condition implies another's counts no more than it. */
  lemma {:induction false} TallyMonotone(ps: seq<ProspectWithStats>, c: Counter, d: Counter, now: int)
    requires forall p :: Counts(c, p, now) ==> Counts(d, p, now)
    ensures Tally(ps, c, now) <= Tally(ps, d, now)
  {
    if ps != [] {
      TallyMonotone(ps[..|ps| - 1], c, d, now);
    }
  }

  /** Overdue and stale prospects are all open ones: both counters are bounded by the open prospects. */
  lemma CountersBoundedByOpen(ps: seq<ProspectWithStats>, now: int)
    ensures Tally(ps, Overdue, now) <= Tally(ps, Open, now)
    ensures Tally(ps, Stale, now) <= Tally(ps, Open, now)
  {
    TallyMonotone(ps, Overdue, Open, now);
    TallyMonotone(ps, Stale, Open, now);
  }

  /** A counter is zero exactly when no prospect meets its condition. */
  lemma {:induction false} TallyZeroIff(ps: seq<ProspectWithStats>, c: Counter, now: int)
    ensures Tally(ps, c, now) == 0 <==> forall i | 0 <= i < |ps| :: !Counts(c, ps[i], now)
  {
    if ps != [] {
      var init := ps[..|ps| - 1];
      TallyZeroIff(init, c, now);
      assert forall i | 0 <= i < |init| :: init[i] == ps[i];
    }
  }

  /** The win rate is not applicable exactly when no prospect is won or lost. */
  lemma WinRateNotApplicableIff(ps: seq<ProspectWithStats>, now: int)
    ensures WinRateOf(Tally(ps, Won, now), Tally(ps, Lost, now)).NotApplicable? <==>
      forall i | 0 <= i < |ps| :: ps[i].status != Ganho && ps[i].status != Perdido
  {
    TallyZeroIff(ps, Won, now);
    TallyZeroIff(ps, Lost, now);
  }

  // ---------------------------------------------------------------- card labels

  /** Whole days elapsed from `t` to `now`, rounded down. */
  function DaysSince(now: int, t: int): (d: int)
    ensures d * DAY_MS <= now - t < d * DAY_MS + DAY_MS
  {
    (now - t) / DAY_MS
  }

  datatype DaysBadge = DaysBadge(caption: string, color: string)

  const NO_INTERACTION_LABEL: string := "Sem interação"
  const MUTED_COLOR: string := "text-zinc-400"
  const NORMAL_COLOR: string := "text-zinc-500"
  const AMBER_COLOR: string := "text-amber-600"

  /** The days-since-last-interaction badge of a card. */
  function DaysBadgeOf(ultimaInteracao: Option<int>, now: int): (b: DaysBadge)
    ensures ultimaInteracao.None? ==> b == DaysBadge(NO_INTERACTION_LABEL, MUTED_COLOR)
    ensures ultimaInteracao.Some? ==>
      var days := DaysSince(now, ultimaInteracao.value);
      && b.caption == IntToString(days) + "d atrás"
      && (b.color == AMBER_COLOR <==> days > 14)
      && (b.color == NORMAL_COLOR <==> days <= 14)
  {
    if ultimaInteracao.None? then DaysBadge(NO_INTERACTION_LABEL, MUTED_COLOR)
    else
      var days := DaysSince(now, ultimaInteracao.value);
      DaysBadge(IntToString(days) + "d atrás", if days > 14 then AMBER_COLOR else NORMAL_COLOR)
  }

  /** The card's place line: `municipio`, followed by `/uf` when there is a state. */
  function Localidade(endereco: Option<EnderecoView>): (r: Option<string>)
    ensures r.Some? <==> endereco.Some? && Truthy(endereco.value.municipio)
    ensures r.Some? ==>
      var m := endereco.value.municipio.value;
      && |r.value| >= |m|
      && r.value[..|m|] == m
      && (Truthy(endereco.value.uf) ==> r.value[|m|..] == "/" + endereco.value.uf.value)
      && (!Truthy(endereco.value.uf) ==> r.value == m)
  {
    if endereco.Some? && Truthy(endereco.value.municipio) then
      var m := endereco.value.municipio.value;
      Some(m + (if Truthy(endereco.value.uf) then "/" + endereco.value.uf.value else ""))
    else None
  }

  /** The card's info line: a non-zero bed count wins over the company size. */
  function Info(leitosTotal: Option<int>, porte: Option<string>): (r: Option<string>)
    ensures leitosTotal.Some? && leitosTotal.value != 0 ==> r == Some(IntToString(leitosTotal.value) + " leitos")
    ensures (leitosTotal.None? || leitosTotal.value == 0) ==> (r.Some? <==> Truthy(porte)) && (r.Some? ==> r == porte)
  {
    if leitosTotal.Some? && leitosTotal.value != 0 then Some(IntToString(leitosTotal.value) + " leitos")
    else if Truthy(porte) then porte
    else None
  }

  /** The card's title: trade name, else legal name, else a placeholder. */
  function DisplayName(p: ProspectWithStats): (r: string)
    ensures Truthy(p.nome_fantasia) ==> r == p.nome_fantasia.value
    ensures !Truthy(p.nome_fantasia) && Truthy(p.razao_social) ==> r == p.razao_social.value
    ensures !Truthy(p.nome_fantasia) && !Truthy(p.razao_social) ==> r == "Sem nome"
    ensures r != ""
  {
    if Truthy(p.nome_fantasia) then p.nome_fantasia.value
    else if Truthy(p.razao_social) then p.razao_social.value
    else "Sem nome"
  }
}
