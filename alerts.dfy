/**
 * The alert of alerta_eventos.py (`main_alerta`): pending rows with
 * a date are split into three sections (overdue, high priority not yet
 * due, due tomorrow), each section is rendered with its fixed heading and
 * cap, and exactly one message is sent: the report, or one of two canned
 * texts.
 */
module Alerts {
  import opened Wrappers
  import opened Seqs
  import opened Text
  import opened Dates
  import opened Events

  // ---------------------------------------------------------------------
  // Loading (`carregar_eventos`)
  // ---------------------------------------------------------------------

  /** What reading the worksheet gave: its records, or an exception
      (a failed `get_all_records`, or no `data_evento` column to coerce). */
  datatype Fetch = Records(rows: seq<Event>) | ReadError

  /** `carregar_eventos`: a failed read is an empty table. What that means
      for the message is stated by `MainAlerta`. */
  function LoadEvents(f: Fetch): (rows: seq<Event>)
  {
    match f
    case Records(rs) => rs
    case ReadError => []
  }

  // ---------------------------------------------------------------------
  // The boolean masks, as the script chains them
  // ---------------------------------------------------------------------

  /** `df_pendentes`: status exactly 'Pendente' and a date that parsed. */
  predicate Alertable(e: Event) { e.status == Pendente && e.date.Some? }

  predicate IsAlta(e: Event) { e.priority == Alta }

  /** `data_evento.dt.date < hoje`; NaT compares false. */
  function DueBefore(today: Day): Event -> bool
  {
    (e: Event) => e.date.Some? && Before(e.date.value, today)
  }

  /** `data_evento.dt.date >= hoje`; NaT compares false. */
  function DueFrom(today: Day): Event -> bool
  {
    (e: Event) => e.date.Some? && !Before(e.date.value, today)
  }

  /** `data_evento.dt.date == amanha`. */
  function DueOn(day: Date): Event -> bool
  {
    (e: Event) => e.date.Some? && e.date.value == day
  }

  function Pendentes(rows: seq<Event>): seq<Event>
  {
    Filter(rows, Alertable)
  }

  /** `df_vencidos`. */
  function Vencidos(rows: seq<Event>, today: Day): seq<Event>
  {
    Filter(Pendentes(rows), DueBefore(today))
  }

  /** `df_alta_nao_vencida`, i.e. `df_alta_pendente` restricted to dates from today on. */
  function AltaNaoVencida(rows: seq<Event>, today: Day): seq<Event>
  {
    Filter(Filter(Pendentes(rows), IsAlta), DueFrom(today))
  }

  /** `df_amanha`. */
  function Amanha(rows: seq<Event>, today: Day): seq<Event>
  {
    Filter(Pendentes(rows), DueOn(NextDay(today)))
  }

  // ---------------------------------------------------------------------
  // One-pass reference definitions of the three sections
  // ---------------------------------------------------------------------

  predicate IsOverdue(e: Event, today: Day)
  {
    e.status == Pendente && e.date.Some? && Before(e.date.value, today)
  }

  predicate IsHighNotDue(e: Event, today: Day)
  {
    e.status == Pendente && e.priority == Alta && e.date.Some? && !Before(e.date.value, today)
  }

  predicate IsDueTomorrow(e: Event, today: Day)
  {
    e.status == Pendente && e.date.Some? && e.date.value == NextDay(today)
  }

  /** A row that some section of the report lists. */
  predicate Urgent(e: Event, today: Day)
  {
    IsOverdue(e, today) || IsHighNotDue(e, today) || IsDueTomorrow(e, today)
  }

  function OverdueRows(today: Day): Event -> bool { (e: Event) => IsOverdue(e, today) }

  function HighRows(today: Day): Event -> bool { (e: Event) => IsHighNotDue(e, today) }

  function TomorrowRows(today: Day): Event -> bool { (e: Event) => IsDueTomorrow(e, today) }

  /** The overdue section lists exactly the pending, dated rows before today, in sheet order. */
  lemma OverdueExactly(rows: seq<Event>, today: Day)
    ensures Vencidos(rows, today) == Filter(rows, OverdueRows(today))
  {
    FilterFilter(rows, Alertable, DueBefore(today), OverdueRows(today));
  }

  /** The high-priority section lists exactly the pending 'Alta' rows dated today or later. */
  lemma HighExactly(rows: seq<Event>, today: Day)
    ensures AltaNaoVencida(rows, today) == Filter(rows, HighRows(today))
  {
    var pendingAlta: Event -> bool := e => Alertable(e) && IsAlta(e);
    FilterFilter(rows, Alertable, IsAlta, pendingAlta);
    FilterFilter(rows, pendingAlta, DueFrom(today), HighRows(today));
  }

  /** The tomorrow section lists every pending row dated today + 1, uncapped. */
  lemma TomorrowExactly(rows: seq<Event>, today: Day)
    ensures Amanha(rows, today) == Filter(rows, TomorrowRows(today))
  {
    FilterFilter(rows, Alertable, DueOn(NextDay(today)), TomorrowRows(today));
  }

  /** Membership in each section, and only pending rows with a date are ever listed. */
  lemma SectionMembership(rows: seq<Event>, today: Day, e: Event)
    ensures e in Vencidos(rows, today) <==> e in rows && IsOverdue(e, today)
    ensures e in AltaNaoVencida(rows, today) <==> e in rows && IsHighNotDue(e, today)
    ensures e in Amanha(rows, today) <==> e in rows && IsDueTomorrow(e, today)
    ensures e in Vencidos(rows, today) || e in AltaNaoVencida(rows, today) || e in Amanha(rows, today)
            ==> e.status == Pendente && e.date.Some?
  {
    OverdueExactly(rows, today);
    HighExactly(rows, today);
    TomorrowExactly(rows, today);
  }

  /** A row whose date did not parse appears in no section, whatever its other fields. */
  lemma UndatedNeverListed(rows: seq<Event>, today: Day, e: Event)
    requires e.date.None?
    ensures e !in Vencidos(rows, today) && e !in AltaNaoVencida(rows, today) && e !in Amanha(rows, today)
  {
    SectionMembership(rows, today, e);
  }

  /** No row is both overdue and in the high-priority or tomorrow section. */
  lemma OverdueDisjoint(rows: seq<Event>, today: Day, e: Event)
    ensures e in Vencidos(rows, today) ==> e !in AltaNaoVencida(rows, today) && e !in Amanha(rows, today)
  {
    SectionMembership(rows, today, e);
  }

  /** A pending 'Alta' row due tomorrow is listed twice: high priority and tomorrow. */
  lemma AltaTomorrowInBoth(rows: seq<Event>, today: Day, e: Event)
    requires e in rows && e.status == Pendente && e.priority == Alta
    requires e.date == Some(NextDay(today))
    ensures e in AltaNaoVencida(rows, today) && e in Amanha(rows, today)
  {
    SectionMembership(rows, today, e);
  }

  /** Sections keep sheet order: rows of an earlier part of the sheet come first. */
  lemma SectionsFollowSheetOrder(a: seq<Event>, b: seq<Event>, today: Day)
    ensures Vencidos(a + b, today) == Vencidos(a, today) + Vencidos(b, today)
    ensures AltaNaoVencida(a + b, today) == AltaNaoVencida(a, today) + AltaNaoVencida(b, today)
    ensures Amanha(a + b, today) == Amanha(a, today) + Amanha(b, today)
  {
    FilterConcat(a, b, Alertable);
    FilterConcat(Pendentes(a), Pendentes(b), DueBefore(today));
    FilterConcat(Pendentes(a), Pendentes(b), IsAlta);
    FilterConcat(Filter(Pendentes(a), IsAlta), Filter(Pendentes(b), IsAlta), DueFrom(today));
    FilterConcat(Pendentes(a), Pendentes(b), DueOn(NextDay(today)));
  }

  // ---------------------------------------------------------------------
  // Rendering one section
  // ---------------------------------------------------------------------

  datatype Kind = OverdueKind | HighKind | TomorrowKind

  function Heading(k: Kind): string
  {
    match k
    case OverdueKind => "🔴 *ATRASO CRÍTICO* 🔴\nItens PENDENTES com prazo VENCIDO:\n"
    case HighKind => "🚨 *PRIORIDADE ALTA* 🚨\n"
    case TomorrowKind => "🗓️ *AGENDA DE AMANHÃ* 🗓️\n"
  }

  /** How many of `n` rows a section lists: `head(5)`, `head(3)`, or all of them. */
  function Shown(k: Kind, n: nat): (r: nat)
    ensures r <= n
  {
    match k
    case OverdueKind => if n < 5 then n else 5
    case HighKind => if n < 3 then n else 3
    case TomorrowKind => n
  }

  predicate AllDated(items: seq<Event>) { forall j :: 0 <= j < |items| ==> items[j].date.Some? }

  function ItemLine(k: Kind, e: Event): string
    requires e.date.Some?
  {
    match k
    case OverdueKind => "  - " + e.title + " (Vencimento: " + FormatDMY(e.date.value) + ")\n"
    case HighKind => "  - " + e.title + " (Data: " + FormatDMY(e.date.value) + ")\n"
    case TomorrowKind => "  - " + e.title + " (" + e.time + ") - Local: " + e.place + "\n"
  }

  /** The remainder line of a capped section. */
  function MoreLine(k: Kind, hidden: nat): string
    requires k != TomorrowKind
  {
    match k
    case OverdueKind => "  ... e mais " + NatToString(hidden) + " itens vencidos.\n"
    case HighKind => "  ... e mais " + NatToString(hidden) + " itens de Alta Prioridade.\n"
  }

  /** One item line per row, in the rows' order. */
  function ItemLines(k: Kind, items: seq<Event>): (r: seq<string>)
    requires AllDated(items)
    ensures |r| == |items|
  {
    if items == [] then [] else ItemLines(k, items[..|items| - 1]) + [ItemLine(k, items[|items| - 1])]
  }

  /** Line `j` of a section's item lines renders row `j`. */
  lemma {:induction false} ItemLinesAt(k: Kind, items: seq<Event>, j: nat)
    requires AllDated(items) && j < |items|
    ensures ItemLines(k, items)[j] == ItemLine(k, items[j])
  {
    var n := |items|;
    if j < n - 1 {
      ItemLinesAt(k, items[..n - 1], j);
    }
  }

  function SectionLines(k: Kind, items: seq<Event>): seq<string>
    requires AllDated(items)
  {
    var shown := Shown(k, |items|);
    ItemLines(k, items[..shown]) + (if |items| > shown then [MoreLine(k, |items| - shown)] else [])
  }

  /** The text of one section: its heading, then its lines. */
  function SectionText(k: Kind, items: seq<Event>): string
    requires AllDated(items)
  {
    Heading(k) + Concat(SectionLines(k, items))
  }

  /** Overdue: the first min(n, 5) rows in sheet order, then "... e mais (n-5)" exactly when n > 5. */
  lemma OverdueSectionCaps(items: seq<Event>)
    requires AllDated(items)
    ensures var lines, n := SectionLines(OverdueKind, items), |items|;
            |lines| == (if n > 5 then 6 else n)
            && (forall j :: 0 <= j < n && j < 5 ==> lines[j] == ItemLine(OverdueKind, items[j]))
            && (n > 5 ==> lines[5] == "  ... e mais " + NatToString(n - 5) + " itens vencidos.\n")
  {
    var shown := Shown(OverdueKind, |items|);
    forall j | 0 <= j < shown {
      ItemLinesAt(OverdueKind, items[..shown], j);
    }
  }

  /** High priority: the first min(n, 3) rows, then "... e mais (n-3)" exactly when n > 3. */
  lemma HighSectionCaps(items: seq<Event>)
    requires AllDated(items)
    ensures var lines, n := SectionLines(HighKind, items), |items|;
            |lines| == (if n > 3 then 4 else n)
            && (forall j :: 0 <= j < n && j < 3 ==> lines[j] == ItemLine(HighKind, items[j]))
            && (n > 3 ==> lines[3] == "  ... e mais " + NatToString(n - 3) + " itens de Alta Prioridade.\n")
  {
    var shown := Shown(HighKind, |items|);
    forall j | 0 <= j < shown {
      ItemLinesAt(HighKind, items[..shown], j);
    }
  }

  /** Tomorrow: every row listed, no remainder line. */
  lemma TomorrowSectionUncapped(items: seq<Event>)
    requires AllDated(items)
    ensures SectionLines(TomorrowKind, items) == ItemLines(TomorrowKind, items)
  {
    assert items[..|items|] == items;
  }

  /** One turn of the item loop: appending row `i`'s line extends the section by that row. */
  lemma ItemLinesSnoc(k: Kind, items: seq<Event>, i: nat, heading: string, msg: string)
    requires AllDated(items) && i < |items|
    requires msg == heading + Concat(ItemLines(k, items[..i]))
    ensures msg + ItemLine(k, items[i]) == heading + Concat(ItemLines(k, items[..i + 1]))
  {
    assert items[..i + 1][..i] == items[..i];
    ConcatSnoc(ItemLines(k, items[..i]), ItemLine(k, items[i]));
    AppendAssoc(heading, Concat(ItemLines(k, items[..i])), ItemLine(k, items[i]));
  }

  /** A capped section is its heading, the listed rows' lines and the remainder line. */
  lemma SectionTextCapped(k: Kind, items: seq<Event>)
    requires AllDated(items) && |items| > Shown(k, |items|)
    ensures SectionText(k, items)
            == Heading(k) + Concat(ItemLines(k, items[..Shown(k, |items|)])) + MoreLine(k, |items| - Shown(k, |items|))
  {
    var lines := ItemLines(k, items[..Shown(k, |items|)]);
    var more := MoreLine(k, |items| - Shown(k, |items|));
    assert SectionLines(k, items) == lines + [more];
    ConcatAfterHeading(Heading(k), lines, more);
  }

  /** A section that lists every row has no remainder line. */
  lemma SectionTextUncapped(k: Kind, items: seq<Event>)
    requires AllDated(items) && |items| <= Shown(k, |items|)
    ensures SectionText(k, items) == Heading(k) + Concat(ItemLines(k, items[..Shown(k, |items|)]))
  {
    assert SectionLines(k, items) == ItemLines(k, items[..Shown(k, |items|)]);
  }

  /** The loop of one section (`msg_vencidos`, `msg_alta`, `msg_amanha` growing by `+=`). */
  method BuildSection(k: Kind, items: seq<Event>) returns (msg: string)
    requires AllDated(items)
    ensures msg == SectionText(k, items)
  {
    msg := Heading(k);
    var shown := Shown(k, |items|);
    for i := 0 to shown
      invariant msg == Heading(k) + Concat(ItemLines(k, items[..i]))
    {
      ItemLinesSnoc(k, items, i, Heading(k), msg);
      msg := msg + ItemLine(k, items[i]);
    }
    if |items| > shown {
      SectionTextCapped(k, items);
      msg := msg + MoreLine(k, |items| - shown);
    } else {
      SectionTextUncapped(k, items);
    }
  }

  // ---------------------------------------------------------------------
  // The whole message
  // ---------------------------------------------------------------------

  const NoEventsText: string := "OLÁ! NÃO HÁ EVENTOS REGISTRADOS!"
  const NothingUrgentText: string := "OLÁ! NÃO HÁ EVENTOS URGENTES!"
  const ReportHeader: string := "🤖 *Relatório de Governança da Agenda*\n\n"
  const Separator: string := "\n---\n"

  lemma BucketsDated(rows: seq<Event>, today: Day)
    ensures AllDated(Vencidos(rows, today))
    ensures AllDated(AltaNaoVencida(rows, today))
    ensures AllDated(Amanha(rows, today))
  {
  }

  /** `mensagens` for the three buckets: the text of each non-empty one, in the fixed order. */
  function SectionList(vencidos: seq<Event>, alta: seq<Event>, amanha: seq<Event>): seq<string>
    requires AllDated(vencidos) && AllDated(alta) && AllDated(amanha)
  {
    (if vencidos != [] then [SectionText(OverdueKind, vencidos)] else [])
    + (if alta != [] then [SectionText(HighKind, alta)] else [])
    + (if amanha != [] then [SectionText(TomorrowKind, amanha)] else [])
  }

  /** `mensagens` for a table on a given day. */
  function Sections(rows: seq<Event>, today: Day): seq<string>
  {
    SectionList(Vencidos(rows, today), AltaNaoVencida(rows, today), Amanha(rows, today))
  }

  /** The final branch on `mensagens`: the report, or "nothing urgent" when it is empty. */
  function Assemble(parts: seq<string>): string
  {
    if parts == [] then NothingUrgentText else ReportHeader + Join(Separator, parts)
  }

  /** The one message a run with a sheet sends. */
  function Message(rows: seq<Event>, today: Day): string
  {
    if rows == [] then NoEventsText else Assemble(Sections(rows, today))
  }

  /** The canned "nothing urgent" text is sent exactly when there is no section to report. */
  lemma AssembleCanned(parts: seq<string>)
    ensures Assemble(parts) == NothingUrgentText <==> parts == []
    ensures parts != [] ==> ReportHeader <= Assemble(parts)
  {
    if parts != [] {
      var m := Assemble(parts);
      assert m[0] == ReportHeader[0];
      assert NothingUrgentText[0] != ReportHeader[0];
    }
  }

  /** There is no section to report exactly when no row is urgent. */
  lemma SectionsEmptyIff(rows: seq<Event>, today: Day)
    ensures Sections(rows, today) == [] <==> forall e :: e in rows ==> !Urgent(e, today)
  {
    var v, h, t := Vencidos(rows, today), AltaNaoVencida(rows, today), Amanha(rows, today);
    if Sections(rows, today) != [] {
      assert v + h + t != [];
      var e := (v + h + t)[0];
      SectionMembership(rows, today, e);
    } else {
      forall e | e in rows ensures !Urgent(e, today) {
        SectionMembership(rows, today, e);
      }
    }
  }

  /** For a non-empty table, "nothing urgent" is sent exactly when no row is urgent. */
  lemma NothingUrgentIff(rows: seq<Event>, today: Day)
    requires rows != []
    ensures Message(rows, today) == NothingUrgentText <==> forall e :: e in rows ==> !Urgent(e, today)
  {
    AssembleCanned(Sections(rows, today));
    SectionsEmptyIff(rows, today);
  }

  /** When some row is overdue, the report opens with the overdue section. */
  lemma OverdueComesFirst(rows: seq<Event>, today: Day)
    requires Vencidos(rows, today) != []
    ensures ReportHeader + SectionText(OverdueKind, Vencidos(rows, today)) <= Message(rows, today)
  {
    JoinStartsWithFirst(Separator, Sections(rows, today));
  }

  /** When some row is due tomorrow, the report closes with the tomorrow section. */
  lemma TomorrowComesLast(rows: seq<Event>, today: Day)
    requires Amanha(rows, today) != []
    ensures EndsWith(Message(rows, today), SectionText(TomorrowKind, Amanha(rows, today)))
  {
    var v, h, t := Vencidos(rows, today), AltaNaoVencida(rows, today), Amanha(rows, today);
    var s := SectionText(TomorrowKind, t);
    var pre := (if v != [] then [SectionText(OverdueKind, v)] else [])
               + (if h != [] then [SectionText(HighKind, h)] else []);
    var parts := pre + [s];
    assert Sections(rows, today) == parts;
    assert rows != [] by {
      assert |t| <= |Pendentes(rows)| <= |rows|;
    }
    JoinLastUnderHeader(ReportHeader, Separator, pre, s, Message(rows, today));
  }

  /** The high-priority section sits after the overdue one and before the tomorrow one. */
  lemma HighInTheMiddle(rows: seq<Event>, today: Day)
    requires AltaNaoVencida(rows, today) != []
    ensures var v, t := Vencidos(rows, today), Amanha(rows, today);
            Message(rows, today)
              == ReportHeader
                 + (if v != [] then SectionText(OverdueKind, v) + Separator else "")
                 + SectionText(HighKind, AltaNaoVencida(rows, today))
                 + (if t != [] then Separator + SectionText(TomorrowKind, t) else "")
  {
    var v, h, t := Vencidos(rows, today), AltaNaoVencida(rows, today), Amanha(rows, today);
    var pre := if v != [] then [SectionText(OverdueKind, v)] else [];
    var post := if t != [] then [SectionText(TomorrowKind, t)] else [];
    assert Sections(rows, today) == pre + [SectionText(HighKind, h)] + post;
    assert rows != [] by {
      assert |h| <= |Pendentes(rows)| <= |rows|;
    }
    JoinAround(ReportHeader, Separator, pre, SectionText(HighKind, h), post);
  }

  /** The three section blocks of `main_alerta`: each non-empty bucket's text is appended to `mensagens`. */
  method BuildSections(vencidos: seq<Event>, alta: seq<Event>, amanha: seq<Event>) returns (mensagens: seq<string>)
    requires AllDated(vencidos) && AllDated(alta) && AllDated(amanha)
    ensures mensagens == SectionList(vencidos, alta, amanha)
  {
    ghost var first := if vencidos != [] then [SectionText(OverdueKind, vencidos)] else [];
    ghost var second := if alta != [] then [SectionText(HighKind, alta)] else [];
    ghost var third := if amanha != [] then [SectionText(TomorrowKind, amanha)] else [];

    mensagens := [];
    if vencidos != [] {
      var m := BuildSection(OverdueKind, vencidos);
      mensagens := mensagens + [m];
    }
    assert mensagens == first;
    if alta != [] {
      var m := BuildSection(HighKind, alta);
      mensagens := mensagens + [m];
    }
    assert mensagens == first + second;
    if amanha != [] {
      var m := BuildSection(TomorrowKind, amanha);
      mensagens := mensagens + [m];
    }
    assert mensagens == first + second + third;
  }

  /**
   * `main_alerta`: no sheet, nothing is sent; otherwise exactly one message.
   * An empty table (including a failed read) sends "NÃO HÁ EVENTOS REGISTRADOS".
   */
  method MainAlerta(sheet: Option<Fetch>, today: Day) returns (sent: Option<string>)
    ensures sent.Some? <==> sheet.Some?
    ensures sheet.Some? ==> sent == Some(Message(LoadEvents(sheet.value), today))
    ensures sheet == Some(ReadError) ==> sent == Some(NoEventsText)
  {
    if sheet.None? {
      return None;
    }
    var rows := LoadEvents(sheet.value);
    if rows == [] {
      return Some(NoEventsText);
    }
    BucketsDated(rows, today);
    var mensagens := BuildSections(Vencidos(rows, today), AltaNaoVencida(rows, today), Amanha(rows, today));
    if mensagens != [] {
      sent := Some(ReportHeader + Join(Separator, mensagens));
    } else {
      sent := Some(NothingUrgentText);
    }
  }
}
