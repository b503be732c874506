/**
 * The data rules of the Streamlit dashboard (app.py): the status filter of
 * the sidebar, the three counters, appending a new event to the sheet
 * (`adicionar_evento`) and the form handler that requires a title.
 */
module Dashboard {
  import opened Wrappers
  import opened Seqs
  import opened Text
  import opened Dates
  import opened Events
  import Alerts

  // ---------------------------------------------------------------------
  // Status filter and counters over the loaded table
  // ---------------------------------------------------------------------

  /** The radio button "Mostrar eventos por status". */
  datatype StatusFilter = Pendentes | Concluidos | Todos

  /** `df_exibicao`: the rows shown for the chosen filter. */
  function View(rows: seq<Event>, f: StatusFilter): seq<Event>
  {
    match f
    case Pendentes => Filter(rows, IsPendente)
    case Concluidos => Filter(rows, IsConcluido)
    case Todos => rows
  }

  /** Each view holds exactly the rows of its status; "Todos" is the whole table. */
  lemma ViewContents(rows: seq<Event>, f: StatusFilter, e: Event)
    ensures f == Pendentes ==> (e in View(rows, f) <==> e in rows && e.status == Pendente)
    ensures f == Concluidos ==> (e in View(rows, f) <==> e in rows && e.status == Concluido)
    ensures f == Todos ==> View(rows, f) == rows
  {
  }

  /** Views list rows in table order. */
  lemma ViewKeepsOrder(a: seq<Event>, b: seq<Event>, f: StatusFilter)
    ensures View(a + b, f) == View(a, f) + View(b, f)
  {
    match f
    case Pendentes => FilterConcat(a, b, IsPendente);
    case Concluidos => FilterConcat(a, b, IsConcluido);
    case Todos =>
  }

  function TotalPendentes(rows: seq<Event>): nat { |Filter(rows, IsPendente)| }

  function TotalConcluidos(rows: seq<Event>): nat { |Filter(rows, IsConcluido)| }

  /** `(status == 'Pendente') & (data_evento.dt.date < hoje)`; NaT compares false. */
  function PendingAndLate(today: Day): Event -> bool
  {
    (e: Event) => e.status == Pendente && e.date.Some? && Before(e.date.value, today)
  }

  function TotalVencidos(rows: seq<Event>, today: Day): nat
  {
    |Filter(rows, PendingAndLate(today))|
  }

  /** Pending and completed are different statuses: together they never exceed the table. */
  lemma StatusCountsBounded(rows: seq<Event>)
    ensures TotalPendentes(rows) + TotalConcluidos(rows) <= |rows|
  {
    assert Pendente != Concluido by { assert |Pendente| != |Concluido|; }
    FilterDisjointLength(rows, IsPendente, IsConcluido);
  }

  /** Every overdue row counted is a pending row. */
  lemma OverdueCountBounded(rows: seq<Event>, today: Day)
    ensures TotalVencidos(rows, today) <= TotalPendentes(rows)
  {
    FilterWeakerLength(rows, IsPendente, PendingAndLate(today));
  }

  /** The dashboard counts exactly the rows the alert lists as overdue. */
  lemma OverdueCountMatchesAlert(rows: seq<Event>, today: Day)
    ensures Filter(rows, PendingAndLate(today)) == Alerts.Vencidos(rows, today)
    ensures TotalVencidos(rows, today) == |Alerts.Vencidos(rows, today)|
  {
    FilterFilter(rows, Alerts.Alertable, Alerts.DueBefore(today), PendingAndLate(today));
  }

  /** A row whose date did not parse does not change the overdue count. */
  lemma UndatedNotCounted(a: seq<Event>, e: Event, b: seq<Event>, today: Day)
    requires e.date.None?
    ensures TotalVencidos(a + [e] + b, today) == TotalVencidos(a + b, today)
  {
    FilterConcat(a + [e], b, PendingAndLate(today));
    FilterConcat(a, [e], PendingAndLate(today));
    FilterConcat(a, b, PendingAndLate(today));
  }

  // ---------------------------------------------------------------------
  // The page as far as the form: what `carregar_eventos` returned, the
  // filtered table and the counters
  // ---------------------------------------------------------------------

  /** The DataFrame the page works on: a table with the sheet's columns, or
      `pd.DataFrame()`, which has no column at all. */
  datatype Frame = Table(rows: seq<Event>) | Columnless

  /**
   * `carregar_eventos` of app.py as written: `pd.DataFrame([])` has no
   * `data_evento` column, so an empty record list raises at line 43 just as
   * a failed read does, and both give the column-less DataFrame.
   */
  function LoadFrame(f: Alerts.Fetch): Frame
  {
    match f
    case Records(rs) => if rs == [] then Columnless else Table(rs)
    case ReadError => Columnless
  }

  /** The loader as evidently intended: a failed or empty read is the empty
      table, which keeps its columns (what the alert's loader amounts to). */
  function LoadTable(f: Alerts.Fetch): Frame
  {
    Table(Alerts.LoadEvents(f))
  }

  datatype Metrics = Metrics(pendentes: nat, concluidos: nat, vencidos: nat)

  /** How far a run of the page gets: the table and the three counters, after
      which the form is drawn, or an uncaught `KeyError` on `status`. */
  datatype Page = Rendered(view: seq<Event>, metrics: Metrics) | StatusKeyError

  function RenderPage(frame: Frame, f: StatusFilter, today: Day): Page
  {
    match frame
    case Columnless => StatusKeyError
    case Table(rows) =>
      Rendered(View(rows, f), Metrics(TotalPendentes(rows), TotalConcluidos(rows), TotalVencidos(rows, today)))
  }

  /** As written, the form is drawn exactly when the sheet gave at least one record. */
  lemma FormNeedsARecord(fetch: Alerts.Fetch, f: StatusFilter, today: Day)
    ensures RenderPage(LoadFrame(fetch), f, today).Rendered? <==> fetch.Records? && fetch.rows != []
  {
  }

  /** A sheet holding only its header row gives no record, so the page stops
      before the form and the first event can never be added. */
  lemma HeaderOnlySheetHidesForm(f: StatusFilter, today: Day)
    ensures RenderPage(LoadFrame(Alerts.Records([])), f, today) == StatusKeyError
  {
  }

  /** With the intended loader the form is always drawn: an empty or failed
      read shows no row and zero counters, and any other read is unchanged. */
  lemma FormAlwaysReached(fetch: Alerts.Fetch, f: StatusFilter, today: Day)
    ensures RenderPage(LoadTable(fetch), f, today).Rendered?
    ensures Alerts.LoadEvents(fetch) == [] ==>
              RenderPage(LoadTable(fetch), f, today) == Rendered([], Metrics(0, 0, 0))
    ensures fetch.Records? && fetch.rows != [] ==>
              RenderPage(LoadTable(fetch), f, today) == RenderPage(LoadFrame(fetch), f, today)
  {
  }

  // ---------------------------------------------------------------------
  // Appending an event (`adicionar_evento`)
  // ---------------------------------------------------------------------

  const IdKey: string := "id_evento"

  /** `dict.get(key, '')`. */
  function Lookup(data: map<string, string>, key: string): string
  {
    if key in data then data[key] else ""
  }

  /** `[h.lower() for h in row]`. */
  function LowerAll(headers: seq<string>): (r: seq<string>)
    ensures |r| == |headers|
    ensures forall i :: 0 <= i < |headers| ==> r[i] == Lower(headers[i])
  {
    if headers == [] then [] else [Lower(headers[0])] + LowerAll(headers[1..])
  }

  /** `[dados_evento.get(h, '') for h in cabecalhos]`: one value per header, in header order. */
  function RowFor(headers: seq<string>, data: map<string, string>): (r: seq<string>)
    ensures |r| == |headers|
    ensures forall i :: 0 <= i < |headers| ==> r[i] == Lookup(data, headers[i])
  {
    if headers == [] then [] else [Lookup(data, headers[0])] + RowFor(headers[1..], data)
  }

  /** gspread's `get_all_records` for one row: `dict(zip(header, row))`, later keys winning. */
  function RecordOf(keys: seq<string>, vals: seq<string>): map<string, string>
    requires |keys| == |vals|
  {
    if keys == [] then map[]
    else RecordOf(keys[..|keys| - 1], vals[..|vals| - 1])[keys[|keys| - 1] := vals[|vals| - 1]]
  }

  predicate Distinct(keys: seq<string>)
  {
    forall i, j :: 0 <= i < j < |keys| ==> keys[i] != keys[j]
  }

  lemma {:induction false} RecordOfAt(keys: seq<string>, vals: seq<string>, i: nat)
    requires |keys| == |vals| && Distinct(keys) && i < |keys|
    ensures keys[i] in RecordOf(keys, vals) && RecordOf(keys, vals)[keys[i]] == vals[i]
  {
    var n := |keys|;
    if i < n - 1 {
      assert keys[i] != keys[n - 1];
      RecordOfAt(keys[..n - 1], vals[..n - 1], i);
    }
  }

  /** A dict handed to `adicionar_evento` by reference; it gains its id in place. */
  class Record {
    var fields: map<string, string>

    constructor (fields: map<string, string>)
      ensures this.fields == fields
    {
      this.fields := fields;
    }
  }

  /** The AGENDA worksheet: `get_all_values()`, header row first. */
  class Sheet {
    var values: seq<seq<string>>

    constructor (values: seq<seq<string>>)
      ensures this.values == values
    {
      this.values := values;
    }

    /** `row_values(1)`: the header row, empty on a blank sheet. */
    function HeaderRow(): seq<string>
      reads this
    {
      if values == [] then [] else values[0]
    }

    /**
     * `adicionar_evento`: the id is the number of rows already in the
     * sheet (header included), written into the caller's dict; one row is
     * appended at the end, laid out in lower-cased header order.
     */
    method AddEvent(rec: Record)
      modifies this, rec
      ensures rec.fields == old(rec.fields)[IdKey := NatToString(|old(values)|)]
      ensures values == old(values) + [RowFor(LowerAll(old(HeaderRow())), rec.fields)]
    {
      var nextRow := |values| + 1;
      rec.fields := rec.fields[IdKey := NatToString(nextRow - 1)];
      var headers := LowerAll(HeaderRow());
      var row := RowFor(headers, rec.fields);
      values := values + [row];
    }

    /** The submit branch of the "Adicionar Novo Evento" form. */
    method SubmitNewEvent(form: NewEventForm) returns (fb: Feedback)
      modifies this
      ensures form.title == "" ==> fb == Error(TitleRequired) && values == old(values)
      ensures form.title != "" ==>
                fb == Success("Evento '" + form.title + "' adicionado com sucesso!")
                && values == old(values) + [SavedRow(old(HeaderRow()), form, |old(values)|)]
    {
      if form.title != "" {
        var rec := new Record(NewEventFields(form));
        AddEvent(rec);
        fb := Success("Evento '" + form.title + "' adicionado com sucesso!");
      } else {
        fb := Error(TitleRequired);
      }
    }
  }

  // ---------------------------------------------------------------------
  // The new-event form
  // ---------------------------------------------------------------------

  datatype Priority = Low | Medium | High

  function PriorityText(p: Priority): string
  {
    match p
    case Low => "Baixa"
    case Medium => "Média"
    case High => Alta
  }

  datatype FormStatus = Pending | Done

  function FormStatusText(s: FormStatus): string
  {
    match s
    case Pending => Pendente
    case Done => Concluido
  }

  /** What the widgets of the form hold when it is submitted. */
  datatype NewEventForm = NewEventForm(
    title: string,
    description: string,
    place: string,
    date: Day,
    time: Clock,
    priority: Priority,
    status: FormStatus)

  datatype Feedback = Success(text: string) | Error(text: string)

  const TitleRequired: string := "O Título do Evento é obrigatório."

  /** `novo_evento`: the dict built from the form, id still blank. */
  function NewEventFields(form: NewEventForm): map<string, string>
  {
    map[
      IdKey := "",
      "titulo" := form.title,
      "descricao" := form.description,
      "data_evento" := FormatIso(form.date),
      "hora_evento" := FormatHM(form.time),
      "local" := form.place,
      "prioridade" := PriorityText(form.priority),
      "status" := FormStatusText(form.status)]
  }

  /** The row a successful submission appends to a sheet that had `n` rows. */
  function SavedRow(header: seq<string>, form: NewEventForm, n: nat): seq<string>
  {
    RowFor(LowerAll(header), NewEventFields(form)[IdKey := NatToString(n)])
  }

  /** Under a header spelled 'data_evento' in any case, the saved date is ISO text that reads back as the form's date. */
  lemma SavedDateIsIso(header: seq<string>, form: NewEventForm, n: nat, i: nat)
    requires i < |header| && Lower(header[i]) == "data_evento"
    ensures SavedRow(header, form, n)[i] == FormatIso(form.date)
    ensures ParseIso(SavedRow(header, form, n)[i]) == Some(form.date)
  {
    ParseFormatIso(form.date);
  }

  /** Under a header spelled 'hora_evento', the saved time is HH:MM of the form's time. */
  lemma SavedTimeIsHourMinute(header: seq<string>, form: NewEventForm, n: nat, i: nat)
    requires i < |header| && Lower(header[i]) == "hora_evento"
    ensures var s := SavedRow(header, form, n)[i];
            s == FormatHM(form.time) && |s| == 5 && s[2] == ':'
            && AllDigits(s[..2]) && AllDigits(s[3..])
            && DigitsValue(s[..2]) == form.time.hour && DigitsValue(s[3..]) == form.time.minute
  {
    FormatHMReadsBack(form.time);
  }

  /** Under a header spelled 'id_evento', the saved id is the decimal row count. */
  lemma SavedIdIsRowCount(header: seq<string>, form: NewEventForm, n: nat, i: nat)
    requires i < |header| && Lower(header[i]) == IdKey
    ensures var s := SavedRow(header, form, n)[i];
            s == NatToString(n) && AllDigits(s) && DigitsValue(s) == n
  {
  }

  /** Columns whose header names no form field are saved blank. */
  lemma UnknownColumnsBlank(header: seq<string>, form: NewEventForm, n: nat, i: nat)
    requires i < |header|
    requires Lower(header[i]) !in {IdKey, "titulo", "descricao", "data_evento", "hora_evento", "local", "prioridade", "status"}
    ensures SavedRow(header, form, n)[i] == ""
  {
  }

  /** Reading the appended row back through its header gives each column the form's value. */
  lemma SavedRowReadsBack(header: seq<string>, form: NewEventForm, n: nat, i: nat)
    requires Distinct(header) && i < |header|
    ensures var fields := NewEventFields(form)[IdKey := NatToString(n)];
            var rec := RecordOf(header, SavedRow(header, form, n));
            header[i] in rec && rec[header[i]] == Lookup(fields, Lower(header[i]))
  {
    RecordOfAt(header, SavedRow(header, form, n), i);
  }

  /** While every data row k carries id str(k), the next id is new. */
  lemma NextIdIsFresh(ids: seq<string>)
    requires forall k :: 0 <= k < |ids| ==> ids[k] == NatToString(k + 1)
    ensures NatToString(|ids| + 1) !in ids
  {
  }
}
