# AGENDA — the governance digest and the dashboard's data rules

AGENDA keeps a team's events (title, description, date, time, place,
priority, status) in a worksheet named `AGENDA`. Two programs use it:

- `alerta_eventos.py`, run by an external scheduler, reads the sheet and sends one
  Telegram message (`main_alerta`). Pending rows with a date are sorted
  into three sections: overdue rows (at most five, then "... e mais N
  itens vencidos."), high-priority rows dated today or later (at most
  three, then "... e mais N itens de Alta Prioridade.") and rows due
  tomorrow (all of them). The non-empty sections are joined under the
  report header with `"\n---\n"`. An empty table sends "OLÁ! NÃO HÁ
  EVENTOS REGISTRADOS!", a table with nothing urgent "OLÁ! NÃO HÁ EVENTOS
  URGENTES!".
- `app.py`, a Streamlit dashboard, shows the table filtered by status,
  three counters (pending, completed, pending and overdue) and a form that
  appends a new event as one row, laid out in the sheet's lower-cased
  header order, with the row count as its id.

The Dafny project models both cores:

| file | module | what it holds |
|---|---|---|
| `wrappers.dfy` | `Wrappers` | `Option` |
| `seqs.dfy` | `Seqs` | order-preserving `Filter` (pandas boolean masks), `Concat` (`+=` over lines), `Join` (`str.join`) and their laws |
| `text.dfy` | `Text` | decimal digits, `str(n)`, zero padding, `str.lower` |
| `dates.dfy` | `Dates` | calendar days, `+ timedelta(days=1)`, `strftime` layouts `%d/%m/%Y`, `%Y-%m-%d`, `%H:%M`, and reading ISO dates back |
| `events.dfy` | `Events` | the row record and the status/priority literals |
| `alerts.dfy` | `Alerts` | `carregar_eventos` and `main_alerta`: buckets, section rendering, the final message |
| `dashboard.dfy` | `Dashboard` | the status filter, the counters, `adicionar_evento` and the form's submit branch |

`main_alerta` and the section loops are methods (`Alerts.MainAlerta`,
`Alerts.BuildSections`, `Alerts.BuildSection`) proved against the
functions `Alerts.Message`, `Alerts.SectionList` and `Alerts.SectionText`;
the properties of the message are lemmas about those functions. The sheet
written by `adicionar_evento` is a class (`Dashboard.Sheet`, its rows a
`seq` field that the methods reassign) and the event dict, which
`adicionar_evento` changes in place by giving it an id, is a class
(`Dashboard.Record`).

Inputs the programs take from the outside world are parameters: the
outcome of connecting to the sheet (`Option<Fetch>`: no sheet, the
records, or a read error), the current date (`today`), and the values of
the form's widgets (`NewEventForm`). A parsed `data_evento` is an
`Option<Day>`, where `None` stands for pandas' NaT (a cell that did not
parse as a date).

The alert has three fixed sections in sheet order, and
`carregar_eventos` turns a failed read into an empty table, so a read
error is answered like an empty sheet, with "OLÁ! NÃO HÁ EVENTOS
REGISTRADOS!" (`Alerts.MainAlerta`, third `ensures`).

## Model

| member | source | states |
|---|---|---|
| Alerts.LoadEvents | alerta_eventos.py:35-46 | `carregar_eventos`: a failed read is the empty table; its consequence is stated by Alerts.MainAlerta (a read error sends 'OLÁ! NÃO HÁ EVENTOS REGISTRADOS!') |
| Alerts.OverdueExactly | alerta_eventos.py:89-97 | the chained masks `df_pendentes` then `< hoje` select exactly the rows that are 'Pendente', dated and before today, in sheet order (equal to a one-pass filter) |
| Alerts.HighExactly | alerta_eventos.py:100-126 | `df_alta_pendente` restricted to `>= hoje` selects exactly the pending 'Alta' rows dated today or later, in sheet order |
| Alerts.TomorrowExactly | alerta_eventos.py:105-108 | `df_amanha` selects exactly the pending rows dated today + 1, in sheet order |
| Alerts.SectionMembership | alerta_eventos.py:89-108 | a row is in each bucket if and only if it is in the table and meets that bucket's condition; every listed row is pending and dated |
| Alerts.UndatedNeverListed | alerta_eventos.py:89-92 | a row whose date is NaT is in no bucket, whatever its status and priority |
| Alerts.OverdueDisjoint | alerta_eventos.py:122-126 | an overdue row is neither in the high-priority bucket nor in tomorrow's |
| Alerts.AltaTomorrowInBoth | alerta_eventos.py:100-108 | a pending 'Alta' row dated tomorrow is listed both under high priority and under tomorrow |
| Alerts.SectionsFollowSheetOrder | alerta_eventos.py:89-108 | each bucket of a table split in two is the bucket of the first part followed by that of the second |
| Alerts.ItemLinesAt | alerta_eventos.py:116-117 | item line j of a section renders row j of its bucket |
| Alerts.OverdueSectionCaps | alerta_eventos.py:114-120 | the overdue section has min(n, 5) item lines for the first rows in order, plus the line "... e mais n-5 itens vencidos." exactly when n > 5 |
| Alerts.HighSectionCaps | alerta_eventos.py:128-134 | the high-priority section has min(n, 3) item lines for the first rows, plus "... e mais n-3 itens de Alta Prioridade." exactly when n > 3 |
| Alerts.TomorrowSectionUncapped | alerta_eventos.py:138-142 | the tomorrow section lists every row and has no remainder line |
| Alerts.SectionTextCapped | alerta_eventos.py:118-119 | a capped section is its heading, the listed rows' lines, then the remainder line |
| Alerts.SectionTextUncapped | alerta_eventos.py:114-117 | a section with no hidden row is its heading followed by the rows' lines |
| Alerts.BuildSection | alerta_eventos.py:114-142 | the `+=` loop over the first rows and the optional remainder line produce exactly the section text |
| Alerts.BuildSections | alerta_eventos.py:111-142 | `mensagens` holds the text of each non-empty bucket, overdue then high priority then tomorrow |
| Alerts.AssembleCanned | alerta_eventos.py:145-152 | the "nothing urgent" text is sent if and only if `mensagens` is empty; otherwise the message starts with the report header |
| Alerts.SectionsEmptyIff | alerta_eventos.py:111-145 | `mensagens` is empty if and only if no row of the table is overdue, high priority and not due, or due tomorrow |
| Alerts.NothingUrgentIff | alerta_eventos.py:145-152 | for a non-empty table, "OLÁ! NÃO HÁ EVENTOS URGENTES!" is sent if and only if no row is urgent |
| Alerts.OverdueComesFirst | alerta_eventos.py:145-146 | with an overdue row, the message begins with the header followed by the overdue section |
| Alerts.HighInTheMiddle | alerta_eventos.py:145-146 | with a high-priority row, the message is the header, the overdue section and separator if any, the high-priority section, then the separator and tomorrow's section if any |
| Alerts.TomorrowComesLast | alerta_eventos.py:145-146 | with a row due tomorrow, the message ends with tomorrow's section |
| Alerts.MainAlerta | alerta_eventos.py:66-152 | no sheet sends nothing; otherwise exactly one message, equal to the report function of the loaded table; a read error sends "OLÁ! NÃO HÁ EVENTOS REGISTRADOS!" |
| Dashboard.ViewContents | app.py:91-96 | the "Pendentes" and "Concluídos" views hold exactly the rows of that status; "Todos" is the whole table |
| Dashboard.ViewKeepsOrder | app.py:91-96 | each view of a table split in two is the view of the first part followed by that of the second |
| Dashboard.StatusCountsBounded | app.py:111-112 | pending plus completed never exceeds the number of rows |
| Dashboard.OverdueCountBounded | app.py:111-120 | the overdue counter never exceeds the pending counter |
| Dashboard.OverdueCountMatchesAlert | app.py:116-120 | the dashboard's overdue rows are exactly the alert's overdue bucket (alerta_eventos.py:89-97), so the counter equals its size |
| Dashboard.UndatedNotCounted | app.py:116-120 | inserting a row whose date is NaT anywhere leaves the overdue counter unchanged |
| Dashboard.LowerAll | app.py:63 | one header per header, each lower-cased |
| Dashboard.RowFor | app.py:65 | one value per header, in header order, the dict's value or '' when the key is missing |
| Dashboard.Sheet.AddEvent | app.py:54-68 | the dict gains `id_evento` = str(number of rows already in the sheet); exactly one row, the dict laid out by the lower-cased header, is appended and nothing else changes |
| Dashboard.Sheet.SubmitNewEvent | app.py:153-176 | an empty title leaves the sheet unchanged with "O Título do Evento é obrigatório."; otherwise the form's row is appended and the success text names the title |
| Dashboard.SavedDateIsIso | app.py:159 | the saved `data_evento` is YYYY-MM-DD text that reads back as the form's date |
| Dashboard.SavedTimeIsHourMinute | app.py:160 | the saved `hora_evento` is HH:MM whose digits are the form's hour and minute |
| Dashboard.SavedIdIsRowCount | app.py:57-60 | the saved `id_evento` is the decimal form of the sheet's row count |
| Dashboard.UnknownColumnsBlank | app.py:65 | a column whose header names no form field is saved as '' |
| Dashboard.SavedRowReadsBack | app.py:62-68 | reading the appended row back under distinct headers gives each column the dict's value for its lower-cased header |
| Dashboard.NextIdIsFresh | app.py:57-60 | while each data row k carries id str(k), the next id differs from every existing one |
| Dates.NextDay | alerta_eventos.py:86 | tomorrow is later than today and is a valid date except after 9999-12-31 |
| Dates.NextDayIsSuccessor | alerta_eventos.py:86 | no day lies strictly between a day and the next one |
| Dates.FormatDMYReadsBack | alerta_eventos.py:117 | `%d/%m/%Y` is ten characters whose digit groups are the day, the month and the year |
| Dates.ParseFormatIso | app.py:159 | a date saved as `%Y-%m-%d` is read back as the same day |
| Dates.FormatParseIso | app.py:159 | a text the strict ISO reader accepts is exactly that day's `%Y-%m-%d` form, so the text saved at app.py:159 is the only spelling of its day that reader takes |
| Dates.FormatHMReadsBack | app.py:160 | `%H:%M` is five characters whose digit groups are the hour and the minute |
| Text.PadDigits | alerta_eventos.py:117 | zero padding gives exactly w digits whose value is n |
| Text.NatToString | alerta_eventos.py:119 | `str(n)` is digits only, denotes n, and has no leading zero unless n is 0 |
| Text.Lower | app.py:63 | lower-casing keeps the length |
| Text.LowerAt | app.py:63 | lower-casing works character by character |
| Text.LowerIdempotent | app.py:63 | lower-casing twice equals lower-casing once |
| Seqs.Filter | alerta_eventos.py:89-92 | a boolean mask keeps exactly the elements that satisfy it, and no more than the input |
| Seqs.FilterFilter | alerta_eventos.py:95-108 | applying two masks in turn equals one mask of their conjunction |
| Seqs.FilterConcat | alerta_eventos.py:89-92 | masking a concatenation masks each part, in order |
| Seqs.JoinAround | alerta_eventos.py:146 | the layout of a join of at most three parts under a header |
| Seqs.JoinEndsWithLast | alerta_eventos.py:146 | a join ends with its last part |
| Seqs.JoinStartsWithFirst | alerta_eventos.py:146 | a join starts with its first part |
| Alerts.Pendentes | alerta_eventos.py:89-92 | `df_pendentes`: rows whose status is 'Pendente' and whose date parsed; its meaning is stated by Alerts.SectionMembership |
| Alerts.Vencidos | alerta_eventos.py:94-97 | `df_vencidos`: `df_pendentes` masked by `< hoje`; proved equal to a one-pass filter by Alerts.OverdueExactly |
| Alerts.AltaNaoVencida | alerta_eventos.py:99-126 | `df_alta_nao_vencida`: `df_pendentes` masked by 'Alta', then by `>= hoje`; see Alerts.HighExactly |
| Alerts.Amanha | alerta_eventos.py:105-108 | `df_amanha`: `df_pendentes` masked by `== hoje + 1`; see Alerts.TomorrowExactly |
| Alerts.Heading | alerta_eventos.py:115-139 | the three section headings, byte for byte (lines 115, 129, 139) |
| Alerts.ItemLine | alerta_eventos.py:116-141 | the three item f-strings (lines 117, 131, 141), dates as `%d/%m/%Y` |
| Alerts.MoreLine | alerta_eventos.py:118-133 | the two remainder lines (lines 119 and 133) with the hidden count as `str(n)` |
| Alerts.ItemLines | alerta_eventos.py:116-141 | one item line per row in bucket order; Alerts.ItemLinesAt states line j |
| Alerts.SectionLines | alerta_eventos.py:114-142 | the listed rows' lines, then the remainder line when rows were left out; its shape is stated by Alerts.OverdueSectionCaps, Alerts.HighSectionCaps and Alerts.TomorrowSectionUncapped |
| Alerts.SectionText | alerta_eventos.py:114-142 | heading then lines, the value each `msg_*` variable ends with; Alerts.BuildSection is proved to compute it |
| Alerts.SectionList | alerta_eventos.py:111-142 | `mensagens` for three buckets; Alerts.BuildSections is proved to compute it |
| Alerts.Sections | alerta_eventos.py:85-142 | `mensagens` for a table on a given day; its emptiness is characterised by Alerts.SectionsEmptyIff |
| Alerts.Assemble | alerta_eventos.py:145-152 | the final branch: the report header and the `"\n---\n"` join, or the "nothing urgent" text; see Alerts.AssembleCanned |
| Alerts.Message | alerta_eventos.py:77-152 | the one message of a run with a sheet: the "no events" text for an empty table, otherwise the assembled report; Alerts.MainAlerta is proved to send it |
| Dashboard.View | app.py:91-96 | `df_exibicao` for each radio option; stated by Dashboard.ViewContents and Dashboard.ViewKeepsOrder |
| Dashboard.TotalPendentes | app.py:111 | `len` of the 'Pendente' rows; bounded by Dashboard.StatusCountsBounded |
| Dashboard.TotalConcluidos | app.py:112 | `len` of the 'Concluído' rows; bounded by Dashboard.StatusCountsBounded |
| Dashboard.PendingAndLate | app.py:116-119 | the overdue mask of the dashboard, NaT comparing false |
| Dashboard.TotalVencidos | app.py:116-120 | `len` of the pending rows dated before today; see Dashboard.OverdueCountMatchesAlert |
| Dashboard.Lookup | app.py:65 | `dados_evento.get(h, '')` |
| Dashboard.NewEventFields | app.py:155-164 | the dict `novo_evento`: blank id, the form's texts, the date as `%Y-%m-%d`, the time as `%H:%M`, the chosen priority and status texts; its saved columns are stated by Dashboard.SavedDateIsIso, Dashboard.SavedTimeIsHourMinute and Dashboard.UnknownColumnsBlank |
| Dashboard.PriorityText | app.py:144-145 | the priority options 'Baixa', 'Média', 'Alta' |
| Dashboard.FormStatusText | app.py:148-149 | the status options 'Pendente', 'Concluído' |
| Dashboard.SavedRow | app.py:57-68 | the row `adicionar_evento` appends for a form, with the row count as id |
| Dates.FormatDMY | alerta_eventos.py:117 | `strftime('%d/%m/%Y')`; see Dates.FormatDMYReadsBack |
| Dates.FormatIso | app.py:159 | `strftime('%Y-%m-%d')`; see Dates.ParseFormatIso |
| Dates.FormatHM | app.py:160 | `strftime('%H:%M')`; see Dates.FormatHMReadsBack |
| Dates.ParseIso | app.py:43 | a strict reader of YYYY-MM-DD text, NaT for other text or impossible dates; pandas' reader accepts more layouts (see "## Left out") |
| Seqs.Join | alerta_eventos.py:146 | `sep.join(parts)`; stated by Seqs.JoinAround, Seqs.JoinStartsWithFirst and Seqs.JoinEndsWithLast |
| Alerts.Shown | alerta_eventos.py:116-140 | how many rows a section lists: `head(5)` (line 116), `head(3)` (line 130) or all (line 140), never more than the bucket holds; the caps lemmas state the resulting lines |
| Alerts.Alertable | alerta_eventos.py:89-92 | the `df_pendentes` mask: status exactly 'Pendente' and a date that is not NaT |
| Alerts.IsAlta | alerta_eventos.py:100-101 | the `df_alta_pendente` mask: priority exactly 'Alta' |
| Alerts.DueBefore | alerta_eventos.py:95-96 | the `< hoje` mask, NaT comparing false |
| Alerts.DueFrom | alerta_eventos.py:124-125 | the `>= hoje` mask, NaT comparing false |
| Alerts.DueOn | alerta_eventos.py:106-107 | the `== amanha` mask, NaT comparing false |
| Events.IsPendente | app.py:92 | the dashboard's `status == 'Pendente'` mask (also lines 111 and 117) |
| Events.IsConcluido | app.py:94 | the dashboard's `status == 'Concluído'` mask (also line 112) |
| Dashboard.Sheet.HeaderRow | app.py:63 | `sheet.row_values(1)`: the first row, empty on a blank sheet; Dashboard.Sheet.AddEvent lays its row out by it |
| Dashboard.LoadFrame | app.py:36-52 | the loader as written: an empty record list or a failed read gives the column-less DataFrame |
| Dashboard.RenderPage | app.py:78-120 | the filtered table and the three counters, or the `KeyError` on `status` when the DataFrame has no columns |
| Dashboard.FormNeedsARecord | app.py:36-131 | as written, the form is reached if and only if the sheet gave at least one record |
| Dashboard.HeaderOnlySheetHidesForm | app.py:39-52 | a sheet with only its header row stops the page before the form |
| Dashboard.LoadTable | app.py:36-52 | the intended loader: an empty or failed read is the empty table with its columns |
| Dashboard.FormAlwaysReached | app.py:78-131 | with the intended loader the form is always reached; an empty or failed read shows no row and zero counters, any other read is unchanged |

## Left out

- Connecting to Google Sheets (`conectar_sheets`, `get_gspread_client`): credentials, service accounts and the worksheet lookup are left out; their outcome is the `Option<Fetch>` parameter of `Alerts.MainAlerta`.
- Sending to Telegram (`enviar_alerta`, `asyncio.run`, the bot token and chat id checks, Markdown rendering): left out; `Alerts.MainAlerta` returns the message it would send. A missing token or chat id makes the real program print an error and drop the message; that is not modelled.
- Logging with `print` and `st.error` / `st.success` rendering: left out; the form's outcome is the `Feedback` value.
- `get_all_records` and `pd.to_datetime(errors='coerce')`: the model receives rows already parsed; a date is a valid day or NaT, and the many text formats pandas accepts are not modelled (only the ISO form the dashboard writes has a parser, `Dates.ParseIso`). `id_evento.astype(str)` in the dashboard's loader is not modelled.
- A table without a `status` or `prioridade` column makes the alert raise `KeyError` (alerta_eventos.py:90, 101). Without `titulo` it raises only when some row is listed in a section (lines 117, 131, 141), and without `hora_evento` or `local` only when a row is due tomorrow (line 141). The dashboard raises only on a missing `status` (app.py:92, 94, 111). The model's rows always carry every field. Separately, in the dashboard an empty record list or a failed read leaves a DataFrame without columns, and the uncaught `KeyError` on `status` stops the page before the form; `Dashboard.LoadFrame` and `Dashboard.RenderPage` model this, see "## Findings".
- Dates.NextDay: when today is 9999-12-31, Python raises `OverflowError` on `hoje + timedelta(days=1)`; the model computes the non-existent day 10000-01-01, which no row matches.
- Streamlit's widgets, layout, `st.cache_data`, `st.cache_resource`, `st.rerun`, the metric deltas and the column dropped from the table display: user-interface behaviour, left out. The widget limit `max_chars=100` on the title is not modelled.
- Dashboard.Sheet.SubmitNewEvent: the exception branch "Erro ao salvar na planilha" (a failed `append_row`) is not modelled; an append always succeeds. A title of spaces only counts as present, as in the code.
- Dates.FormatParseIso: holds for the strict ISO reader `Dates.ParseIso` only; `pd.to_datetime` at app.py:43 also reads texts such as "2024-3-5", "2024/03/05" or "2024-03-05 10:00" as days, and those layouts are not modelled.
- Text.Lower: lower-cases ASCII and Latin-1 capitals only, not the whole of Unicode.
- The sections' item lines show `titulo`, `hora_evento` and `local` as the sheet holds them; the model takes them as text, so numbers that pandas would print with its own formatting are not modelled.
- Dashboard.Sheet.SubmitNewEvent: as written the form is never drawn while the sheet holds only its header row, or after a failed read (`Dashboard.HeaderOnlySheetHidesForm`), so the real dashboard cannot add the first event; the method models the submission as if the form had been reached, where it appends a row with id "1".

## Findings

| source | as written | input that shows it | evidently intended | confidence | as-written member | corrected member |
|---|---|---|---|---|---|---|
| app.py:39-92 | `pd.DataFrame([])` has no `data_evento` column, so line 43 raises; the `except` returns `pd.DataFrame()`, and `df_todos['status']` at line 92 (line 94 under "Concluídos", line 111 under "Todos") raises an uncaught `KeyError` before the form at line 131 | a sheet holding only its header row: `get_all_records()` is `[]` | an empty sheet shows an empty table, zero counters and the form, so the first event can be added | high (not executed) | Dashboard.HeaderOnlySheetHidesForm | Dashboard.FormAlwaysReached |
