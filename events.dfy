/**
 * One row of the AGENDA sheet as both scripts load it: the sheet's
 * columns id_evento, titulo, descricao, data_evento, hora_evento, local,
 * prioridade and status. `data_evento` went through
 * `pd.to_datetime(..., errors='coerce')`: None stands for NaT.
 */
module Events {
  import opened Wrappers
  import opened Dates

  datatype Event = Event(
    id: string,
    title: string,
    description: string,
    date: Option<Day>,
    time: string,
    place: string,
    priority: string,
    status: string)

  /** Status and priority values the scripts compare against, exactly. */
  const Pendente: string := "Pendente"
  const Concluido: string := "Concluído"
  const Alta: string := "Alta"

  predicate IsPendente(e: Event) { e.status == Pendente }

  predicate IsConcluido(e: Event) { e.status == Concluido }
}
