# odontoSystem front end, modelled in Dafny

This project models the client-side core of odontoSystem, the web front end
of a dental clinic. The receptionist or dentist registers patients,
consultation types and the dentist's weekly shifts ("escalas"). Free agenda
slots are generated from a shift or deleted from it. Consultations are booked
on a free slot, then concluded with the amount charged, cancelled,
un-cancelled, deleted or moved to another slot. A dashboard shows the day's
consultations, counters and a chart of the revenue per consultation type.

What is modelled:

- The formatting and validation helpers: phone, birth-date and time masks,
  date conversions between DD/MM/YYYY and YYYY-MM-DD, `converteHora`,
  `converterDiaSemana`, `calcularIdade`, the e-mail and phone checks, and the
  shift-time checks (`normalizaHora`, `horaValida`, `horaParaMinutos`,
  `toLocalTime`).
- The components that keep state as classes whose methods change their fields:
  - the shift create and edit forms;
  - the agenda generate and delete forms;
  - the booking and rebooking forms;
  - the consultation cards of the agenda page and of the dashboard;
  - the pagination hook;
  - the paginated search lists;
  - the dashboard and its revenue chart.
- What the pages compute from the lists they load: filters, counters,
  statistics, the next consultations and the pagination buttons. These are
  pure functions.

Every call to the server is an entry appended to the component's effect log
(`efeitos`), next to the toasts it shows and the parent callbacks it runs.
Whether a call succeeds, and what it returns, is a parameter of the method
that makes it. The current date and time are parameters too, so the model
reads no clock.

Files:

| file | module | models |
|---|---|---|
| wrappers.dfy | Wrappers | `Option`, and `Campo`, a field that may be absent, null or set |
| text.dfy | Text | the JavaScript string operations used: `split`, `padStart`, `trim`, `toLowerCase`, `includes`, `slice`, `parseInt`, `Number` |
| filtro.dfy | Filtro | `filter` on a list |
| modelo.dfy | Modelo | the API records, the requests, toasts and callbacks of the effect log |
| calendario.dfy | Calendario | proleptic Gregorian days, as JavaScript `Date` counts them, and the `new Date(year, monthIndex, day)` constructor: how it reads its arguments and rolls an out-of-range month or day over |
| mascaras.dfy | Mascaras | `formatTimeInput`, `formataDataNascimento`, `formataTelefone`, and `formatarTelefone`, `limparTelefone`, `validarTelefone` and `validarEmail` from `formatters` |
| datas.dfy | Datas | `converteDataParaISO`, `converteDataParaBR`, the date formatters, `convertDateStringToDateTime` |
| converte_hora.dfy | ConverteHora | `converteHora` |
| converte_dia_semana.dfy | ConverteDiaSemana | `converterDiaSemana` |
| idade.dfy | Idade | `calcularIdade` |
| hora.dfy | Horas | the time helpers of `CadastroEscala` and `EscalaList` |
| formulario_escala.dfy | FormularioEscala | the `CadastroEscala` and `EscalaList` forms |
| agenda_form.dfy | FormularioAgenda | the `GerarAgenda` and `ExcluirAgenda` forms |
| disponibilidade.dfy | Disponibilidade | grouping free slots by date, and the free and unavailable days of the date picker |
| horario_select.dfy | SelecaoHorario | `HorarioSelect`: sorting the times and hiding past ones today |
| agendamento.dfy | PaginaAgendamento | the `Agendamento` booking page |
| reagendar.dfy | Reagendamento | the rebooking dialog of `ConsultaAgendadaCard` |
| consulta_card.dfy | CartaoConsulta | `ConsultaAgendadaCard`: its actions and the amount charged |
| cartao_painel.dfy | CartaoPainel | `DashboardCardConsulta` |
| paginacao.dfy | Paginacao | `usePagination` |
| listas.dfy | ListasPaginadas | `TodosTiposConsulta`, `TodosPacientes`, `TodasEscalas` |
| paginas_consultas.dfy | PaginasConsultas | `ConsultasAgendadas` and `Dashboard` |
| paginas_cadastros.dfy | PaginasCadastros | `Pacientes`, `TiposConsulta`, `Escalas` |
| estatisticas.dfy | EstatisticasPainel | `DashboardFaturamento`, `DashboardConcluidas`, `DashboardCanceladas`, `DashboardGrafico` |

## Model

| member | source | states |
|---|---|---|
| Mascaras.FormatTimeInputForma | src/components/common/HoraInput.tsx:3-10 | the time mask yields at most 5 characters; its digits are the first four digits typed; ':' stands at index 2 exactly when more than two digits were typed; every other character is a digit |
| Mascaras.FormatTimeInputIdempotente | src/components/common/HoraInput.tsx:3-10 | masking an already masked time changes nothing |
| Mascaras.FormatarDataNascimentoForma | src/services/formataDataNascimento.ts:1-7 | the birth-date mask is the first eight digits laid out as DD, DD/MM or DD/MM/YYYY, cut where typing stopped |
| Mascaras.DiaDigitos | src/services/formataDataNascimento.ts:3 | on more than two digits the first replacement puts '/' after the day |
| Mascaras.MesDigitos | src/services/formataDataNascimento.ts:4-5 | on more than four digits the second replacement puts '/' after the month |
| Mascaras.CorteDasBarras | src/services/formataDataNascimento.ts:6 | `slice(0, 10)` keeps DD/MM/ and at most four digits of the year |
| Mascaras.FormatarDataNascimentoConteudo | src/services/formataDataNascimento.ts:1-7 | at most 10 characters, only digits and '/', and its digits are the first eight digits of the input |
| Mascaras.FormatarDataNascimentoIdempotente | src/services/formataDataNascimento.ts:1-7 | masking the masked birth date again changes nothing |
| Mascaras.PrimeiroSeisDigitos | src/services/formataTelefone.ts:15 | the leftmost run of six digits at or after a position, or none: where the unanchored `(\d{5})(\d)` matches |
| Mascaras.SemSeisAntesDoNumero | src/services/formataTelefone.ts:14-15 | once the area code is wrapped, no run of six digits starts before index 5 |
| Mascaras.TelefoneCurto | src/services/formataTelefone.ts:14-15 | with three to seven digits only the area code is wrapped, "(DD) N…" |
| Mascaras.TelefoneLongo | src/services/formataTelefone.ts:14-15 | with eight or more digits the '-' goes after the fifth digit of the number |
| Mascaras.MascaraDosDigitos | src/services/formataTelefone.ts:11-17 | on a digit string the replacements and `slice(0, 15)` give the layout of its first eleven digits |
| Mascaras.FormataTelefoneForma | src/services/formataTelefone.ts:7-18 | a non-empty input is laid out as DD, "(DD) NNNNN", then '-' and the rest, on its first eleven digits |
| Mascaras.FormataTelefoneConteudo | src/services/formataTelefone.ts:7-18 | at most 15 characters, and the digits shown are the first (at most eleven) digits of the input |
| Mascaras.FormataTelefoneIdempotente | src/services/formataTelefone.ts:7-18 | masking the masked phone again changes nothing |
| Mascaras.LimparTelefone | src/utils/formatters.ts:164-166 | `limparTelefone` leaves only digits |
| Mascaras.LimparTelefoneIdempotente | src/utils/formatters.ts:164-166 | cleaning twice is cleaning once |
| Mascaras.FormatarTelefoneDigitos | src/utils/formatters.ts:10-24 | a phone that `validarTelefone` accepts keeps its digits when formatted and stays valid; any other input comes back unchanged; eleven digits become the 15 characters (DD) NNNNN-NNNN and ten the 14 characters (DD) NNNN-NNNN, each group of digits in its place |
| Mascaras.MascarasDeTelefoneConcordam | src/services/formataTelefone.ts:2 | on eleven digits the deprecated progressive mask and its replacement `formatarTelefone` give the same string |
| Mascaras.ValidarEmailCaracterizacao | src/utils/formatters.ts:173-176 | `validarEmail` holds exactly when the address has no white space, exactly one '@', something before it, and a domain with a '.' that is neither its first nor its last character |
| Mascaras.EmailValidoTemForma | src/utils/formatters.ts:173-176 | an accepted address has that form |
| Mascaras.FormaDeEmailValida | src/utils/formatters.ts:173-176 | an address of that form is accepted |
| Datas.ConverteDataParaISOAceita | src/services/converteDataParaISO.ts:6-27 | DD/MM/YYYY with day 1-31, month 1-12 and year from 1900 becomes YYYY-MM-DD with day and month padded to two digits |
| Datas.ConverteDataParaISORejeita | src/services/converteDataParaISO.ts:22-24 | numeric parts outside those bounds give null |
| Datas.ConverteDataParaISOIncompleta | src/services/converteDataParaISO.ts:11-15 | fewer than three '/'-separated parts give null |
| Datas.ConverteDataParaISOExemploFevereiro | src/services/converteDataParaISO.ts:22 | "31/02/2024" is accepted: the day is only checked against 31 |
| Datas.ConverteDataParaISOExemploDia32 | src/services/converteDataParaISO.ts:22 | "32/01/2024" gives null |
| Datas.ConverteDataParaISONaNGeral | src/services/converteDataParaISO.ts:18-22 | a day that `parseInt` reads as `NaN` passes every comparison and is copied padded |
| Datas.ConverteDataParaISOExemploNaN | src/services/converteDataParaISO.ts:18-22 | "xx/06/2024" becomes "2024-06-xx" |
| Datas.BrIsoBr | src/services/converteDataParaBR.ts:1-8 | converting a valid DD/MM/YYYY to ISO and back gives it again |
| Datas.IsoBrIso | src/services/converteDataParaBR.ts:1-8 | converting a valid YYYY-MM-DD to DD/MM/YYYY and back gives it again |
| Datas.FormatadoresDeData | src/utils/formatters.ts:98-112 | `formatarData`, `formatarDataNascimento` and `formatarDataCadastro` turn YYYY-MM-DD, with or without a time after 'T', into DD/MM/YYYY without going through `Date` |
| Datas.FormatarHoraMantem | src/utils/formatters.ts:135-141 | `formatarHora` returns an HH:MM string unchanged |
| Datas.ConvertDateStringToDateTime | src/utils/dateUtils.ts:29-43 | a string with 'T' is returned as is; a valid YYYY-MM-DD gets "T00:00:00.000Z" or, at the end of the day, "T23:59:59.999Z"; any other length is returned as is; a changed result keeps the date as its first ten characters |
| ConverteHora.ConverteHoraSemDoisPontos | src/services/converteHora.ts:11-19 | the empty string and any time without ':' come back unchanged |
| ConverteHora.ConverteHoraPartes | src/services/converteHora.ts:15-26 | hours and minutes are padded to two digits, joined by 'h' or ':', and the seconds are dropped |
| ConverteHora.ConverteHoraColonIdempotente | src/services/converteHora.ts:7-27 | converting a 'colon' result again changes nothing |
| ConverteDiaSemana.ConverterDiaSemana | src/services/converteDiaSemana.ts:1-30 | each of the seven weekday codes gets its label; any other string gets "Dia inválido"; the result is never empty |
| ConverteDiaSemana.RotulosDistintos | src/services/converteDiaSemana.ts:3-27 | the seven labels are distinct and none is "Dia inválido" |
| ConverteDiaSemana.ConverterDiaSemanaInjetivo | src/services/converteDiaSemana.ts:3-29 | "Dia inválido" comes exactly from unknown codes, and two known codes with the same label are the same code |
| Idade.CalcularIdade | src/services/calcularIdade.ts:6-31 | the age is never negative, and 0 for a missing or invalid date |
| Idade.IdadeEhUltimoAniversario | src/services/calcularIdade.ts:20-30 | a positive age is the number of the last birthday reached by today |
| Idade.IdadeZero | src/services/calcularIdade.ts:20-30 | the age is 0 exactly when the first birthday has not been reached |
| Idade.IdadeNoAniversario | src/services/calcularIdade.ts:25-28 | on the k-th birthday the age is k |
| Idade.IdadeNascimentoFuturo | src/services/calcularIdade.ts:30 | a birth date after today gives 0 |
| Idade.IdadeMonotona | src/services/calcularIdade.ts:6-31 | the age never decreases as today moves on |
| Horas.NormalizaHoraIdempotente | src/components/common/CadastroEscala.tsx:47-52 | normalising twice is normalising once |
| Horas.HoraNuaValida | src/components/common/CadastroEscala.tsx:47-58 | a bare hour of one or two digits is valid exactly when it is below 24 |
| Horas.HoraValidaCaracterizacao | src/components/common/CadastroEscala.tsx:54-58 | `horaValida` accepts exactly HH:MM from 00:00 to 23:59 and a bare hour below 24 |
| Horas.HoraValidaRejeita | src/components/common/CadastroEscala.tsx:54-58 | "25:00" and "930" are refused |
| Horas.MinutosPartes | src/components/common/CadastroEscala.tsx:56 | an HH:MM string has hour 0-23, minute 0-59, and denotes a minute below 24 * 60 |
| Horas.PartesHHMM | src/components/common/CadastroEscala.tsx:43 | `split(":").map(Number)` of HH:MM gives its hour and its minute |
| Horas.HoraParaMinutosValida | src/components/common/CadastroEscala.tsx:42-45 | on HH:MM `horaParaMinutos` is hour * 60 + minute, below 24 * 60 |
| Horas.MinutosInteiros | src/components/common/CadastroEscala.tsx:44 | `h * 60 + m` of two whole numbers read |
| Horas.HHMMValida | src/components/common/CadastroEscala.tsx:56 | every hour below 24 and minute below 60 has a valid HH:MM string, which denotes that minute of the day |
| Horas.HHMMDeMinutos | src/components/common/CadastroEscala.tsx:42-45 | an HH:MM string is rebuilt from its minute of the day |
| Horas.MinutosInjetiva | src/components/common/CadastroEscala.tsx:42-45 | two HH:MM strings with the same minute of the day are equal, so comparing minutes compares times |
| Horas.ToLocalTimeHHMM | src/components/common/CadastroEscala.tsx:37-40 | `toLocalTime` of HH:MM is HH:MM:00 |
| Horas.HoraDoFormularioArmazenada | src/components/common/EscalaList.tsx:39-48 | a stored HH:MM:SS time opens in the edit form as its HH:MM |
| Horas.HoraDoFormularioToLocalTime | src/components/common/EscalaList.tsx:39-56 | saving an HH:MM and opening it again gives the same HH:MM |
| FormularioEscala.ValidarEscalaAceita | src/components/common/CadastroEscala.tsx:62-81 | a shift is accepted exactly when every field is filled, both times are valid and the end is strictly after the start |
| FormularioEscala.ValidarEscalaFimNaoPosterior | src/components/common/CadastroEscala.tsx:76-80 | with the fields filled and valid, "A hora final deve ser maior" is reported exactly when the end is not after the start |
| FormularioEscala.ValidarEscalaMesmaHora | src/components/common/CadastroEscala.tsx:76-80 | a shift that ends when it starts is always refused |
| FormularioEscala.HoraEnviadaFormato | src/components/common/CadastroEscala.tsx:84-85 | an accepted time reaches the API as the normalised HH:MM followed by ":00" |
| FormularioEscala.HoraDigitadaValida | src/components/common/CadastroEscala.tsx:136-145 | a time typed through the mask is valid exactly when one or two digits below 24, or four digits with hour below 24 and minute below 60, were typed |
| FormularioEscala.CadastroEscala.constructor | src/components/common/CadastroEscala.tsx:30-35 | the create form starts empty |
| FormularioEscala.CadastroEscala.EscolherDia | src/components/common/CadastroEscala.tsx:116 | choosing the weekday changes only the weekday |
| FormularioEscala.CadastroEscala.DigitarHoraInicio | src/components/common/CadastroEscala.tsx:136-140 | the start field holds the masked input and nothing else changes |
| FormularioEscala.CadastroEscala.DigitarHoraFinal | src/components/common/CadastroEscala.tsx:145 | the end field holds the masked input and nothing else changes |
| FormularioEscala.CadastroEscala.DigitarDuracao | src/components/common/CadastroEscala.tsx:156 | the interval is kept as typed |
| FormularioEscala.CadastroEscala.HandleSubmit | src/components/common/CadastroEscala.tsx:60-102 | a refused shift only shows its error toast; an accepted one sends POST /escalas with the HH:MM:SS times and the user as dentist, then on success clears the form, shows the success toast and runs the callback, and on failure shows the error toast and keeps the fields |
| FormularioEscala.CadastroEscala.Enviar | src/components/common/CadastroEscala.tsx:89-100 | the POST and what follows it, for both outcomes |
| FormularioEscala.EdicaoEscala.constructor | src/components/common/EscalaList.tsx:39-51 | the edit form opens on the stored weekday and interval and the HH:MM of the stored times |
| FormularioEscala.EdicaoEscala.EscolherDia | src/components/common/EscalaList.tsx:154 | choosing the weekday changes only the weekday |
| FormularioEscala.EdicaoEscala.DigitarHoraInicio | src/components/common/EscalaList.tsx:176 | the start field holds the masked input |
| FormularioEscala.EdicaoEscala.DigitarHoraFim | src/components/common/EscalaList.tsx:180 | the end field holds the masked input |
| FormularioEscala.EdicaoEscala.DigitarIntervalo | src/components/common/EscalaList.tsx:190 | the interval holds `Number` of the input, 0 when emptied |
| FormularioEscala.EdicaoEscala.HandleSubmit | src/components/common/EscalaList.tsx:76-114 | the fields are left as they are; a refused edit shows its error toast; an accepted one sends PUT /escalas/:id, then refreshes and shows success, or shows the error toast |
| FormularioEscala.EdicaoSemAlteracao | src/components/common/EscalaList.tsx:39-104 | a stored shift opened and saved unchanged is valid and is sent with the same HH:MM:SS times |
| FormularioAgenda.ParseISODateDigitos | src/components/common/GerarAgenda.tsx:58-62 | `parseISODate` of a numeric YYYY-MM-DD passes year, month - 1 and day to the `Date` constructor |
| Calendario.TruncInteiro | src/components/common/GerarAgenda.tsx:61 | whole numbers reach the `Date` constructor unchanged, and so does the month less one |
| FormularioAgenda.ValidarDatasIntervalo | src/components/common/GerarAgenda.tsx:78-91 | with two valid dates the checks pass exactly when today <= start <= end; an end before the start is reported first, then a start in the past |
| FormularioAgenda.ValidarDatasInvalida | src/components/common/GerarAgenda.tsx:80-91 | an invalid `Date` compares false: with one invalid date only the other one can fail the past-date check, and two invalid dates pass both checks |
| FormularioAgenda.GeracaoDataInvalida | src/components/common/GerarAgenda.tsx:80-97 | dates that `converteDataParaISO` rejects become invalid `Date`s and pass every check |
| FormularioAgenda.DataDigitadaAceita | src/components/common/GerarAgenda.tsx:128 | eight digits typed in range are sent as YYYY-MM-DD of the typed DD, MM and YYYY ("01012025" gives "2025-01-01") |
| FormularioAgenda.DataIncompletaRejeitada | src/components/common/GerarAgenda.tsx:80-81 | a field holding fewer than eight typed digits is never a date `converteDataParaISO` accepts, so it reaches the date checks as an invalid `Date` |
| FormularioAgenda.ExclusaoSoChecaBase | src/components/common/ExcluirAgenda.tsx:55-68 | the delete form refuses only a missing user, a missing shift or an empty date, never a date order or a past date, and it reports the same first error as the generate form when one of these fails |
| FormularioAgenda.ClassificarExclusaoCaracterizacao | src/components/common/ExcluirAgenda.tsx:82-89 | the info toast appears exactly when both counts are 0; otherwise the success toast names the slots deleted, also when only consultations were unbooked; it is never an error toast |
| FormularioAgenda.MensagemDeFalhaCaracterizacao | src/components/common/GerarAgenda.tsx:107 | the failure toast shows the server's message when it is non-empty and "Erro ao gerar agenda" otherwise |
| FormularioAgenda.GerarAgendaForm.constructor | src/components/common/GerarAgenda.tsx:35-40 | the form starts with empty dates and no shift |
| FormularioAgenda.GerarAgendaForm.DigitarDataInicio | src/components/common/GerarAgenda.tsx:128 | the start-date field holds what was typed through the DD/MM/YYYY mask; nothing else changes |
| FormularioAgenda.GerarAgendaForm.DigitarDataFinal | src/components/common/GerarAgenda.tsx:139 | the end-date field holds what was typed through the DD/MM/YYYY mask; nothing else changes |
| FormularioAgenda.GerarAgendaForm.EscolherEscala | src/components/common/GerarAgenda.tsx:148-151 | the shift picked, or none, is stored; nothing else changes |
| FormularioAgenda.GerarAgendaForm.HandleSubmit | src/components/common/GerarAgenda.tsx:64-109 | a refused submission only shows its toast; an accepted one sends POST /agenda/gerar with the user, the shift and the ISO dates, then on success clears the form, shows the success toast and runs the callback, and on failure shows the server's message and keeps the fields |
| FormularioAgenda.GerarAgendaForm.Enviar | src/components/common/GerarAgenda.tsx:98-108 | the POST and what follows it, for both outcomes |
| FormularioAgenda.ExcluirAgendaForm.constructor | src/components/common/ExcluirAgenda.tsx:33-38 | the form starts with empty dates and no shift |
| FormularioAgenda.ExcluirAgendaForm.DigitarDataInicio | src/components/common/ExcluirAgenda.tsx:115-117 | the start-date field holds what was typed through the DD/MM/YYYY mask; nothing else changes |
| FormularioAgenda.ExcluirAgendaForm.DigitarDataFinal | src/components/common/ExcluirAgenda.tsx:129-131 | the end-date field holds what was typed through the DD/MM/YYYY mask; nothing else changes |
| FormularioAgenda.ExcluirAgendaForm.EscolherEscala | src/components/common/ExcluirAgenda.tsx:141-145 | the shift picked, or none, is stored; nothing else changes |
| FormularioAgenda.ExcluirAgendaForm.HandleSubmit | src/components/common/ExcluirAgenda.tsx:55-96 | a refused submission only shows its toast; an accepted one sends DELETE /agenda/excluir, then clears the form, shows the toast its counts call for and runs the callback, or on failure shows the server's message and keeps the fields |
| FormularioAgenda.ExcluirAgendaForm.Enviar | src/components/common/ExcluirAgenda.tsx:75-95 | the DELETE and what follows its answer |
| Disponibilidade.AgruparCorreto | src/pages/Agendamento.tsx:45-53 | the grouped record has a key for exactly the dates of the slots, each key once, and under each date the HH:MM of that date's slots in the order received |
| Disponibilidade.AgruparPorData | src/pages/Agendamento.tsx:45-53 | the keys are the dates of the slots, and each date holds the times of its own slots, in order |
| Disponibilidade.DatasDosSlotsCaracterizacao | src/pages/Agendamento.tsx:45-53 | the key order lists every date of a slot, each once |
| Disponibilidade.AgruparTotal | src/pages/Agendamento.tsx:45-53 | the grouped times add up to one per slot: no slot is lost or counted twice |
| Disponibilidade.PrimeiraData | src/pages/Agendamento.tsx:61-69 | the first key, whose month the date picker shows, is the date of the first slot |
| Disponibilidade.AgruparHorarios | src/pages/Agendamento.tsx:45-53 | the `reduce` loop builds exactly the grouped record |
| Disponibilidade.DiasDisponiveis | src/pages/Agendamento.tsx:61-64 | one date per key, each the day `new Date(year, month - 1, day)` makes of the `Number`s of its parts |
| Disponibilidade.DataDaChaveDigitos | src/pages/Agendamento.tsx:61-64 | a key of digits YYYY-MM-DD with a year from 100 becomes the day `new Date` makes of year, month - 1 and day, with the day number the agenda forms compute for the same arguments, and is the named day itself whenever that is a calendar day |
| Disponibilidade.ChaveRolada | src/pages/Agendamento.tsx:61-64 | a key naming no calendar day rolls over: "2024-02-30" is 1 March 2024 |
| Calendario.RolarDiaNumero | src/pages/Agendamento.tsx:63 | a day out of its month's range rolls into the next or previous months, to the day exactly `dia - 1` days after the first of the month |
| Calendario.DataDeJsNumero | src/pages/Agendamento.tsx:63 | the calendar day `new Date(y, m, d)` reports through its getters has the day number of the same call, month index and day rolling over alike |
| Calendario.MesSeguinte | src/pages/Agendamento.tsx:70 | the first of the next month lies as many days after the first of this month as `new Date(ano, mes + 1, 0).getDate()` reports for it, leap years included |
| Disponibilidade.DiasLivresCaracterizacao | src/pages/Agendamento.tsx:72-85 | the days kept are exactly the days 1..n of the month that are not available, in increasing order |
| Disponibilidade.IndisponiveisCaracterizacao | src/pages/Agendamento.tsx:67-87 | no available days give none; otherwise the unavailable days are exactly the days of the first available date's month that are not available, in increasing order, their year read as `new Date(ano, mes, d)` reads it |
| Disponibilidade.IndisponiveisParticao | src/pages/Agendamento.tsx:67-87 | each day of that month is either available or unavailable, never both |
| Disponibilidade.DiasIndisponiveis | src/pages/Agendamento.tsx:67-87 | the loop over the days of the month pushes exactly those days |
| Disponibilidade.Encontrar | src/pages/Agendamento.tsx:136-140 | `find` gives the first slot with the date and time chosen, and nothing exactly when no slot has them |
| Disponibilidade.OfertadoEncontrado | src/pages/Agendamento.tsx:136-145 | a time offered for a date always finds its slot, so "Horário não encontrado!" cannot follow a choice from the list |
| Disponibilidade.HorarioDoDiaVemDeSlot | src/pages/Agendamento.tsx:45-53 | every time listed for a date comes from a slot of that date |
| SelecaoHorario.LexTotal | src/components/common/HorarioSelect.tsx:14 | the comparison of the sort orders any two times |
| SelecaoHorario.LexTransitiva | src/components/common/HorarioSelect.tsx:14 | the comparison is transitive |
| SelecaoHorario.LexAntissimetrica | src/components/common/HorarioSelect.tsx:14 | two times that compare both ways are equal |
| SelecaoHorario.Inserir | src/components/common/HorarioSelect.tsx:14 | inserting a time adds exactly that time to the list |
| SelecaoHorario.InserirOrdenada | src/components/common/HorarioSelect.tsx:14 | inserting into a sorted list keeps it sorted |
| SelecaoHorario.Ordenar | src/components/common/HorarioSelect.tsx:14 | the sorted list is ordered and a permutation of the times given |
| SelecaoHorario.OrdenarMesmosElementos | src/components/common/HorarioSelect.tsx:14 | the sort keeps exactly the times given |
| SelecaoHorario.Filtrar | src/components/common/HorarioSelect.tsx:26-29 | the filter keeps exactly the times not yet past, and no more of each than there were |
| SelecaoHorario.FiltrarOrdenada | src/components/common/HorarioSelect.tsx:26-29 | filtering a sorted list keeps it sorted |
| SelecaoHorario.AindaNaoPassouMinutos | src/components/common/HorarioSelect.tsx:27-28 | an HH:MM time is kept exactly when its minute of the day is at or after the current one |
| SelecaoHorario.AindaNaoPassouPartes | src/components/common/HorarioSelect.tsx:27-28 | the test on the hour and minute read from the time |
| SelecaoHorario.ComparaMinutos | src/components/common/HorarioSelect.tsx:28 | comparing hour, then minute, is comparing minutes of the day |
| SelecaoHorario.LexCinco | src/components/common/HorarioSelect.tsx:14 | on five characters with the same separator the string order compares the digits in turn |
| SelecaoHorario.MinutosDigitos | src/components/common/HorarioSelect.tsx:27 | the minute of the day of HH:MM from its four digits |
| SelecaoHorario.LexMinutos | src/components/common/HorarioSelect.tsx:14 | on HH:MM strings the string order of the sort is the order of the minutes of the day |
| SelecaoHorario.OrdenadaPorMinuto | src/components/common/HorarioSelect.tsx:14 | a sorted list of HH:MM times is in increasing time order |
| SelecaoHorario.FiltrarMinutos | src/components/common/HorarioSelect.tsx:26-29 | on HH:MM times the filter keeps exactly those at or after the current minute |
| SelecaoHorario.HorarioSelectVazio | src/components/common/HorarioSelect.tsx:12 | no times, or an empty list, render nothing |
| SelecaoHorario.HorarioSelectOutroDia | src/components/common/HorarioSelect.tsx:14-17 | on any day but today all the times are offered, sorted |
| SelecaoHorario.HorarioSelectHoje | src/components/common/HorarioSelect.tsx:17-38 | today the times offered are in increasing order and exactly those not yet past; "no time left" appears exactly when every time has passed |
| SelecaoHorario.HorarioSelectDoDia | src/components/common/HorarioSelect.tsx:16-38 | today the component shows the filtered sorted times, or the "no time left" message when none remain |
| SelecaoHorario.FiltradosDeHoje | src/components/common/HorarioSelect.tsx:14-29 | the sorted and filtered times are in increasing order and exactly the ones not yet past |
| PaginaAgendamento.Agendamento.constructor | src/pages/Agendamento.tsx:26-38 | the booking form starts with nothing chosen, no slots and nothing sent |
| PaginaAgendamento.Agendamento.CarregarHorarios | src/pages/Agendamento.tsx:41-58 | GET /agenda/disponiveis replaces the raw slots on success, or shows its error toast and keeps them; the choices are untouched |
| PaginaAgendamento.Agendamento.Selecionar | src/pages/Agendamento.tsx:29-35 | the patient, type, date, time and notes hold what was chosen, and nothing else changes |
| PaginaAgendamento.Agendamento.LimparFormulario | src/pages/Agendamento.tsx:157-162 | the reset empties every choice and keeps the slots |
| PaginaAgendamento.Agendamento.HandleSubmit | src/pages/Agendamento.tsx:124-169 | a missing choice only shows its toast; otherwise the slot with the chosen date and time is looked up: none found shows "Horário não encontrado!", one found is sent in POST /consultas, then on success the form is reset and the slots replaced by the reloaded ones (kept, with an error toast, when the reload fails), and on failure the error toast is shown and the choices kept; the button is enabled again in every case |
| PaginaAgendamento.Agendamento.Enviar | src/pages/Agendamento.tsx:147-165 | the POST with the slot found and what follows it, for both outcomes, the reloaded slots included |
| Reagendamento.ReagendarForm.constructor | src/components/common/ConsultaAgendadaCard.tsx:513-526 | the rebooking form starts with nothing chosen and not loading |
| Reagendamento.ReagendarForm.CarregarHorarios | src/components/common/ConsultaAgendadaCard.tsx:528-550 | GET /agenda/disponiveis replaces the raw slots on success and keeps them, silently, on failure |
| Reagendamento.ReagendarForm.Selecionar | src/components/common/ConsultaAgendadaCard.tsx:652-681 | the choices hold what was chosen, and nothing else changes |
| Reagendamento.ReagendarForm.HandleSubmit | src/components/common/ConsultaAgendadaCard.tsx:614-648 | a missing choice or a slot not found only shows its toast; otherwise PUT /consultas/:id/reagendar carries the whole patient, type and slot, then on success the dialog closes, the slots are reloaded and the list refreshed, and on failure the error toast is shown; the choices are never reset |
| Reagendamento.ReagendarForm.Enviar | src/components/common/ConsultaAgendadaCard.tsx:636-647 | the PUT and what follows it, for both outcomes |
| CartaoConsulta.AcoesDoCartaoCaracterizacao | src/components/common/ConsultaAgendadaCard.tsx:140-142 | a card offers no action exactly when the consultation counts as concluded, which includes a missing `dataConclusao`; a cancelled one offers only un-cancel; a booked one offers every action but un-cancel, with Desmarcar sending DELETE and Cancelar sending PUT /cancelar; cancel and un-cancel never show together |
| CartaoConsulta.ValorDoCartaoCaracterizacao | src/components/common/ConsultaAgendadaCard.tsx:67-74 | an amount is accepted exactly when it is non-empty, a number and not negative, and the amount sent is that number |
| CartaoConsulta.ValorDoCartaoExemplos | src/components/common/ConsultaAgendadaCard.tsx:67-74 | "0" is accepted as 0; "-5" and "" are refused |
| CartaoConsulta.CartaoAgendado.constructor | src/components/common/ConsultaAgendadaCard.tsx:53-59 | the card starts with no dialog open, no amount and nothing sent |
| CartaoConsulta.CartaoAgendado.Abrir | src/components/common/ConsultaAgendadaCard.tsx:301-303 | a button offered by the card opens its own dialog, and nothing else changes |
| CartaoConsulta.CartaoAgendado.DigitarValor | src/components/common/ConsultaAgendadaCard.tsx:326 | the amount field holds what was typed |
| CartaoConsulta.CartaoAgendado.FecharConcluir | src/components/common/ConsultaAgendadaCard.tsx:288-294 | closing the conclude dialog clears the amount and its error |
| CartaoConsulta.CartaoAgendado.Concluir | src/components/common/ConsultaAgendadaCard.tsx:61-92 | a cancelled consultation is refused with a toast and the dialog closed; an invalid amount only sets the field error; a valid one sends PUT with the amount and, if that succeeds, PUT /concluir; both succeeding closes the dialog, clears the amount and refreshes the list, and any failure shows the error toast |
| CartaoConsulta.CartaoAgendado.Registrar | src/components/common/ConsultaAgendadaCard.tsx:76-91 | the two PUTs and what follows, for every outcome |
| CartaoConsulta.CartaoAgendado.UmPedido | src/components/common/ConsultaAgendadaCard.tsx:94-107 | an action of one request: on success its toast, the dialog closed and the list refreshed; on failure its error toast; the log gains exactly that one request |
| CartaoConsulta.CartaoAgendado.Cancelar | src/components/common/ConsultaAgendadaCard.tsx:94-107 | PUT /consultas/:id/cancelar and what follows it; the log gains exactly that request |
| CartaoConsulta.CartaoAgendado.Descancelar | src/components/common/ConsultaAgendadaCard.tsx:109-122 | PUT /consultas/:id/descancelar and what follows it, with the failure toast the source shows; the log gains exactly that request |
| CartaoConsulta.CartaoAgendado.Desmarcar | src/components/common/ConsultaAgendadaCard.tsx:124-137 | DELETE /consultas/:id and what follows it; the log gains exactly that request |
| CartaoConsulta.CartaoAgendado.ConfirmarAlternancia | src/components/common/ConsultaAgendadaCard.tsx:465-471 | the confirm button sends un-cancel for a cancelled consultation and cancel otherwise, and only that request |
| CartaoPainel.ValorDoPainelComparado | src/components/common/DashboardCardConsulta.tsx:44-47 | the dashboard card accepts every amount the agenda card accepts, and in addition exactly the negative numbers; it refuses only an empty field or a non-number |
| CartaoPainel.ValorDoPainelNegativo | src/components/common/DashboardCardConsulta.tsx:44-47 | "-5" is accepted on the dashboard and refused on the agenda card |
| CartaoPainel.CartaoDoPainel.constructor | src/components/common/DashboardCardConsulta.tsx:25-32 | the card starts with no dialog, no amount and nothing sent |
| CartaoPainel.CartaoDoPainel.AbrirConcluir | src/components/common/DashboardCardConsulta.tsx:110 | opens the conclude dialog and changes nothing else |
| CartaoPainel.CartaoDoPainel.AbrirDesmarcar | src/components/common/DashboardCardConsulta.tsx:169 | opens the delete dialog and changes nothing else |
| CartaoPainel.CartaoDoPainel.DigitarValor | src/components/common/DashboardCardConsulta.tsx:130 | the amount field holds what was typed |
| CartaoPainel.CartaoDoPainel.FecharConcluir | src/components/common/DashboardCardConsulta.tsx:97-103 | closing the conclude dialog clears the amount and its error |
| CartaoPainel.CartaoDoPainel.Concluir | src/components/common/DashboardCardConsulta.tsx:38-66 | as on the agenda card, but negative amounts pass and a success also refreshes the chart when a chart callback was given |
| CartaoPainel.CartaoDoPainel.Registrar | src/components/common/DashboardCardConsulta.tsx:49-65 | the two PUTs and what follows, for every outcome |
| CartaoPainel.CartaoDoPainel.Desmarcar | src/components/common/DashboardCardConsulta.tsx:68-81 | DELETE /consultas/:id and what follows it; the log gains exactly that request |
| Paginacao.TetoCaracterizacao | src/hooks/usePagination.ts:36-39 | the page count is the least number of pages of the given size that hold every item, and is 0 exactly when there are no items |
| Paginacao.FatiaCaracterizacao | src/hooks/usePagination.ts:51-55 | a page holds at most `itemsPerPage` items, namely the items from position (p−1)·n on, as many as remain up to n |
| Paginacao.FatiaComoIntervalo | src/hooks/usePagination.ts:51-55 | a page is the slice [(p−1)·n, p·n) of the list, clipped to its length |
| Paginacao.PaginasPrefixo | src/hooks/usePagination.ts:51-55 | the first k pages laid end to end are the first k·n items |
| Paginacao.PaginasCobrem | src/hooks/usePagination.ts:36-55 | all pages up to `totalPages`, in order, give back the whole list: nothing is lost or repeated |
| Paginacao.PoucasPaginas | src/hooks/usePagination.ts:85-93 | with at most 5 pages the items are every page 1..totalPages once, in order, with no ellipsis |
| Paginacao.MuitasPaginas | src/hooks/usePagination.ts:94-150 | with more than 5 pages the first item is page 1, the last is page `totalPages`, and there are 7 items in the middle case and 5 otherwise |
| Paginacao.PaginasCrescentes | src/hooks/usePagination.ts:82-153 | the page numbers listed strictly increase |
| Paginacao.ReticenciasOmitemPaginas | src/hooks/usePagination.ts:94-150 | an ellipsis stands only between two page numbers and always for at least one page left out; neighbouring page numbers are consecutive |
| Paginacao.UmaPaginaAtiva | src/hooks/usePagination.ts:82-153 | an item is active exactly when it is the current page, so exactly one is active when the current page is in range and none otherwise |
| Paginacao.Paginador.constructor | src/hooks/usePagination.ts:29-34 | the hook starts on the initial page with the given item count and page size |
| Paginacao.Paginador.AtualizarTotal | src/hooks/usePagination.ts:34-39 | a new item count leaves the current page as it was, even past the new last page |
| Paginacao.Paginador.GoToPage | src/hooks/usePagination.ts:57-60 | the page is clamped into [1, totalPages]; a page in range is taken as given, and with no pages the result is 1 |
| Paginacao.Paginador.GoToNextPage | src/hooks/usePagination.ts:62-66 | moves one page on only when not on the last page, otherwise nothing changes |
| Paginacao.Paginador.GoToPreviousPage | src/hooks/usePagination.ts:68-72 | moves one page back only when past page 1, otherwise nothing changes |
| Paginacao.Paginador.GoToFirstPage | src/hooks/usePagination.ts:74-76 | page 1 |
| Paginacao.Paginador.GoToLastPage | src/hooks/usePagination.ts:78-80 | page `totalPages`, which is 0 when there are no items |
| Paginacao.Paginador.EmpilharFaixa | src/hooks/usePagination.ts:86-92 | the push loop appends the pages from one number to another, each marked active when it is the current page |
| Paginacao.Paginador.PaginationItems | src/hooks/usePagination.ts:82-153 | the loops and pushes build exactly the items specified by `ItensDePaginacao`, whose properties the lemmas above state |
| ListasPaginadas.Filtrar | src/components/common/TodosTiposConsulta.tsx:39-41 | the filtered list is no longer than the list and holds only records of the list whose field contains the search, ignoring case |
| ListasPaginadas.FiltrarCaracterizacao | src/components/common/TodosTiposConsulta.tsx:39-41 | a record is kept exactly when it is in the list and matches; an empty search, or a search every record matches, keeps the whole list |
| ListasPaginadas.FiltrarSubsequencia | src/components/common/TodosPacientes.tsx:39-41 | filtering a concatenation is filtering each part in turn, so the order of the records is kept |
| ListasPaginadas.BuscaSegunda | src/components/common/TodasEscalas.tsx:37-39 | the shifts are searched on the weekday code: "segunda" finds a SEGUNDA_FEIRA shift |
| ListasPaginadas.BuscaTerca | src/components/common/TodasEscalas.tsx:37-39 | "terça" does not find a TERCA_FEIRA shift, because the code has no cedilla |
| ListasPaginadas.GetPaginationItems | src/components/common/TodosTiposConsulta.tsx:46-60 | the push loop builds exactly the items specified by `ItensDaLista` |
| ListasPaginadas.PoucasPaginasDaLista | src/components/common/TodosTiposConsulta.tsx:48-49 | with at most three pages the items are the pages 1..totalPaginas, in order, with no ellipsis |
| ListasPaginadas.ItensDaListaCaracterizacao | src/components/common/TodosPacientes.tsx:46-60 | the numbers listed are consecutive, increasing existing pages; an ellipsis only stands at an end, beside a number after page 1 or before the last page; an in-range current page is always listed |
| ListasPaginadas.PaginaAlemDoFim | src/components/common/TodosTiposConsulta.tsx:36-43 | a page past the last one, which the unreset page can reach after a narrower search, shows no record |
| ListasPaginadas.ListaPaginada.constructor | src/components/common/TodosTiposConsulta.tsx:35-36 | the list starts with an empty search on page 1 |
| ListasPaginadas.ListaPaginada.Buscar | src/components/common/TodosTiposConsulta.tsx:72 | typing in the search box changes the search and leaves the page as it was |
| ListasPaginadas.ListaPaginada.Primeira | src/components/common/TodosTiposConsulta.tsx:90 | "«" goes to page 1 |
| ListasPaginadas.ListaPaginada.Anterior | src/components/common/TodosTiposConsulta.tsx:98 | "‹" goes one page back, never below 1 |
| ListasPaginadas.ListaPaginada.Proxima | src/components/common/TodosTiposConsulta.tsx:120 | "›" goes one page on, never past `totalPaginas` |
| ListasPaginadas.ListaPaginada.Ultima | src/components/common/TodosTiposConsulta.tsx:128 | "»" goes to page `totalPaginas` |
| ListasPaginadas.ListaPaginada.Ir | src/components/common/TodosTiposConsulta.tsx:111 | a page button goes to the page it shows, which is always an existing page |
| PaginasConsultas.FiltradasCaracterizacao | src/pages/ConsultasAgendadas.tsx:76-99 | a consultation is listed exactly when it is in the list and passes the date, status and text filters at once; the order is kept; with no date, "todas" and a blank term the whole list is shown |
| PaginasConsultas.StatusParticao | src/pages/ConsultasAgendadas.tsx:85-88 | with the same date and term, "agendadas" and "concluidas" together list exactly as many consultations as "todas": the two options split the list |
| PaginasConsultas.StatusSoOlhaConclusao | src/pages/ConsultasAgendadas.tsx:85-88 | "agendadas" keeps exactly a null `dataConclusao`, whatever the status (a cancelled consultation included); "concluidas" keeps the rest, an absent field included; "todas" keeps everything |
| PaginasConsultas.SemSlotSemData | src/pages/ConsultasAgendadas.tsx:78-82 | once a date is chosen, a consultation with no slot is dropped |
| PaginasConsultas.BuscaEmBranco | src/pages/ConsultasAgendadas.tsx:91-96 | a blank term, spaces included, filters nothing; a non-blank term drops a consultation with neither patient nor type |
| PaginasConsultas.ContagensSomam | src/pages/ConsultasAgendadas.tsx:102-107 | the counts of scheduled, concluded and cancelled consultations add up to the total |
| PaginasConsultas.IntervaloCaracterizacao | src/pages/ConsultasAgendadas.tsx:339 | for an existing page, "Mostrando a..b" gives the positions of exactly the records the page shows; past the last page the range comes out inverted and the page is empty |
| PaginasConsultas.PaginacaoSoAgendadas | src/pages/Dashboard.tsx:89-120 | the dashboard pages over its AGENDADA sublist only: a page holds at most a page's worth of records, each of the list and AGENDADA |
| PaginasConsultas.Candidatos | src/pages/Dashboard.tsx:96-101 | the filter and map keep only scheduled consultations with a start, each from the list and paired with its distance from now |
| PaginasConsultas.CandidatosCompletos | src/pages/Dashboard.tsx:96-101 | every scheduled consultation with a start becomes a candidate |
| PaginasConsultas.InserirLimite | src/pages/Dashboard.tsx:102 | inserting keeps a lower bound on the distances that every entry already meets |
| PaginasConsultas.InserirOrdenado | src/pages/Dashboard.tsx:102 | inserting into a list sorted by distance leaves it sorted |
| PaginasConsultas.InserirPermuta | src/pages/Dashboard.tsx:102 | inserting adds exactly the new entry |
| PaginasConsultas.OrdenarCaracterizacao | src/pages/Dashboard.tsx:102 | the sort by distance yields a sorted permutation of its input |
| PaginasConsultas.OrdenarMembros | src/pages/Dashboard.tsx:102 | the sort keeps exactly the entries it was given |
| PaginasConsultas.ProximosElegiveis | src/pages/Dashboard.tsx:94-104 | each next patient is a scheduled consultation with a start from the list, carrying its distance from now |
| PaginasConsultas.ProximosMaisPerto | src/pages/Dashboard.tsx:99-103 | an eligible consultation left out is only left out when three are kept, and is no nearer than the third |
| PaginasConsultas.ProximosCaracterizacao | src/pages/Dashboard.tsx:94-104 | at most three next patients, all eligible, in increasing distance, and none left out nearer than the last kept |
| PaginasConsultas.MensagemDeCancelamento | src/pages/Dashboard.tsx:79 | the server's message when it sent one, otherwise "Erro ao cancelar consulta!" |
| PaginasConsultas.PainelDashboard.constructor | src/pages/Dashboard.tsx:49-51 | the page starts with no consultations, chart key 0 and loading |
| PaginasConsultas.PainelDashboard.FetchConsultas | src/pages/Dashboard.tsx:57-68 | one request for the day's list; the list is replaced on success and kept, with an error toast, on failure; loading ends on both paths and the chart key is untouched |
| PaginasConsultas.PainelDashboard.HandleGraficoRefresh | src/pages/Dashboard.tsx:53-55 | the chart key goes up by exactly 1 and nothing else changes |
| PaginasConsultas.PainelDashboard.CancelarConsulta | src/pages/Dashboard.tsx:71-82 | PUT /cancelar; on success a toast, the list refetched with loading ended and the chart key up by exactly 1; on failure an error toast and neither the list nor the key changes |
| PaginasCadastros.PacientesFiltradosCaracterizacao | src/pages/Pacientes.tsx:91-95 | a patient is listed exactly when the term occurs in the name or the e-mail ignoring case, or in the phone with case kept; an empty term lists everyone |
| PaginasCadastros.EstatisticasPacientesCaracterizacao | src/pages/Pacientes.tsx:98-107 | the total is the list's length; the new-this-year, with-e-mail and with-phone counts are each at most the total; every patient counts for e-mail (phone) exactly when none has a blank one; an empty list gives zeros |
| PaginasCadastros.EmailEmBrancoNaoConta | src/pages/Pacientes.tsx:105 | an e-mail of spaces only is not counted |
| PaginasCadastros.BotoesDePagina | src/pages/Pacientes.tsx:405-418 | the page buttons are the pages 1, 2, … up to min(5, totalPages), in order |
| PaginasCadastros.BotoesDePaginaCaracterizacao | src/pages/Pacientes.tsx:405-418 | a button exists for a page exactly when it is an existing page among the first five |
| PaginasCadastros.DiasDaSemana | src/pages/Escalas.tsx:54 | the set holds exactly the weekday codes some shift has |
| PaginasCadastros.DiasDaSemanaLimitado | src/pages/Escalas.tsx:54 | there are no more distinct weekdays than shifts |
| PaginasCadastros.EstatisticasEscalasCaracterizacao | src/pages/Escalas.tsx:50-55 | active plus inactive is the total; the distinct weekdays are at most the total, and at most 7 when every code is one of the seven; an empty list gives zeros |
| PaginasCadastros.Precos | src/pages/TiposConsulta.tsx:53-55 | one price per type, in order, a missing price counted as 0 |
| PaginasCadastros.MenorPositivoCaracterizacao | src/pages/TiposConsulta.tsx:57 | the least positive price is positive, one of the prices, and at most every positive price; there is none exactly when no price is positive |
| PaginasCadastros.EstatisticasTiposCaracterizacao | src/pages/TiposConsulta.tsx:50-59 | the average is the sum of the prices over the count, 0 for no types; the largest value is at least 0, every price and the average; the smallest is the least positive price, none (Infinity) when no price is positive, 0 for no types, and never above the largest |
| Filtro.Selecionar | src/components/common/DashboardCanceladas.tsx:7 | the filter keeps no more elements than the list, each of them from the list and satisfying the predicate |
| Filtro.SelecionarCaracterizacao | src/components/common/DashboardConcluidas.tsx:7 | the filter keeps exactly the elements that satisfy the predicate; all of them when every one does, none when none does |
| Filtro.SelecionarConcat | src/components/common/DashboardConcluidas.tsx:7-8 | filtering a concatenation is filtering each part in turn |
| EstatisticasPainel.Valores | src/components/common/DashboardFaturamento.tsx:20 | one amount per consultation, in order, a missing amount counted as 0 |
| EstatisticasPainel.MaiorCaracterizacao | src/components/common/DashboardFaturamento.tsx:22 | the max seeded with 0 is at least 0 and every amount, and is 0 or one of the amounts |
| EstatisticasPainel.SomaLimitada | src/components/common/DashboardFaturamento.tsx:20-22 | the total never exceeds the count times the largest amount |
| EstatisticasPainel.MaiorAteSoma | src/components/common/DashboardFaturamento.tsx:20-22 | with no negative amount the largest amount is at most the total, which is not negative |
| EstatisticasPainel.MediaLimitada | src/components/common/DashboardFaturamento.tsx:21-22 | the average ticket never exceeds the largest amount, and with no negative amount it is not negative |
| EstatisticasPainel.FaturamentoCaracterizacao | src/components/common/DashboardFaturamento.tsx:10-22 | the largest amount is at least 0 and every amount concluded today, and at least the average; nothing concluded today gives 0, 0 and 0; with no negative amount, 0 ≤ average ≤ largest ≤ total |
| EstatisticasPainel.ContagensCaracterizacao | src/components/common/DashboardConcluidas.tsx:6-9 | each count is at most the list's length, 0 for an empty list, and additive over concatenation; the consultations concluded today are among those counted as concluded |
| EstatisticasPainel.ContagemUnitaria | src/components/common/DashboardCanceladas.tsx:7-8 | a consultation counts as cancelled exactly when its status is CANCELADA, and as concluded exactly when its `dataConclusao` is present and not null, whatever its status |
| EstatisticasPainel.IndiceDe | src/components/common/DashboardGrafico.tsx:38 | the lookup `acc[nome]` finds the bar with that name, and fails exactly when no bar has it |
| EstatisticasPainel.AcumularValorDe | src/components/common/DashboardGrafico.tsx:38-41 | one step of the reduce adds the amount to its own group's bar and to no other |
| EstatisticasPainel.AcumularNomes | src/components/common/DashboardGrafico.tsx:38-41 | one step adds a bar only for a new name, and the names stay distinct |
| EstatisticasPainel.AcumularTotal | src/components/common/DashboardGrafico.tsx:38-41 | one step adds the amount to the sum of the bars |
| EstatisticasPainel.AgrupadoValores | src/components/common/DashboardGrafico.tsx:33-45 | each group's bar holds the sum of that group's amounts, missing amounts counted as 0 |
| EstatisticasPainel.AgrupadoTotal | src/components/common/DashboardGrafico.tsx:33-45 | the bars add up to the sum over all concluded consultations |
| EstatisticasPainel.AgrupadoNomes | src/components/common/DashboardGrafico.tsx:33-45 | one bar per distinct group name (the type's name, or "Outro"), never more bars than consultations |
| EstatisticasPainel.AgrupadoOrdem | src/components/common/DashboardGrafico.tsx:33-45 | the bars come in order of first appearance: a later consultation never moves an earlier bar |
| EstatisticasPainel.AgrupadoCaracterizacao | src/components/common/DashboardGrafico.tsx:33-45 | every bar holds its group's sum, and the bars add up to the total |
| EstatisticasPainel.AgrupadoPasso | src/components/common/DashboardGrafico.tsx:34-44 | grouping one more consultation is one more step of the reduce |
| EstatisticasPainel.SomarAoGrupo | src/components/common/DashboardGrafico.tsx:38-41 | the callback creates the bar at 0 when it is new and adds the amount, as `Acumular` specifies |
| EstatisticasPainel.AgruparPorTipo | src/components/common/DashboardGrafico.tsx:33-45 | the reduce, as a loop, builds exactly the bars `Agrupado` specifies |
| EstatisticasPainel.GraficoDashboard.constructor | src/components/common/DashboardGrafico.tsx:21-22 | the chart starts with no consultations and no bars |
| EstatisticasPainel.GraficoDashboard.FetchConsultas | src/components/common/DashboardGrafico.tsx:25-50 | one GET /consultas; on a reply the consultations are every CONCLUIDA one, of any month, and the bars are their grouping; with no reply nothing changes |

## Left out

- Rendering: the JSX, styles, dialogs' markup, icons and loading spinners. Only which dialog is open, which buttons are offered and which toasts appear are modelled.
- The network: every request is an entry in the effect log. Its outcome and any data it returns are method parameters. The server's own behaviour is not part of this model: slot generation, slot release, status changes.
- The clock, the locale and the timezone. "Today" and "now" are parameters. The YYYY-MM-DD keys that `toISOString().slice(0, 10)` gives the picked dates are parameters too, so a UTC date rolling over to the next day is not modelled.
- JavaScript's `Date` string parsing. `calcularIdade` receives the birth date as a (year, month, day) triple, or none for an empty or invalid date. The creation year that `Pacientes` reads from `createdAt` comes from a function parameter. `TimeClip` and years beyond `Date`'s range are not modelled.
- The `Date` fallbacks of `formatarData`, `formatarDataNascimento`, `formatarDataCadastro` and `formatarHora`: these go through `toLocaleDateString`/`toLocaleTimeString`. The model marks those inputs with `None`. `formatarMoeda`, `formatarDataHora`, `converteDataHora` and the other `dateUtils` helpers are locale formatting and are not part of this model.
- GerarAgenda's `setHours(0, 0, 0, 0)`: dates are modelled as whole day numbers at local midnight, so this call has nothing left to do.
- `Number(...)`: decimal notation with an optional sign and fraction, surrounding white space, and "" as 0. Exponents, hexadecimal, binary and octal literals, and "Infinity" are not modelled.
- Floating point: amounts and prices are `real`. Rounding in sums and averages is not modelled.
- `toLowerCase`: ASCII and Latin-1 letters only. Other scripts are not modelled.
- `localeCompare` in `HorarioSelect`: modelled as code-unit order. This is the order it gives for HH:MM strings of one shape.
- PaginasConsultas.OrdenarCaracterizacao: states a sorted permutation, but not the stability of `Array.prototype.sort`. The model's insertion sort is stable; no lemma states it. An entry whose start does not parse (a `NaN` difference) is not modelled: every start is an integer instant.
- EstatisticasPainel.AgruparPorTipo: the bars come in order of first appearance. `Object.values` lists integer-like keys first, and that ordering is not modelled. Type names that clash with `Object.prototype` members (such as "constructor") are not modelled either.
- Callbacks passed by parent components are assumed to return normally; one that throws is not modelled.
- The delete handlers of the registration pages: `deletarTipoConsulta` in TodosTiposConsulta and the patient delete in `Pacientes`. Each is a request, a toast and a refresh, with nothing to check before it. The same holds for the `fetch`/`atualizar` reloads of `ConsultasAgendadas`, `Pacientes`, `Escalas` and `TiposConsulta`, and for the state setters of their search and filter inputs. Their computed lists and statistics are modelled as functions of the loaded list and the filter values.
- Excel export, authentication, routing, the select widgets and the patient and consultation-type forms. These are UI or foreign calls with no logic to verify.
- `console.log`/`console.error` output.
- Page sizes `DEFAULT_PAGE_SIZE` and `DASHBOARD_CONSULTAS_PAGE_SIZE`: their values are not part of this model. They are parameters, required to be positive.

## Behaviour of the code worth knowing

The model follows the code. In these places the code differs from what the screens or the project's description suggest:

- `normalizaHora` completes only a bare one- or two-digit hour. "930" is left unchanged, and `horaValida` then rejects it.
- `ConsultaAgendadaCard` accepts an amount of 0. `DashboardCardConsulta` also accepts negative amounts.
- The revenue chart's caption names the current month, but `DashboardGrafico` groups every concluded consultation, of any month.
- `TodasEscalas` searches the weekday code, not its label. "segunda" finds a Monday shift, but "terça" finds no Tuesday shift, because the code is spelt `TERCA_FEIRA` (`ListasPaginadas.BuscaTerca`).
- A consultation whose `dataConclusao` field is absent, rather than null, counts as concluded on the card (`isConsultaConcluida` tests `!== null`) and in the "concluidas" filter, and is dropped by the "agendadas" filter. `DashboardConcluidas` tests `!= null`, which is false for an absent field too, so it does not count such a consultation.
- `converteDataParaISO` does not check the day against the month ("31/02/2024" gives "2024-02-31"). A day or month that `parseInt` cannot read passes every range check and is copied into the result.
- The page number in the lists and the pagination hook is not reset when the search narrows the list. A page past the last one shows nothing.
