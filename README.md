# Salão mobile: appointment list model

A Dafny model of the appointment handling in the salon app's `App.js`: the
list of bookings (`appointments`) that the app root owns and passes to its
screens, the Agenda screen's "Feito" and "Cancelar" buttons and its filtered
views, the Cadastro screen's booking form and four-step quick-service wizard,
the report screen's totals, and the welcome screen's pending count.

Modules:

- `Wrappers` (`wrappers.dfy`): `Option`, for `feitoEm`, which a booking lacks until it is done.
- `Text` (`text.dfy`): `toLowerCase` and `includes`, as the filters use them.
- `Lists` (`lists.dfy`): `Array.prototype.filter` on sequences, with order, completeness and partition facts.
- `Appointments` (`appointments.dfy`): the `Appointment` record and the pure list transforms `marcarFeito`, `cancelarAgendamento` and `indexOf`.
- `Agenda` (`agenda.dfy`): `filtrados`, `pendentes` and `feitos`, plus the welcome screen's pending count.
- `Relatorio` (`relatorio.dfy`): `totalHoje`, `somarValores` and the 7-day and 30-day averages.
- `Screens` (`screens.dfy`): the state that changes in place. `AppState` holds the shared list. `AgendaScreen` and `CadastroScreen` hold a reference to it. Their methods replace the list as `setAppointments` does, and `CadastroScreen` also steps the wizard's `etapa`.

Modelling choices:

- A booking's `status` is the string the source compares, `"pendente"` or `"feito"`.
- `value` is a `real`, the number `parseFloat` read from the form. The methods that create bookings take that number as a parameter beside the text field whose emptiness they check.
- Dates and moments are integer day numbers (`Day`). "Today" is a parameter, and so is the day a booking is marked done. The formatted date and time labels a booking carries are opaque strings.
- Bookings are addressed by index, as the buttons do through `appointments.indexOf(item)`.

Behaviour of the code worth noting:

- `marcarFeito` marks the element at the index done whatever its status. Done again, it moves `feitoEm` to the new day. It is not a no-op on a booking that is already done. The Agenda screen shows the button only on pending bookings.
- Operations take list positions, not stable identifiers.
- The report sums skip a done booking that has no `feitoEm`. `new Date(undefined)` is an invalid date, so it fails both date tests. There is no fallback to the booking's scheduled date.
- An empty name, service or value field is rejected. There is no coercion of the value to zero.
- `App.js` has no products, stock or change log.

## Model

| member | source | states |
|---|---|---|
| `Lists.Filter` | App.js:27-32 | the survivors of a filter are elements of the input that satisfy the predicate, and there are never more of them than input elements |
| `Lists.FilterSubsequence` | App.js:27-35 | filtering keeps the survivors in their original relative order (an order-preserving subsequence) |
| `Lists.FilterPartition` | App.js:34-35 | when every element satisfies exactly one of two predicates, the two filtered lists together are a permutation of the input, so their lengths add up to it |
| `Text.Lower` | App.js:29 | `toLowerCase`: the result has the input's length, maps each character through the A-Z lower-casing, and contains no upper-case ASCII letter |
| `Text.Contains` | App.js:29-30 | `includes`: a string that includes another is at least as long as it (the full meaning is `Text.ContainsAt`) |
| `Text.ContainsAt` | App.js:29-30 | `includes` holds exactly when the searched text occurs at some position of the string |
| `Appointments.MarcarFeito` | App.js:15-20 | the length is kept; the element at an in-range index becomes `feito` with `feitoEm` set to the given day and keeps its name, service, value, date and time; every other element is identical; an out-of-range index (such as -1 from a missed `indexOf`) leaves the list unchanged |
| `Appointments.MarcarFeitoIdempotent` | App.js:15-20 | marking the same index done twice on the same day gives the same list as marking it once |
| `Appointments.MarcarFeitoWellFormed` | App.js:15-20 | marking done keeps every booking either pending without a completion day or done with one |
| `Appointments.CancelarAgendamento` | App.js:22-25 | an in-range index gives `list[..i] + list[i+1..]`, one element shorter with the survivors in order; an out-of-range index leaves the list unchanged |
| `Appointments.CancelarWellFormed` | App.js:22-25 | cancelling keeps every surviving booking well formed |
| `Appointments.IndexOf` | App.js:55-58 | the result is -1 exactly when the booking is absent; otherwise it is the first position holding it |
| `Appointments.NovoAgendamento` | App.js:120-128 | a booking built by the form or the wizard is pending, has no completion day, and carries the given name, service, value, date and time |
| `Appointments.AppendWellFormed` | App.js:129 | appending a well-formed booking keeps the list well formed |
| `Agenda.Filtrados` | App.js:27-32 | every shown booking is one of the bookings; its lower-cased service contains the lower-cased service filter unless that filter is empty; its time label contains the time filter unless that filter is empty |
| `Agenda.FiltradosSubsequence` | App.js:27-32 | the filtered list is an order-preserving subsequence of the bookings |
| `Agenda.FiltradosSemFiltro` | App.js:27-32 | with both filter fields empty the filtered list equals the booking list |
| `Agenda.FiltradosPermutation` | App.js:27-32 | counted with multiplicity, the shown bookings and the hidden ones together are a permutation of the list, so every copy of a matching booking is shown |
| `Agenda.FiltradosComplete` | App.js:27-32 | every booking that meets both filters is shown |
| `Agenda.FiltradosCaseInsensitive` | App.js:29 | typing the service filter in upper or lower case shows the same bookings |
| `Agenda.Pendentes` | App.js:34 | the pending list holds only `pendente` bookings taken from the filtered list |
| `Agenda.Feitos` | App.js:35 | the done list holds only `feito` bookings taken from the filtered list |
| `Agenda.PartitionByStatus` | App.js:34-35 | when every status is `pendente` or `feito`, the pending and done lists are order-preserving subsequences of the filtered list, together a permutation of it, and their lengths sum to its length |
| `Agenda.TotalPendentes` | App.js:268-269 | the welcome count is at most the number of bookings |
| `Agenda.TotalPendentesZero` | App.js:268-269 | the welcome count is zero exactly when no booking is pending |
| `Agenda.TotalPendentesIsPendentes` | App.js:268-269 | the welcome count equals the length of the Agenda's pending list when no filter is typed |
| `Agenda.PendentesMaisFeitos` | App.js:268-269 | with well-formed bookings, the pending count plus the number of done bookings is the number of bookings |
| `Agenda.IndexOfShownItem` | App.js:53-58 | for a booking shown in the pending list, `indexOf` gives an in-range index that holds that booking, so the buttons act on the booking shown |
| `Agenda.MarcarFeitoTotalPendentes` | App.js:15-20 | marking a pending booking done lowers the pending count by exactly one |
| `Agenda.CancelarTotalPendentes` | App.js:22-25 | cancelling lowers the pending count by one when the booking was pending and leaves it unchanged otherwise |
| `Agenda.AdicionarTotalPendentes` | App.js:129 | adding a pending booking raises the pending count by one |
| `Relatorio.Soma` | App.js:241-243 | `reduce((acc, a) => acc + a.value, 0)`: a sum of non-negative values is non-negative |
| `Relatorio.SomaAppend` | App.js:241-243 | the sum over a concatenation is the sum of the two sums |
| `Relatorio.SomaFilterMonotone` | App.js:241-243 | with non-negative values, a filter admitting a superset of bookings never gives a smaller sum |
| `Relatorio.TotalHoje` | App.js:246-248 | today's total is non-negative when every value is |
| `Relatorio.SomarValores` | App.js:238-244 | a window total is non-negative when every value is |
| `Relatorio.MediaSemana` | App.js:254 | the weekly average is the 7-day total divided by the fixed 7, and non-negative when every value is |
| `Relatorio.MediaMes` | App.js:255 | the monthly average is the 30-day total divided by the fixed 30, and non-negative when every value is |
| `Relatorio.SomarValoresMonotone` | App.js:238-244 | with non-negative values, a longer window never gives a smaller total |
| `Relatorio.SemanaDentroDoMes` | App.js:254-255 | with non-negative values, `somarValores(7) <= somarValores(30)` |
| `Relatorio.TotalHojeNaJanela` | App.js:238-248 | with non-negative values, today's total is at most the total of any window of one or more days |
| `Relatorio.SoFeitosContam` | App.js:241-248 | only `feito` bookings contribute: both figures computed over the done list equal those over all bookings |
| `Relatorio.MarcarFeitoSoma` | App.js:15-20 | marking a pending booking done today adds exactly its value to today's total and to every window total of one or more days |
| `Relatorio.CancelarPendenteSoma` | App.js:22-25 | cancelling a pending booking leaves today's total and every window total unchanged |
| `Relatorio.AdicionarSoma` | App.js:129 | adding a pending booking leaves today's total and every window total unchanged |
| `Relatorio.SomarValoresAppend` | App.js:238-244 | one more booking adds exactly its value to the window total when it is `feito` with a completion day on or after `hoje - dias`, and nothing otherwise |
| `Relatorio.TotalHojeAppend` | App.js:246-248 | one more booking adds exactly its value to today's total when it is `feito` with completion day `hoje`, and nothing otherwise |
| `Screens.AppState.constructor` | App.js:344 | the app starts with an empty, well-formed booking list |
| `Screens.AgendaScreen.MarcarFeito` | App.js:15-20 | the shared list is replaced by the marked-done list and stays well formed |
| `Screens.AgendaScreen.CancelarAgendamento` | App.js:22-25 | the shared list is replaced by the list without the cancelled booking and stays well formed |
| `Screens.CadastroScreen.constructor` | App.js:102-116 | the form starts with empty text fields, the wizard closed at step 0 and the date and time labels of the moment it opens |
| `Screens.CadastroScreen.AdicionarAgendamento` | App.js:118-136 | with the name, service or value field empty nothing changes; otherwise exactly one pending booking with the form's name, service, value, date and time is appended after the unchanged old list, and the three text fields are cleared |
| `Screens.CadastroScreen.IniciarServicoRapido` | App.js:138-146 | opens the wizard at step 0 for the chosen catalogue service, with empty name and value fields and fresh date and time labels |
| `Screens.CadastroScreen.DigitarRapidoNome` | App.js:208-210 | the name typed at step 0 is stored and the wizard invariant is kept |
| `Screens.CadastroScreen.DigitarRapidoValor` | App.js:211-213 | the value typed at step 1 is stored and the wizard invariant is kept |
| `Screens.CadastroScreen.EscolherRapidoData` | App.js:214-216 | the date picked at step 2 is stored and the wizard invariant is kept |
| `Screens.CadastroScreen.EscolherRapidoHora` | App.js:217-219 | the time picked at step 3 is stored and the wizard invariant is kept |
| `Screens.CadastroScreen.ConfirmarEtapa` | App.js:148-166 | an empty name at step 0 or an empty value at step 1 changes nothing; at step 3 exactly one pending booking for the catalogue service, with a non-empty name and value, is appended and the wizard closes; otherwise the step advances by one; the step never leaves 0..3 |

## Left out

- Rendering, layout, styles, navigation and the login toggle: they are UI with no state logic over the bookings.
- `Alert.alert`: modelled only as "no state change".
- Date and time formatting (`toLocaleDateString`, `toLocaleTimeString`) and the date pickers: the labels are opaque string parameters.
- `Date` arithmetic: moments are reduced to day numbers, and "today" is a parameter.
- SomarValores: with a window of 0 days the source's limit is the current moment, so bookings done earlier today fall outside it; the model admits all of today, and the lemmas about windows ask for at least one day.
- SomarValores: the source's limit `dataLimite` keeps the current time of day, so a booking done on the limit day before that time is excluded there; the model compares whole days and admits it.
- `parseFloat` and `NaN`: the parsed value is a parameter. The model does not follow a non-numeric value text, which the source would store as `NaN`.
- `toFixed` and floating-point rounding: values and sums are exact reals.
- Text.Lower: only the ASCII letters A-Z are lower-cased; `toLowerCase` also maps accented and other non-ASCII capitals.
- Appointments.IndexOf: `indexOf` in the source compares object references; the model compares values, so of two bookings with identical fields the first is chosen.
- The `color` field of a new booking: a display colour only.
- The `data && horario` test in `adicionarAgendamento`: both are `Date` objects and always truthy, so only the three text fields are checked.
- The main form's text-field setters (`setNome`, `setServico`, `setValor`) and date pickers are plain field assignments; they are not separate methods.
- The Agenda screen's filter texts are parameters of the view functions rather than fields of a screen object.
- Persistence, products, stock, the change log and stable identifiers: this file has none of them.
