/**
 * The appointment record and the two list transforms of the Agenda screen:
 * marking an appointment done and cancelling it, both addressed by index.
 */
module Appointments {
  import opened Wrappers

  /** A day number; "today" and completion moments are reduced to days. */
  type Day = int

  const PENDENTE: string := "pendente"
  const FEITO: string := "feito"

  /**
   * One booking. `value` is the amount `parseFloat` read from the form,
   * `date` and `time` are the formatted labels, `feitoEm` is the day the
   * booking was marked done (absent until then).
   */
  datatype Appointment = Appointment(
    name: string,
    service: string,
    value: real,
    date: string,
    time: string,
    status: string,
    feitoEm: Option<Day>)

  predicate IsPendente(a: Appointment) { a.status == PENDENTE }
  predicate IsFeito(a: Appointment) { a.status == FEITO }

  /** A booking is either pending without a completion day, or done with one. */
  predicate WellFormed(a: Appointment) {
    (IsPendente(a) && a.feitoEm.None?) || (IsFeito(a) && a.feitoEm.Some?)
  }

  predicate AllWellFormed(s: seq<Appointment>) {
    forall i :: 0 <= i < |s| ==> WellFormed(s[i])
  }

  /** The record both creation paths build: a fresh pending booking. */
  function NovoAgendamento(name: string, service: string, value: real, date: string, time: string): (a: Appointment)
    ensures IsPendente(a) && WellFormed(a)
    ensures a.name == name && a.service == service && a.value == value
    ensures a.date == date && a.time == time
  {
    Appointment(name, service, value, date, time, PENDENTE, None)
  }

  /**
   * `marcarFeito(id)`: the element at index `id` becomes done on day `now`;
   * every other element, and the whole list when `id` is out of range, is kept.
   */
  function MarcarFeito(apps: seq<Appointment>, id: int, now: Day): (r: seq<Appointment>)
    ensures |r| == |apps|
    ensures 0 <= id < |apps| ==>
      r[id].status == FEITO && r[id].feitoEm == Some(now) &&
      r[id].name == apps[id].name && r[id].service == apps[id].service &&
      r[id].value == apps[id].value && r[id].date == apps[id].date && r[id].time == apps[id].time
    ensures forall k :: 0 <= k < |apps| && k != id ==> r[k] == apps[k]
    ensures !(0 <= id < |apps|) ==> r == apps
  {
    seq(|apps|, k requires 0 <= k < |apps| =>
      if k == id then apps[k].(status := FEITO, feitoEm := Some(now)) else apps[k])
  }

  /** Keeps the elements of `s` whose position, counted from `from`, differs from `id`. */
  function DropIndex(s: seq<Appointment>, id: int, from: int): (r: seq<Appointment>)
    ensures from <= id < from + |s| ==> r == s[..id - from] + s[id - from + 1..]
    ensures !(from <= id < from + |s|) ==> r == s
    decreases |s|
  {
    if s == [] then []
    else (if from == id then [] else [s[0]]) + DropIndex(s[1..], id, from + 1)
  }

  /**
   * `cancelarAgendamento(id)`: the element at index `id` is removed and the
   * survivors keep their order; an out-of-range `id` changes nothing.
   */
  function CancelarAgendamento(apps: seq<Appointment>, id: int): (r: seq<Appointment>)
    ensures 0 <= id < |apps| ==> r == apps[..id] + apps[id + 1..] && |r| == |apps| - 1
    ensures !(0 <= id < |apps|) ==> r == apps
  {
    DropIndex(apps, id, 0)
  }

  /** `apps.indexOf(x)`: the first position holding `x`, or -1 when there is none. */
  function IndexOf(apps: seq<Appointment>, x: Appointment): (r: int)
    ensures -1 <= r < |apps|
    ensures r == -1 <==> x !in apps
    ensures 0 <= r ==> apps[r] == x && forall j :: 0 <= j < r ==> apps[j] != x
  {
    if apps == [] then -1
    else if apps[0] == x then 0
    else var k := IndexOf(apps[1..], x); if k == -1 then -1 else k + 1
  }

  /** Marking done splits the list around the changed element. */
  lemma MarcarFeitoSplit(apps: seq<Appointment>, id: int, now: Day)
    requires 0 <= id < |apps|
    ensures MarcarFeito(apps, id, now) ==
      apps[..id] + [apps[id].(status := FEITO, feitoEm := Some(now))] + apps[id + 1..]
  {
  }

  /** Marking the same element done twice on the same day is marking it once. */
  lemma MarcarFeitoIdempotent(apps: seq<Appointment>, id: int, now: Day)
    ensures MarcarFeito(MarcarFeito(apps, id, now), id, now) == MarcarFeito(apps, id, now)
  {
  }

  /** Marking done keeps every booking well formed. */
  lemma MarcarFeitoWellFormed(apps: seq<Appointment>, id: int, now: Day)
    requires AllWellFormed(apps)
    ensures AllWellFormed(MarcarFeito(apps, id, now))
  {
  }

  /** Cancelling keeps every surviving booking well formed. */
  lemma CancelarWellFormed(apps: seq<Appointment>, id: int)
    requires AllWellFormed(apps)
    ensures AllWellFormed(CancelarAgendamento(apps, id))
  {
    var r := CancelarAgendamento(apps, id);
    forall i | 0 <= i < |r| ensures WellFormed(r[i]) {
      if 0 <= id < |apps| {
        if i < id { assert r[i] == apps[i]; } else { assert r[i] == apps[i + 1]; }
      }
    }
  }

  /** Appending a new pending booking keeps every booking well formed. */
  lemma AppendWellFormed(apps: seq<Appointment>, a: Appointment)
    requires AllWellFormed(apps) && WellFormed(a)
    ensures AllWellFormed(apps + [a])
  {
  }
}
