/**
 * The figures of the report screen: the total of bookings done today and the
 * daily averages over the last 7 and 30 days. Only done bookings count.
 */
module Relatorio {
  import opened Wrappers
  import opened Lists
  import opened Appointments
  import Agenda

  predicate NaoNegativos(s: seq<Appointment>) {
    forall a :: a in s ==> a.value >= 0.0
  }

  /**
   * `reduce((acc, a) => acc + a.value, 0)`: values added left to right; a sum
   * of non-negative values is non-negative.
   */
  function Soma(s: seq<Appointment>): (r: real)
    ensures NaoNegativos(s) ==> r >= 0.0
    decreases |s|
  {
    if s == [] then 0.0 else Soma(s[..|s| - 1]) + s[|s| - 1].value
  }

  /** The sum of a concatenation is the sum of the sums. */
  lemma {:induction false} SomaAppend(a: seq<Appointment>, b: seq<Appointment>)
    ensures Soma(a + b) == Soma(a) + Soma(b)
    decreases |b|
  {
    if b == [] {
      assert a + b == a;
    } else {
      assert (a + b)[..|a + b| - 1] == a + b[..|b| - 1];
      SomaAppend(a, b[..|b| - 1]);
    }
  }

  /**
   * With non-negative values, filtering by a weaker condition never gives a
   * smaller sum.
   */
  lemma {:induction false} SomaFilterMonotone(s: seq<Appointment>, p: Appointment -> bool, q: Appointment -> bool)
    requires NaoNegativos(s)
    requires forall a :: a in s && p(a) ==> q(a)
    ensures Soma(Filter(s, p)) <= Soma(Filter(s, q))
    decreases |s|
  {
    if s != [] {
      var x := s[0];
      SomaFilterMonotone(s[1..], p, q);
      SomaAppend(if p(x) then [x] else [], Filter(s[1..], p));
      SomaAppend(if q(x) then [x] else [], Filter(s[1..], q));
      assert Soma([x]) == x.value by { assert [x][..0] == []; }
    }
  }

  /** Done on day `hoje` (the `isToday(a.feitoEm)` test). */
  predicate FeitoNoDia(a: Appointment, hoje: Day) {
    IsFeito(a) && a.feitoEm == Some(hoje)
  }

  /**
   * Done on or after day `limite` (the `new Date(a.feitoEm) >= dataLimite`
   * test); a done booking without a completion day is an invalid date and
   * never passes.
   */
  predicate FeitoDesde(a: Appointment, limite: Day) {
    IsFeito(a) && a.feitoEm.Some? && a.feitoEm.value >= limite
  }

  /** `totalHoje`: the value of the bookings done today. */
  function TotalHoje(apps: seq<Appointment>, hoje: Day): (t: real)
    ensures NaoNegativos(apps) ==> t >= 0.0
  {
    Soma(Filter(apps, a => FeitoNoDia(a, hoje)))
  }

  /** `somarValores(dias)`: the value of the bookings done in the last `dias` days. */
  function SomarValores(apps: seq<Appointment>, hoje: Day, dias: int): (t: real)
    ensures NaoNegativos(apps) ==> t >= 0.0
  {
    Soma(Filter(apps, a => FeitoDesde(a, hoje - dias)))
  }

  /** The weekly average: the 7-day total divided by 7, days without work included. */
  function MediaSemana(apps: seq<Appointment>, hoje: Day): (m: real)
    ensures NaoNegativos(apps) ==> m >= 0.0
    ensures 7.0 * m == SomarValores(apps, hoje, 7)
  {
    SomarValores(apps, hoje, 7) / 7.0
  }

  /** The monthly average: the 30-day total divided by 30. */
  function MediaMes(apps: seq<Appointment>, hoje: Day): (m: real)
    ensures NaoNegativos(apps) ==> m >= 0.0
    ensures 30.0 * m == SomarValores(apps, hoje, 30)
  {
    SomarValores(apps, hoje, 30) / 30.0
  }

  /** A longer window admits more bookings, so its total is at least as large. */
  lemma SomarValoresMonotone(apps: seq<Appointment>, hoje: Day, d1: int, d2: int)
    requires NaoNegativos(apps) && d1 <= d2
    ensures SomarValores(apps, hoje, d1) <= SomarValores(apps, hoje, d2)
  {
    SomaFilterMonotone(apps, a => FeitoDesde(a, hoje - d1), a => FeitoDesde(a, hoje - d2));
  }

  /** The weekly total never exceeds the monthly total. */
  lemma SemanaDentroDoMes(apps: seq<Appointment>, hoje: Day)
    requires NaoNegativos(apps)
    ensures SomarValores(apps, hoje, 7) <= SomarValores(apps, hoje, 30)
    ensures 7.0 * MediaSemana(apps, hoje) <= 30.0 * MediaMes(apps, hoje)
  {
    SomarValoresMonotone(apps, hoje, 7, 30);
  }

  /** Today's total is part of every window of one or more days. */
  lemma TotalHojeNaJanela(apps: seq<Appointment>, hoje: Day, dias: int)
    requires NaoNegativos(apps) && dias >= 1
    ensures TotalHoje(apps, hoje) <= SomarValores(apps, hoje, dias)
  {
    SomaFilterMonotone(apps, a => FeitoNoDia(a, hoje), a => FeitoDesde(a, hoje - dias));
  }

  /** Only done bookings contribute: the figures over the done list equal the figures over all. */
  lemma SoFeitosContam(apps: seq<Appointment>, hoje: Day, dias: int)
    ensures TotalHoje(Agenda.Feitos(apps), hoje) == TotalHoje(apps, hoje)
    ensures SomarValores(Agenda.Feitos(apps), hoje, dias) == SomarValores(apps, hoje, dias)
  {
    FilterRefine(apps, IsFeito, a => FeitoNoDia(a, hoje));
    FilterRefine(apps, IsFeito, a => FeitoDesde(a, hoje - dias));
  }

  /** A one-element list contributes its value when it passes the filter. */
  lemma SomaFilterUnit(x: Appointment, p: Appointment -> bool)
    ensures Soma(Filter([x], p)) == if p(x) then x.value else 0.0
  {
    assert [x][1..] == [];
    assert [x][..0] == [];
    if p(x) {
      assert Filter([x], p) == [x];
    } else {
      assert Filter([x], p) == [];
    }
  }

  /** The sum of a filter over a list split around one element. */
  lemma SomaFilterSplit(apps: seq<Appointment>, id: int, p: Appointment -> bool)
    requires 0 <= id < |apps|
    ensures Soma(Filter(apps, p)) ==
      Soma(Filter(apps[..id], p)) + (if p(apps[id]) then apps[id].value else 0.0) + Soma(Filter(apps[id + 1..], p))
  {
    var fl, fx, fr := Filter(apps[..id], p), Filter([apps[id]], p), Filter(apps[id + 1..], p);
    FilterSplit(apps, id, p);
    SomaAppend(fl + fx, fr);
    SomaAppend(fl, fx);
    SomaFilterUnit(apps[id], p);
  }

  /**
   * Marking a pending booking done today adds its value to today's total and
   * to every window of one or more days.
   */
  lemma MarcarFeitoSoma(apps: seq<Appointment>, id: int, hoje: Day, dias: int)
    requires 0 <= id < |apps| && apps[id].status == PENDENTE && dias >= 1
    ensures TotalHoje(MarcarFeito(apps, id, hoje), hoje) == TotalHoje(apps, hoje) + apps[id].value
    ensures SomarValores(MarcarFeito(apps, id, hoje), hoje, dias) == SomarValores(apps, hoje, dias) + apps[id].value
  {
    var r := MarcarFeito(apps, id, hoje);
    assert r[..id] == apps[..id] && r[id + 1..] == apps[id + 1..];
    SomaFilterSplit(apps, id, a => FeitoNoDia(a, hoje));
    SomaFilterSplit(r, id, a => FeitoNoDia(a, hoje));
    SomaFilterSplit(apps, id, a => FeitoDesde(a, hoje - dias));
    SomaFilterSplit(r, id, a => FeitoDesde(a, hoje - dias));
  }

  /** Cancelling a pending booking leaves every report figure unchanged. */
  lemma CancelarPendenteSoma(apps: seq<Appointment>, id: int, hoje: Day, dias: int)
    requires 0 <= id < |apps| && apps[id].status == PENDENTE
    ensures TotalHoje(CancelarAgendamento(apps, id), hoje) == TotalHoje(apps, hoje)
    ensures SomarValores(CancelarAgendamento(apps, id), hoje, dias) == SomarValores(apps, hoje, dias)
  {
    var p := a => FeitoNoDia(a, hoje);
    var q := a => FeitoDesde(a, hoje - dias);
    SomaFilterSplit(apps, id, p);
    SomaFilterSplit(apps, id, q);
    FilterAppend(apps[..id], apps[id + 1..], p);
    FilterAppend(apps[..id], apps[id + 1..], q);
    SomaAppend(Filter(apps[..id], p), Filter(apps[id + 1..], p));
    SomaAppend(Filter(apps[..id], q), Filter(apps[id + 1..], q));
  }

  /** Adding a pending booking leaves every report figure unchanged. */
  lemma AdicionarSoma(apps: seq<Appointment>, a: Appointment, hoje: Day, dias: int)
    requires a.status == PENDENTE
    ensures TotalHoje(apps + [a], hoje) == TotalHoje(apps, hoje)
    ensures SomarValores(apps + [a], hoje, dias) == SomarValores(apps, hoje, dias)
  {
    FilterAppend(apps, [a], x => FeitoNoDia(x, hoje));
    FilterAppend(apps, [a], x => FeitoDesde(x, hoje - dias));
    assert Filter(apps, x => FeitoNoDia(x, hoje)) + [] == Filter(apps, x => FeitoNoDia(x, hoje));
    assert Filter(apps, x => FeitoDesde(x, hoje - dias)) + [] == Filter(apps, x => FeitoDesde(x, hoje - dias));
  }

  /**
   * One more booking adds exactly its value to the window total when it was
   * done on or after day `hoje - dias`, and nothing otherwise.
   */
  lemma SomarValoresAppend(apps: seq<Appointment>, a: Appointment, hoje: Day, dias: int)
    ensures SomarValores(apps + [a], hoje, dias) ==
      SomarValores(apps, hoje, dias) + (if FeitoDesde(a, hoje - dias) then a.value else 0.0)
  {
    var p := x => FeitoDesde(x, hoje - dias);
    FilterAppend(apps, [a], p);
    SomaAppend(Filter(apps, p), Filter([a], p));
    SomaFilterUnit(a, p);
  }

  /**
   * One more booking adds exactly its value to today's total when it was done
   * on day `hoje`, and nothing otherwise.
   */
  lemma TotalHojeAppend(apps: seq<Appointment>, a: Appointment, hoje: Day)
    ensures TotalHoje(apps + [a], hoje) ==
      TotalHoje(apps, hoje) + (if FeitoNoDia(a, hoje) then a.value else 0.0)
  {
    var p := x => FeitoNoDia(x, hoje);
    FilterAppend(apps, [a], p);
    SomaAppend(Filter(apps, p), Filter([a], p));
    SomaFilterUnit(a, p);
  }
}
