/**
 * The derived lists of the Agenda screen (`filtrados`, `pendentes`, `feitos`)
 * and the pending count of the welcome screen. None of them changes the
 * appointment list.
 */
module Agenda {
  import opened Text
  import opened Lists
  import opened Wrappers
  import opened Appointments

  /**
   * The filter of the Agenda screen: an empty filter text lets everything
   * through; otherwise the lower-cased service must include the lower-cased
   * service filter and the time label must include the time filter.
   */
  predicate Matches(a: Appointment, filtroServico: string, filtroHorario: string) {
    (filtroServico == "" || Contains(Lower(a.service), Lower(filtroServico))) &&
    (filtroHorario == "" || Contains(a.time, filtroHorario))
  }

  /** `filtrados`: the bookings the two filter fields let through. */
  function Filtrados(apps: seq<Appointment>, filtroServico: string, filtroHorario: string): (r: seq<Appointment>)
    ensures |r| <= |apps|
    ensures forall a :: a in r ==> a in apps
    ensures forall a :: a in r ==> filtroServico == "" || Contains(Lower(a.service), Lower(filtroServico))
    ensures forall a :: a in r ==> filtroHorario == "" || Contains(a.time, filtroHorario)
  {
    Filter(apps, a => Matches(a, filtroServico, filtroHorario))
  }

  /** `pendentes`: the pending part of a list. */
  function Pendentes(filtrados: seq<Appointment>): (r: seq<Appointment>)
    ensures forall a :: a in r ==> a in filtrados && a.status == PENDENTE
  {
    Filter(filtrados, IsPendente)
  }

  /** `feitos`: the done part of a list. */
  function Feitos(filtrados: seq<Appointment>): (r: seq<Appointment>)
    ensures forall a :: a in r ==> a in filtrados && a.status == FEITO
  {
    Filter(filtrados, IsFeito)
  }

  /** The welcome screen's count of pending bookings. */
  function TotalPendentes(apps: seq<Appointment>): (n: nat)
    ensures n <= |apps|
  {
    |Filter(apps, IsPendente)|
  }

  /** The welcome count is zero exactly when no booking is pending. */
  lemma TotalPendentesZero(apps: seq<Appointment>)
    ensures TotalPendentes(apps) == 0 <==> forall a :: a in apps ==> a.status != PENDENTE
  {
    var p := Filter(apps, IsPendente);
    if p != [] {
      assert p[0] in p;
    }
    forall a | a in apps && IsPendente(a) ensures a in p {
      FilterComplete(apps, IsPendente, a);
    }
  }

  /** The filtered list is an order-preserving subsequence of the bookings. */
  lemma FiltradosSubsequence(apps: seq<Appointment>, filtroServico: string, filtroHorario: string)
    ensures SubsequenceOf(Filtrados(apps, filtroServico, filtroHorario), apps)
  {
    FilterSubsequence(apps, a => Matches(a, filtroServico, filtroHorario));
  }

  /** With both filter fields empty, every booking is shown. */
  lemma FiltradosSemFiltro(apps: seq<Appointment>)
    ensures Filtrados(apps, "", "") == apps
  {
    FilterAll(apps, a => Matches(a, "", ""));
  }

  /**
   * Counted with multiplicity, the shown bookings and the hidden ones make up
   * the whole list: every copy of a matching booking is shown.
   */
  lemma FiltradosPermutation(apps: seq<Appointment>, filtroServico: string, filtroHorario: string)
    ensures multiset(Filtrados(apps, filtroServico, filtroHorario)) +
      multiset(Filter(apps, a => !Matches(a, filtroServico, filtroHorario))) == multiset(apps)
  {
    FilterPartition(apps, a => Matches(a, filtroServico, filtroHorario), a => !Matches(a, filtroServico, filtroHorario));
  }

  /** Every booking that meets both filters is shown. */
  lemma FiltradosComplete(apps: seq<Appointment>, filtroServico: string, filtroHorario: string, a: Appointment)
    requires a in apps
    requires filtroServico == "" || Contains(Lower(a.service), Lower(filtroServico))
    requires filtroHorario == "" || Contains(a.time, filtroHorario)
    ensures a in Filtrados(apps, filtroServico, filtroHorario)
  {
    FilterComplete(apps, a => Matches(a, filtroServico, filtroHorario), a);
  }

  /** The service filter ignores the case of the text typed into it. */
  lemma FiltradosCaseInsensitive(apps: seq<Appointment>, filtroServico: string, filtroHorario: string)
    ensures Filtrados(apps, Lower(filtroServico), filtroHorario) == Filtrados(apps, filtroServico, filtroHorario)
  {
    LowerIdempotent(filtroServico);
    LowerEmpty(filtroServico);
    var p := a => Matches(a, Lower(filtroServico), filtroHorario);
    var q := a => Matches(a, filtroServico, filtroHorario);
    assert forall a :: p(a) == q(a);
    FilterExtensional(apps, p, q);
  }

  /** Two filters that agree on every element give the same result. */
  lemma {:induction false} FilterExtensional(s: seq<Appointment>, p: Appointment -> bool, q: Appointment -> bool)
    requires forall a :: p(a) == q(a)
    ensures Filter(s, p) == Filter(s, q)
    decreases |s|
  {
    if s != [] {
      FilterExtensional(s[1..], p, q);
    }
  }

  /**
   * When every booking is pending or done, the pending and done lists together
   * are a permutation of the filtered list, so their lengths add up to it.
   */
  lemma PartitionByStatus(filtrados: seq<Appointment>)
    requires forall a :: a in filtrados ==> a.status == PENDENTE || a.status == FEITO
    ensures multiset(Pendentes(filtrados)) + multiset(Feitos(filtrados)) == multiset(filtrados)
    ensures |Pendentes(filtrados)| + |Feitos(filtrados)| == |filtrados|
    ensures SubsequenceOf(Pendentes(filtrados), filtrados) && SubsequenceOf(Feitos(filtrados), filtrados)
  {
    FilterPartition(filtrados, IsPendente, IsFeito);
    FilterSubsequence(filtrados, IsPendente);
    FilterSubsequence(filtrados, IsFeito);
  }

  /** The welcome count is the length of the unfiltered pending list. */
  lemma TotalPendentesIsPendentes(apps: seq<Appointment>)
    ensures TotalPendentes(apps) == |Pendentes(Filtrados(apps, "", ""))|
  {
    FiltradosSemFiltro(apps);
  }

  /**
   * A button on a shown item acts through `appointments.indexOf(item)`: that
   * index is in range and holds the item, so the operation hits the item shown.
   */
  lemma IndexOfShownItem(apps: seq<Appointment>, filtroServico: string, filtroHorario: string, item: Appointment)
    requires item in Pendentes(Filtrados(apps, filtroServico, filtroHorario))
    ensures 0 <= IndexOf(apps, item) < |apps|
    ensures apps[IndexOf(apps, item)] == item && item.status == PENDENTE
  {
  }

  /** Marking a pending booking done lowers the pending count by one. */
  lemma MarcarFeitoTotalPendentes(apps: seq<Appointment>, id: int, now: Day)
    requires 0 <= id < |apps| && apps[id].status == PENDENTE
    ensures TotalPendentes(MarcarFeito(apps, id, now)) == TotalPendentes(apps) - 1
  {
    var m := apps[id].(status := FEITO, feitoEm := Some(now));
    MarcarFeitoSplit(apps, id, now);
    assert apps == apps[..id] + [apps[id]] + apps[id + 1..];
    FilterAppend(apps[..id] + [m], apps[id + 1..], IsPendente);
    FilterAppend(apps[..id], [m], IsPendente);
    FilterAppend(apps[..id] + [apps[id]], apps[id + 1..], IsPendente);
    FilterAppend(apps[..id], [apps[id]], IsPendente);
  }

  /** Cancelling a booking lowers the pending count by one exactly when it was pending. */
  lemma CancelarTotalPendentes(apps: seq<Appointment>, id: int)
    requires 0 <= id < |apps|
    ensures TotalPendentes(CancelarAgendamento(apps, id)) ==
      TotalPendentes(apps) - (if apps[id].status == PENDENTE then 1 else 0)
  {
    assert apps == apps[..id] + [apps[id]] + apps[id + 1..];
    FilterAppend(apps[..id], apps[id + 1..], IsPendente);
    FilterAppend(apps[..id] + [apps[id]], apps[id + 1..], IsPendente);
    FilterAppend(apps[..id], [apps[id]], IsPendente);
  }

  /** Adding a new booking raises the pending count by one. */
  lemma AdicionarTotalPendentes(apps: seq<Appointment>, a: Appointment)
    requires a.status == PENDENTE
    ensures TotalPendentes(apps + [a]) == TotalPendentes(apps) + 1
  {
    FilterAppend(apps, [a], IsPendente);
  }

  /** With well-formed bookings, pending and done bookings account for all of them. */
  lemma PendentesMaisFeitos(apps: seq<Appointment>)
    requires AllWellFormed(apps)
    ensures TotalPendentes(apps) + |Feitos(apps)| == |apps|
  {
    forall a | a in apps ensures a.status == PENDENTE || a.status == FEITO {
      var i :| 0 <= i < |apps| && apps[i] == a;
      assert WellFormed(apps[i]);
    }
    PartitionByStatus(apps);
  }
}
