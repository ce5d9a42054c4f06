/**
 * The screen state that changes step by step: the appointment list owned by
 * the app root and shared with the screens, the Agenda screen's two buttons,
 * and the Cadastro screen's form and quick-service wizard.
 */
module Screens {
  import opened Wrappers
  import opened Appointments

  /** The services offered by the quick-service buttons. */
  const ServicosRapidos: seq<string> := ["Progressiva", "Corte de cabelo", "Unha", "Escova"]

  /** The `appointments` state of the app root; every screen reads and replaces it. */
  class AppState {
    var appointments: seq<Appointment>

    ghost predicate Valid()
      reads this
    {
      AllWellFormed(appointments)
    }

    /** `useState([])`: the app starts with no bookings. */
    constructor ()
      ensures Valid() && appointments == []
    {
      appointments := [];
    }
  }

  /** The Agenda screen: its buttons replace the shared list. */
  class AgendaScreen {
    const app: AppState

    constructor (app: AppState)
      ensures this.app == app
    {
      this.app := app;
    }

    /** The "Feito" button: the booking at `id` becomes done on day `now`. */
    method MarcarFeito(id: int, now: Day)
      requires app.Valid()
      modifies app
      ensures app.Valid()
      ensures app.appointments == Appointments.MarcarFeito(old(app.appointments), id, now)
    {
      MarcarFeitoWellFormed(app.appointments, id, now);
      app.appointments := Appointments.MarcarFeito(app.appointments, id, now);
    }

    /** The "Cancelar" button: the booking at `id` is removed. */
    method CancelarAgendamento(id: int)
      requires app.Valid()
      modifies app
      ensures app.Valid()
      ensures app.appointments == Appointments.CancelarAgendamento(old(app.appointments), id)
    {
      CancelarWellFormed(app.appointments, id);
      app.appointments := Appointments.CancelarAgendamento(app.appointments, id);
    }
  }

  /**
   * The Cadastro screen: the booking form (`nome`, `servico`, `valor` and the
   * date and time labels) and the quick-service wizard, whose step `etapa`
   * runs from 0 (name) over 1 (value) and 2 (date) to 3 (time).
   */
  class CadastroScreen {
    const app: AppState
    var nome: string
    var servico: string
    var valor: string
    var data: string
    var horario: string
    var modalVisible: bool
    var servicoRapido: string
    var etapa: int
    var rapidoNome: string
    var rapidoValor: string
    var rapidoData: string
    var rapidoHora: string

    /**
     * The wizard invariant: the step stays within 0..3, an open wizard holds a
     * catalogue service, and each step past the name or the value step was
     * reached with that field filled in.
     */
    ghost predicate Valid()
      reads this, app
    {
      app.Valid() &&
      0 <= etapa <= 3 &&
      (modalVisible ==> servicoRapido in ServicosRapidos) &&
      (etapa >= 1 ==> rapidoNome != "") &&
      (etapa >= 2 ==> rapidoValor != "")
    }

    /** The initial form: empty text fields, date and time labels of the moment the screen opens. */
    constructor (app: AppState, hoje: string, agora: string)
      requires app.Valid()
      ensures Valid() && this.app == app
      ensures nome == "" && servico == "" && valor == "" && data == hoje && horario == agora
      ensures !modalVisible && servicoRapido == "" && etapa == 0
      ensures rapidoNome == "" && rapidoValor == "" && rapidoData == hoje && rapidoHora == agora
    {
      this.app := app;
      nome, servico, valor, data, horario := "", "", "", hoje, agora;
      modalVisible, servicoRapido, etapa := false, "", 0;
      rapidoNome, rapidoValor, rapidoData, rapidoHora := "", "", hoje, agora;
    }

    /**
     * The "Adicionar" button. With the name, service or value field empty it
     * only alerts; otherwise it appends one pending booking built from the form
     * (`valorNumerico` is what `parseFloat` reads from `valor`) and clears the
     * three text fields.
     */
    method AdicionarAgendamento(valorNumerico: real)
      requires Valid()
      modifies app, this`nome, this`servico, this`valor
      ensures Valid()
      ensures old(nome) == "" || old(servico) == "" || old(valor) == "" ==>
        app.appointments == old(app.appointments) &&
        nome == old(nome) && servico == old(servico) && valor == old(valor)
      ensures old(nome) != "" && old(servico) != "" && old(valor) != "" ==>
        app.appointments == old(app.appointments) + [NovoAgendamento(old(nome), old(servico), valorNumerico, data, horario)] &&
        nome == "" && servico == "" && valor == ""
    {
      if nome != "" && servico != "" && valor != "" {
        var novo := NovoAgendamento(nome, servico, valorNumerico, data, horario);
        AppendWellFormed(app.appointments, novo);
        app.appointments := app.appointments + [novo];
        nome, servico, valor := "", "", "";
      }
    }

    /** A quick-service button: opens the wizard at step 0 for service `tipo`. */
    method IniciarServicoRapido(tipo: string, hoje: string, agora: string)
      requires Valid() && tipo in ServicosRapidos
      modifies this`servicoRapido, this`etapa, this`rapidoNome, this`rapidoData, this`rapidoHora, this`rapidoValor, this`modalVisible
      ensures Valid()
      ensures servicoRapido == tipo && etapa == 0 && modalVisible
      ensures rapidoNome == "" && rapidoValor == "" && rapidoData == hoje && rapidoHora == agora
    {
      servicoRapido, etapa := tipo, 0;
      rapidoNome, rapidoData, rapidoHora, rapidoValor := "", hoje, agora, "";
      modalVisible := true;
    }

    /** The name field, shown at step 0 of the open wizard. */
    method DigitarRapidoNome(s: string)
      requires Valid() && modalVisible && etapa == 0
      modifies this`rapidoNome
      ensures Valid() && rapidoNome == s
    {
      rapidoNome := s;
    }

    /** The value field, shown at step 1 of the open wizard. */
    method DigitarRapidoValor(s: string)
      requires Valid() && modalVisible && etapa == 1
      modifies this`rapidoValor
      ensures Valid() && rapidoValor == s
    {
      rapidoValor := s;
    }

    /** The date picker, shown at step 2 of the open wizard. */
    method EscolherRapidoData(rotulo: string)
      requires Valid() && modalVisible && etapa == 2
      modifies this`rapidoData
      ensures Valid() && rapidoData == rotulo
    {
      rapidoData := rotulo;
    }

    /** The time picker, shown at step 3 of the open wizard. */
    method EscolherRapidoHora(rotulo: string)
      requires Valid() && modalVisible && etapa == 3
      modifies this`rapidoHora
      ensures Valid() && rapidoHora == rotulo
    {
      rapidoHora := rotulo;
    }

    /**
     * The wizard's confirm button. An empty name at step 0 or an empty value
     * at step 1 only alerts. At step 3 it appends one pending booking for the
     * chosen quick service (`valorNumerico` is what `parseFloat` reads from
     * `rapidoValor`) and closes the wizard. At any other step it advances.
     */
    method ConfirmarEtapa(valorNumerico: real)
      requires Valid() && modalVisible
      modifies app, this`etapa, this`modalVisible
      ensures Valid()
      ensures (old(etapa) == 0 && rapidoNome == "") || (old(etapa) == 1 && rapidoValor == "") ==>
        etapa == old(etapa) && modalVisible && app.appointments == old(app.appointments)
      ensures old(etapa) == 3 ==>
        etapa == 3 && !modalVisible &&
        app.appointments == old(app.appointments) + [NovoAgendamento(rapidoNome, servicoRapido, valorNumerico, rapidoData, rapidoHora)] &&
        servicoRapido in ServicosRapidos && rapidoNome != "" && rapidoValor != ""
      ensures old(etapa) < 3 && !((old(etapa) == 0 && rapidoNome == "") || (old(etapa) == 1 && rapidoValor == "")) ==>
        etapa == old(etapa) + 1 && modalVisible && app.appointments == old(app.appointments)
    {
      if etapa == 0 && rapidoNome == "" {
        return;
      }
      if etapa == 1 && rapidoValor == "" {
        return;
      }
      if etapa == 3 {
        var novo := NovoAgendamento(rapidoNome, servicoRapido, valorNumerico, rapidoData, rapidoHora);
        AppendWellFormed(app.appointments, novo);
        app.appointments := app.appointments + [novo];
        modalVisible := false;
        return;
      }
      etapa := etapa + 1;
    }
  }

  /**
   * A full pass through the quick-service wizard adds exactly one pending
   * booking, for the chosen service and the typed name.
   */
  method WizardCompleto(app: AppState, hoje: string, agora: string)
    requires app.Valid()
    modifies app
  {
    var tela := new CadastroScreen(app, hoje, agora);
    var antes := app.appointments;
    tela.IniciarServicoRapido("Unha", hoje, agora);
    tela.ConfirmarEtapa(0.0);
    assert tela.etapa == 0;
    tela.DigitarRapidoNome("Ana");
    tela.ConfirmarEtapa(0.0);
    tela.DigitarRapidoValor("50");
    tela.ConfirmarEtapa(0.0);
    tela.ConfirmarEtapa(0.0);
    assert tela.etapa == 3 && app.appointments == antes;
    tela.ConfirmarEtapa(50.0);
    assert app.appointments == antes + [NovoAgendamento("Ana", "Unha", 50.0, hoje, agora)];
    assert !tela.modalVisible;
  }
}
