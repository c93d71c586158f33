/** `pacientes/paciente-observar-list/paciente-observar-list.component.ts`: the read-only
    patient list from which a patient's observation page is opened. Its search is the
    patient list's search. */
module ListaObservar {
  import opened Wrappers
  import opened Listas
  import opened Http
  import opened ListaPacientes

  class ComponenteObservar {
    var pacientes: seq<PacienteVista>
    var pacientesFiltrados: seq<PacienteVista>
    var isLoading: bool
    var errorMessage: Option<string>
    /** The search box's value (`searchControl`), null when cleared. */
    var busqueda: Option<string>
    /** Calls of `getPacientes`. */
    var cargas: nat
    /** Router navigations (as route segments), oldest first. */
    var navegaciones: seq<seq<string>>

    /** What the table shows is always drawn, in order, from the loaded patients. */
    ghost predicate Valid()
      reads this
    {
      EsSubsecuencia(pacientesFiltrados, pacientes)
    }

    constructor ()
      ensures Valid()
      ensures pacientes == [] && pacientesFiltrados == [] && !isLoading && errorMessage.None?
      ensures busqueda == Some("") && cargas == 0 && navegaciones == []
    {
      pacientes := [];
      pacientesFiltrados := [];
      isLoading := false;
      errorMessage := None;
      busqueda := Some("");
      cargas := 0;
      navegaciones := [];
    }

    /** `cargarPacientes`: one request, busy, no error. */
    method CargarPacientes()
      modifies this
      requires Valid()
      ensures Valid()
      ensures cargas == old(cargas) + 1 && isLoading && errorMessage.None?
      ensures pacientes == old(pacientes) && pacientesFiltrados == old(pacientesFiltrados)
      ensures navegaciones == old(navegaciones) && busqueda == old(busqueda)
    {
      isLoading := true;
      errorMessage := None;
      cargas := cargas + 1;
    }

    /** The load's success callback: both lists become the fetched list. */
    method AlCargar(recibidos: seq<PacienteVista>)
      modifies this
      ensures Valid()
      ensures pacientes == recibidos && pacientesFiltrados == recibidos && !isLoading
      ensures errorMessage == old(errorMessage) && cargas == old(cargas)
      ensures navegaciones == old(navegaciones) && busqueda == old(busqueda)
    {
      pacientes := recibidos;
      pacientesFiltrados := recibidos;
      isLoading := false;
      SubsecuenciaReflexiva(recibidos);
    }

    /** The load's error callback: the message is set, the lists stay as they were. */
    method AlFallarCarga()
      modifies this
      requires Valid()
      ensures Valid()
      ensures errorMessage == Some(MensajeErrorCarga) && !isLoading
      ensures pacientes == old(pacientes) && pacientesFiltrados == old(pacientesFiltrados)
      ensures cargas == old(cargas) && navegaciones == old(navegaciones) && busqueda == old(busqueda)
    {
      errorMessage := Some(MensajeErrorCarga);
      isLoading := false;
    }

    /** `filtrarPacientes(termino)`, the same search as the patient list's. */
    method FiltrarPacientes(termino: string)
      modifies this
      ensures Valid()
      ensures pacientesFiltrados == Filtrado(pacientes, termino)
      ensures unchanged(this`pacientes, this`isLoading, this`errorMessage, this`busqueda,
                        this`cargas, this`navegaciones)
    {
      pacientesFiltrados := Filtrado(pacientes, termino);
      FiltradoEsSubsecuencia(pacientes, termino);
    }

    /** A new value in the search box is filtered on (`searchTerm || ''`). */
    method AlCambiarBusqueda(valor: Option<string>)
      modifies this
      ensures Valid()
      ensures busqueda == valor && pacientesFiltrados == Filtrado(pacientes, OrElse(valor, ""))
      ensures unchanged(this`pacientes, this`isLoading, this`errorMessage, this`cargas,
                        this`navegaciones)
    {
      busqueda := valor;
      FiltrarPacientes(OrElse(valor, ""));
    }

    /** `observarPaciente`: only a patient with an id opens its observation page. */
    method ObservarPaciente(p: PacienteVista)
      modifies this
      requires Valid()
      ensures Valid()
      ensures Truthy(p.id) ==>
        navegaciones == old(navegaciones) + [["/pacientes", p.id.value, "observar"]]
      ensures !Truthy(p.id) ==> navegaciones == old(navegaciones)
      ensures pacientes == old(pacientes) && pacientesFiltrados == old(pacientesFiltrados)
      ensures isLoading == old(isLoading) && errorMessage == old(errorMessage)
      ensures cargas == old(cargas) && busqueda == old(busqueda)
    {
      if p.id.Some? && p.id.value != [] {
        navegaciones := navegaciones + [["/pacientes", p.id.value, "observar"]];
      }
    }

    method VolverAlDashboard()
      modifies this
      requires Valid()
      ensures Valid()
      ensures navegaciones == old(navegaciones) + [[RutaDashboard]]
      ensures pacientes == old(pacientes) && pacientesFiltrados == old(pacientesFiltrados)
      ensures isLoading == old(isLoading) && errorMessage == old(errorMessage)
      ensures cargas == old(cargas) && busqueda == old(busqueda)
    {
      navegaciones := navegaciones + [[RutaDashboard]];
    }
  }
}
