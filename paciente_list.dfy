/** `pacientes/paciente-list/paciente-list.component.ts`: the patient table with its
    search box, and deletion of a row. The filter defined here is shared with the
    observation list, which repeats it. */
module ListaPacientes {
  import opened Wrappers
  import opened Texto
  import opened Listas
  import opened Http
  import opened Busqueda
  import UsuarioModelo
  import ConfiguracionSeguridad

  const MensajeErrorCarga: string := "Error al cargar la lista de pacientes."
  const MensajeErrorEliminar: string := "Error al eliminar el paciente."
  const RutaDashboard: string := "/dashboard"

  /** The fields of a patient the list reads; every one may be missing. */
  datatype PacienteVista = PacienteVista(id: Option<string>, nombre: Option<string>,
                                         apellido: Option<string>, documento: Option<string>)

  /** The row test for a lower-cased term: documento, nombre or apellido contains it,
      ignoring case. */
  predicate Coincide(p: PacienteVista, termino: string) {
    CampoContiene(p.documento, termino) || CampoContiene(p.nombre, termino)
    || CampoContiene(p.apellido, termino)
  }

  /** `filtrarPacientes`: a blank term shows every patient; any other term is lower-cased
      (not trimmed) and keeps exactly the matching patients, each as often as it occurs. */
  function Filtrado(pacientes: seq<PacienteVista>, busqueda: string): (r: seq<PacienteVista>)
    ensures IsBlank(busqueda) ==> r == pacientes
    ensures !IsBlank(busqueda) ==>
      forall p: PacienteVista ::
        multiset(r)[p] == if Coincide(p, ToLower(busqueda)) then multiset(pacientes)[p] else 0
  {
    TrimProperties(busqueda);
    if Trim(busqueda) == [] then pacientes
    else
      var termino := ToLower(busqueda);
      Filtrar(pacientes, p => Coincide(p, termino))
  }

  /** The filtered list keeps the order of the full list. */
  lemma FiltradoEsSubsecuencia(pacientes: seq<PacienteVista>, busqueda: string)
    ensures EsSubsecuencia(Filtrado(pacientes, busqueda), pacientes)
  {
    if IsBlank(busqueda) {
      SubsecuenciaReflexiva(pacientes);
    } else {
      var termino := ToLower(busqueda);
      FiltrarEsSubsecuencia(pacientes, p => Coincide(p, termino));
    }
  }

  /** The search ignores the case of the term. */
  lemma FiltradoIgnoraMayusculas(pacientes: seq<PacienteVista>, busqueda: string)
    ensures Filtrado(pacientes, ToLower(busqueda)) == Filtrado(pacientes, busqueda)
  {
    ToLowerBlank(busqueda);
    ToLowerIdempotent(busqueda);
  }

  /** Typing more characters after a non-blank term can only remove rows. */
  lemma FiltradoSeEstrecha(pacientes: seq<PacienteVista>, busqueda: string, mas: string)
    requires !IsBlank(busqueda)
    ensures EsSubsecuencia(Filtrado(pacientes, busqueda + mas), Filtrado(pacientes, busqueda))
  {
    NoBlankConcat(busqueda, mas);
    var largo := ToLower(busqueda + mas);
    var corto := ToLower(busqueda);
    forall p | Coincide(p, largo) ensures Coincide(p, corto) {
      if CampoContiene(p.documento, largo) {
        CampoContieneMasLargo(p.documento, busqueda, mas);
      }
      if CampoContiene(p.nombre, largo) {
        CampoContieneMasLargo(p.nombre, busqueda, mas);
      }
      if CampoContiene(p.apellido, largo) {
        CampoContieneMasLargo(p.apellido, busqueda, mas);
      }
    }
    FiltrarMasEstricto(pacientes, p => Coincide(p, largo), p => Coincide(p, corto));
  }

  predicate OtroId(p: PacienteVista, id: string) {
    p.id != Some(id)
  }

  /** `pacientes.filter(p => p.id !== id)`: every row with that id goes, every other row
      stays, in order. */
  function SinId(pacientes: seq<PacienteVista>, id: string): (r: seq<PacienteVista>)
    ensures forall k :: 0 <= k < |r| ==> r[k].id != Some(id)
    ensures forall p: PacienteVista :: p.id != Some(id) ==> multiset(r)[p] == multiset(pacientes)[p]
    ensures EsSubsecuencia(r, pacientes)
  {
    FiltrarEsSubsecuencia(pacientes, p => OtroId(p, id));
    var r := Filtrar(pacientes, p => OtroId(p, id));
    assert forall k :: 0 <= k < |r| ==> r[k] in r;
    r
  }

  class ComponenteLista {
    var pacientes: seq<PacienteVista>
    var pacientesFiltrados: seq<PacienteVista>
    var isLoading: bool
    var errorMessage: Option<string>
    /** The search control's value (null after a reset). */
    var busqueda: Option<string>
    /** Calls of `getPacientes`. */
    var cargas: nat
    /** Ids whose deletion was requested, oldest first. */
    var eliminaciones: seq<string>
    /** Router navigations (as route segments), oldest first. */
    var navegaciones: seq<seq<string>>

    /** What the table shows is always drawn, in order, from the loaded patients. */
    ghost predicate Valid()
      reads this
    {
      EsSubsecuencia(pacientesFiltrados, pacientes)
    }

    constructor ()
      ensures Valid()
      ensures pacientes == [] && pacientesFiltrados == [] && !isLoading && errorMessage.None?
      ensures busqueda == Some("") && cargas == 0 && eliminaciones == [] && navegaciones == []
    {
      pacientes := [];
      pacientesFiltrados := [];
      isLoading := false;
      errorMessage := None;
      busqueda := Some("");
      cargas := 0;
      eliminaciones := [];
      navegaciones := [];
    }

    /** `cargarPacientes` (also what `ngOnInit` does first): one request, busy, no error. */
    method CargarPacientes()
      modifies this
      requires Valid()
      ensures Valid()
      ensures cargas == old(cargas) + 1 && isLoading && errorMessage.None?
      ensures pacientes == old(pacientes) && pacientesFiltrados == old(pacientesFiltrados)
      ensures busqueda == old(busqueda) && eliminaciones == old(eliminaciones)
      ensures navegaciones == old(navegaciones)
    {
      isLoading := true;
      errorMessage := None;
      cargas := cargas + 1;
    }

    /** The load's success callback: both lists become the fetched list, whatever the
        search box holds. */
    method AlCargar(recibidos: seq<PacienteVista>)
      modifies this
      ensures Valid()
      ensures pacientes == recibidos && pacientesFiltrados == recibidos && !isLoading
      ensures errorMessage == old(errorMessage) && busqueda == old(busqueda)
      ensures cargas == old(cargas) && eliminaciones == old(eliminaciones)
      ensures navegaciones == old(navegaciones)
    {
      pacientes := recibidos;
      pacientesFiltrados := recibidos;
      isLoading := false;
      SubsecuenciaReflexiva(recibidos);
    }

    /** The load's error callback: the lists stay as they were. */
    method AlFallarCarga()
      modifies this
      requires Valid()
      ensures Valid()
      ensures errorMessage == Some(MensajeErrorCarga) && !isLoading
      ensures pacientes == old(pacientes) && pacientesFiltrados == old(pacientesFiltrados)
      ensures busqueda == old(busqueda) && cargas == old(cargas)
      ensures eliminaciones == old(eliminaciones) && navegaciones == old(navegaciones)
    {
      errorMessage := Some(MensajeErrorCarga);
      isLoading := false;
    }

    /** `filtrarPacientes(termino)`. */
    method FiltrarPacientes(termino: string)
      modifies this
      ensures Valid()
      ensures pacientesFiltrados == Filtrado(pacientes, termino)
      ensures unchanged(this`pacientes, this`isLoading, this`errorMessage, this`busqueda,
                        this`cargas, this`eliminaciones, this`navegaciones)
    {
      if Trim(termino) == [] {
        TrimProperties(termino);
        pacientesFiltrados := pacientes;
      } else {
        var t := ToLower(termino);
        pacientesFiltrados := Filtrar(pacientes, p => Coincide(p, t));
      }
      FiltradoEsSubsecuencia(pacientes, termino);
    }

    /** A new value in the search box is filtered on (`searchTerm || ''`). */
    method AlCambiarBusqueda(valor: Option<string>)
      modifies this
      ensures Valid()
      ensures busqueda == valor && pacientesFiltrados == Filtrado(pacientes, OrElse(valor, ""))
      ensures pacientes == old(pacientes) && isLoading == old(isLoading)
      ensures errorMessage == old(errorMessage) && cargas == old(cargas)
      ensures eliminaciones == old(eliminaciones) && navegaciones == old(navegaciones)
    {
      busqueda := valor;
      var termino := OrElse(valor, "");
      FiltrarPacientes(termino);
    }

    /** `editarPaciente`: only a patient with an id opens its personal-data page. */
    method EditarPaciente(p: PacienteVista)
      modifies this
      requires Valid()
      ensures Valid()
      ensures Truthy(p.id) ==>
        navegaciones == old(navegaciones) + [["/pacientes", p.id.value, "detalle", "datos-personales"]]
      ensures !Truthy(p.id) ==> navegaciones == old(navegaciones)
      ensures pacientes == old(pacientes) && pacientesFiltrados == old(pacientesFiltrados)
      ensures isLoading == old(isLoading) && errorMessage == old(errorMessage)
      ensures busqueda == old(busqueda) && cargas == old(cargas)
      ensures eliminaciones == old(eliminaciones)
    {
      if p.id.Some? && p.id.value != [] {
        navegaciones := navegaciones + [["/pacientes", p.id.value, "detalle", "datos-personales"]];
      }
    }

    /** `eliminarPaciente`, given the user's answer to the confirmation dialog (asked only
        for a patient with an id): the request is sent only for an id and a confirmation. */
    method EliminarPaciente(p: PacienteVista, confirma: bool)
      modifies this
      requires Valid()
      ensures Valid()
      ensures Truthy(p.id) && confirma ==>
        eliminaciones == old(eliminaciones) + [p.id.value] && isLoading
      ensures !(Truthy(p.id) && confirma) ==>
        eliminaciones == old(eliminaciones) && isLoading == old(isLoading)
      ensures pacientes == old(pacientes) && pacientesFiltrados == old(pacientesFiltrados)
      ensures errorMessage == old(errorMessage) && busqueda == old(busqueda)
      ensures cargas == old(cargas) && navegaciones == old(navegaciones)
    {
      if p.id.Some? && p.id.value != [] && confirma {
        isLoading := true;
        eliminaciones := eliminaciones + [p.id.value];
      }
    }

    /** The deletion's success callback: the rows with that id leave the local list, with
        no reload, and the current search is applied again. */
    method AlEliminar(id: string)
      modifies this
      ensures Valid()
      ensures pacientes == SinId(old(pacientes), id)
      ensures pacientesFiltrados == Filtrado(pacientes, OrElse(busqueda, ""))
      ensures !isLoading && errorMessage.None?
      ensures busqueda == old(busqueda) && cargas == old(cargas)
      ensures eliminaciones == old(eliminaciones) && navegaciones == old(navegaciones)
    {
      pacientes := SinId(pacientes, id);
      isLoading := false;
      errorMessage := None;
      var termino := OrElse(busqueda, "");
      FiltrarPacientes(termino);
    }

    /** The deletion's error callback: both lists stay as they were. */
    method AlFallarEliminar()
      modifies this
      requires Valid()
      ensures Valid()
      ensures errorMessage == Some(MensajeErrorEliminar) && !isLoading
      ensures pacientes == old(pacientes) && pacientesFiltrados == old(pacientesFiltrados)
      ensures busqueda == old(busqueda) && cargas == old(cargas)
      ensures eliminaciones == old(eliminaciones) && navegaciones == old(navegaciones)
    {
      errorMessage := Some(MensajeErrorEliminar);
      isLoading := false;
    }

    method VolverAlDashboard()
      modifies this
      requires Valid()
      ensures Valid()
      ensures navegaciones == old(navegaciones) + [[RutaDashboard]]
      ensures pacientes == old(pacientes) && pacientesFiltrados == old(pacientesFiltrados)
      ensures isLoading == old(isLoading) && errorMessage == old(errorMessage)
      ensures busqueda == old(busqueda) && cargas == old(cargas)
      ensures eliminaciones == old(eliminaciones)
    {
      navegaciones := navegaciones + [[RutaDashboard]];
    }
  }

  /** After a deletion succeeds, no row with the deleted id is shown. */
  lemma EliminadoNoSeMuestra(pacientes: seq<PacienteVista>, id: string, busqueda: string)
    ensures forall k :: 0 <= k < |Filtrado(SinId(pacientes, id), busqueda)| ==>
      Filtrado(SinId(pacientes, id), busqueda)[k].id != Some(id)
  {
    var restantes := SinId(pacientes, id);
    var r := Filtrado(restantes, busqueda);
    forall k | 0 <= k < |r| ensures r[k].id != Some(id) {
      assert r[k] in multiset(r);
      assert r[k] in multiset(restantes);
    }
  }

  /** The list's requests meet the backend's rules: loading it (GET "/api/pacientes") is
      refused to a TECNICO, and deleting a row (DELETE "/api/pacientes/" + id) is for ADMIN
      and MEDICO only. */
  lemma PeticionesSegunRol(id: string, u: UsuarioModelo.Usuario)
    requires u.rol.Some?
    ensures ConfiguracionSeguridad.Autorizado(ConfiguracionSeguridad.GET, "/api/pacientes",
                                              Some(UsuarioModelo.Authorities(u)))
            <==> u.rol.value != UsuarioModelo.TECNICO
    ensures ConfiguracionSeguridad.Autorizado(ConfiguracionSeguridad.DELETE, "/api/pacientes/" + id,
                                              Some(UsuarioModelo.Authorities(u)))
            <==> u.rol.value in {UsuarioModelo.ADMIN, UsuarioModelo.MEDICO}
  {
    ConfiguracionSeguridad.ConsultarPacientes("/api/pacientes", u);
    assert StartsWith("/api/pacientes/" + id, "/api/pacientes/");
    ConfiguracionSeguridad.ModificarPacienteSoloAdminOMedico(ConfiguracionSeguridad.DELETE, "/api/pacientes/" + id, u);
  }
}
