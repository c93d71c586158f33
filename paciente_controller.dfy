/** `controller/PacienteController.java`: how each patient endpoint turns the service's
    result or exception into an HTTP response. */
module PacienteControlador {
  import opened Wrappers
  import opened PacienteModelo
  import opened PacienteServicio

  datatype Cuerpo = SinCuerpo | UnPaciente(paciente: Paciente) | Pacientes(todos: set<Paciente>)

  datatype Respuesta = Respuesta(status: nat, cuerpo: Cuerpo)

  /** POST /api/pacientes: 200 with exactly the record `crearPaciente` returned. */
  function RespuestaCrear(creado: Paciente): (r: Respuesta)
    ensures r.status == 200 && r.cuerpo == UnPaciente(creado)
  {
    Respuesta(200, UnPaciente(creado))
  }

  /** GET /api/pacientes/{id}: 200 with the patient when found, 404 with no body otherwise. */
  function RespuestaBuscar(encontrado: Option<Paciente>): (r: Respuesta)
    ensures r.status == 200 <==> encontrado.Some?
    ensures r.status == 404 <==> encontrado.None?
    ensures encontrado.Some? ==> r.cuerpo == UnPaciente(encontrado.value)
    ensures encontrado.None? ==> r.cuerpo == SinCuerpo
  {
    match encontrado
    case Some(p) => Respuesta(200, UnPaciente(p))
    case None => Respuesta(404, SinCuerpo)
  }

  /** PUT /api/pacientes/{id}: 200 with the updated patient; ANY runtime exception of the
      service, the merge failure included, becomes 404. */
  function RespuestaActualizar(resultado: Result<Paciente, ErrorServicio>): (r: Respuesta)
    ensures resultado.Ok? ==> r == Respuesta(200, UnPaciente(resultado.value))
    ensures resultado.Err? ==> r == Respuesta(404, SinCuerpo)
  {
    match resultado
    case Ok(p) => Respuesta(200, UnPaciente(p))
    case Err(_) => Respuesta(404, SinCuerpo)
  }

  /** DELETE /api/pacientes/{id}: always 204, whether or not the id existed. */
  function RespuestaEliminar(): (r: Respuesta)
    ensures r.status == 204 && r.cuerpo == SinCuerpo
  {
    Respuesta(204, SinCuerpo)
  }

  /** POST endpoint: delegates to the service and answers 200 with what it created. */
  method Crear(s: Servicio, paciente: Paciente, idGenerado: string) returns (r: Respuesta)
    requires s.Valid()
    modifies s
    ensures s.Valid()
    // The answer carries the request with the assigned id and the QR URL of that id, the
    // store holds exactly that record under the id, and the QR mail goes out as
    // `crearPaciente` sends it.
    ensures var id := IdAsignado(paciente, idGenerado);
      var creado := paciente.(id := Some(id), qrCodeData := Some(QrUrl(id)));
      && r == Respuesta(200, UnPaciente(creado))
      && s.pacientes == old(s.pacientes)[id := creado]
      && s.enviosQr == old(s.enviosQr) + EnvioSiHayEmails(id, paciente.emails, creado.qrCodeData)
  {
    var nuevo := s.CrearPaciente(paciente, idGenerado);
    r := RespuestaCrear(nuevo);
  }

  /** GET on the collection: always 200, with every stored patient and no other record. */
  function Listar(s: Servicio): (r: Respuesta)
    reads s
    requires s.Valid()
    ensures r.status == 200 && r.cuerpo.Pacientes?
    ensures forall k :: k in s.pacientes ==> s.pacientes[k] in r.cuerpo.todos
    ensures forall p :: p in r.cuerpo.todos ==> p.id.Some? && s.BuscarPorId(p.id.value) == Some(p)
  {
    Respuesta(200, Pacientes(s.ListarTodos()))
  }

  /** GET endpoint: 200 exactly when the id is stored. */
  function Buscar(s: Servicio, id: string): (r: Respuesta)
    reads s
    requires s.Valid()
    ensures r.status == 200 <==> id in s.pacientes
    ensures id in s.pacientes ==> r.cuerpo == UnPaciente(s.pacientes[id])
    ensures id !in s.pacientes ==> r.status == 404
  {
    RespuestaBuscar(s.BuscarPorId(id))
  }

  /** PUT endpoint: 404 and nothing stored or mailed for an unknown id; 200 with the merge
      otherwise. */
  method Actualizar(s: Servicio, id: string, cambios: Paciente) returns (r: Respuesta)
    requires s.Valid()
    modifies s
    ensures s.Valid()
    ensures id !in old(s.pacientes) ==>
      r.status == 404 && s.pacientes == old(s.pacientes) && s.enviosQr == old(s.enviosQr)
    // The stored record is replaced by the merge, and the QR is mailed again only when the
    // update changed the email list.
    ensures id in old(s.pacientes) ==>
      var fusionado := Fusionar(old(s.pacientes)[id], cambios);
      && r == Respuesta(200, UnPaciente(fusionado))
      && s.pacientes == old(s.pacientes)[id := fusionado]
      && s.enviosQr == old(s.enviosQr) + ReenvioTrasActualizar(old(s.pacientes)[id], cambios)
  {
    var resultado := s.ActualizarPaciente(id, cambios);
    r := RespuestaActualizar(resultado);
  }

  /** DELETE endpoint: removes the id and answers 204. */
  method Eliminar(s: Servicio, id: string) returns (r: Respuesta)
    requires s.Valid()
    modifies s
    ensures s.Valid()
    ensures r == Respuesta(204, SinCuerpo) && id !in s.pacientes
    ensures s.pacientes == old(s.pacientes) - {id} && s.enviosQr == old(s.enviosQr)
  {
    s.EliminarPaciente(id);
    r := RespuestaEliminar();
  }
}
