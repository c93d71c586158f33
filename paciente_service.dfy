/** `service/PacienteService.java`: patient creation with its QR URL, partial update with
    QR re-sending, deletion and lookup, over the MongoDB collection. */
module PacienteServicio {
  import opened Wrappers
  import opened PacienteModelo

  /** One call of `qrService.enviarQrPorEmail`: the patient, the recipients, and the text
      the attached QR image encodes. The mail service swallows its own failures, so the
      call is all the service can observe. */
  datatype EnvioQr = EnvioQr(pacienteId: string, destinatarios: seq<string>, contenidoQr: Option<string>)

  /** The `RuntimeException`s `actualizarPaciente` throws. */
  datatype ErrorServicio = PacienteNoEncontrado | ErrorFusion

  function MensajeError(e: ErrorServicio): string {
    match e
    case PacienteNoEncontrado => "Paciente no encontrado"
    case ErrorFusion => "Error al fusionar propiedades del paciente"
  }

  /** The id the repository's `save` gives a document: its own, or a freshly generated one. */
  function IdAsignado(p: Paciente, idGenerado: string): string {
    if p.id.Some? then p.id.value else idGenerado
  }

  /** The QR mail sent after a save, if the patient has at least one address: to the first
      at most two, carrying `contenido`. */
  function EnvioSiHayEmails(id: string, emails: Option<seq<string>>, contenido: Option<string>): (r: seq<EnvioQr>)
    ensures |r| <= 1
    ensures r != [] <==> emails.Some? && emails.value != []
    ensures r != [] ==> r[0].pacienteId == id && r[0].contenidoQr == contenido
                        && r[0].destinatarios == Prioritarios(emails.value)
  {
    if emails.Some? && emails.value != [] then [EnvioQr(id, Prioritarios(emails.value), contenido)] else []
  }

  /** What an update sends: only when the emails were modified, to the merged list. */
  function ReenvioTrasActualizar(existente: Paciente, cambios: Paciente): seq<EnvioQr>
    requires existente.id.Some?
  {
    var fusionado := Fusionar(existente, cambios);
    if EmailsModificados(existente, cambios)
    then EnvioSiHayEmails(existente.id.value, fusionado.emails, fusionado.qrCodeData)
    else []
  }

  /** The QR is re-sent only when the update carries a non-empty email list that differs
      from the stored one, and then to the first at most two of the update's addresses;
      an update that sets `emails` to the empty list sends nothing. */
  lemma ReenvioSoloSiCambianEmails(existente: Paciente, cambios: Paciente)
    requires existente.id.Some?
    ensures ReenvioTrasActualizar(existente, cambios) != [] <==>
      EmailsModificados(existente, cambios) && cambios.emails.value != []
    ensures ReenvioTrasActualizar(existente, cambios) != [] ==>
      ReenvioTrasActualizar(existente, cambios) ==
        [EnvioQr(existente.id.value, Prioritarios(cambios.emails.value), existente.qrCodeData)]
  {
  }

  class Servicio {
    /** The `pacientes` collection, by document id. */
    var pacientes: map<string, Paciente>
    /** Every QR mail handed to the QR service, oldest first. */
    var enviosQr: seq<EnvioQr>

    /** Every stored document carries the id it is stored under. */
    ghost predicate Valid()
      reads this
    {
      forall k :: k in pacientes ==> pacientes[k].id == Some(k)
    }

    constructor ()
      ensures Valid() && pacientes == map[] && enviosQr == []
    {
      pacientes := map[];
      enviosQr := [];
    }

    /** `pacienteRepository.save`: stores the document under its id, generating one for a
        document that has none. */
    method Guardar(p: Paciente, idGenerado: string) returns (guardado: Paciente)
      requires Valid()
      modifies this
      ensures Valid()
      ensures guardado == p.(id := Some(IdAsignado(p, idGenerado)))
      ensures pacientes == old(pacientes)[IdAsignado(p, idGenerado) := guardado]
      ensures enviosQr == old(enviosQr)
    {
      var id := IdAsignado(p, idGenerado);
      guardado := p.(id := Some(id));
      pacientes := pacientes[id := guardado];
    }

    /** `crearPaciente`: save to obtain the id, set the QR URL from it, mail the QR to the
        first at most two addresses if there are any, save again. */
    method CrearPaciente(paciente: Paciente, idGenerado: string) returns (nuevo: Paciente)
      requires Valid()
      modifies this
      ensures Valid()
      ensures nuevo.id == Some(IdAsignado(paciente, idGenerado))
      ensures nuevo == paciente.(id := nuevo.id, qrCodeData := Some(QrUrl(nuevo.id.value)))
      ensures pacientes == old(pacientes)[nuevo.id.value := nuevo]
      ensures enviosQr == old(enviosQr) + EnvioSiHayEmails(nuevo.id.value, paciente.emails, nuevo.qrCodeData)
    {
      var guardado := Guardar(paciente, idGenerado);
      nuevo := guardado.(qrCodeData := Some(QrUrl(guardado.id.value)));
      var emailsParaQr := nuevo.emails;
      if emailsParaQr.Some? && emailsParaQr.value != [] {
        var emailsPrioritarios := Prioritarios(emailsParaQr.value);
        enviosQr := enviosQr + [EnvioQr(nuevo.id.value, emailsPrioritarios, nuevo.qrCodeData)];
      }
      nuevo := Guardar(nuevo, idGenerado);
    }

    /** `buscarPorId`: the stored patient, if any. */
    function BuscarPorId(id: string): (r: Option<Paciente>)
      reads this
      requires Valid()
      ensures r.Some? <==> id in pacientes
      ensures r.Some? ==> r.value == pacientes[id] && r.value.id == Some(id)
    {
      if id in pacientes then Some(pacientes[id]) else None
    }

    /** `listarTodos`: every stored patient and nothing else (the order the collection
        returns them in is not modelled). */
    function ListarTodos(): (r: set<Paciente>)
      reads this
      requires Valid()
      ensures forall k :: k in pacientes ==> pacientes[k] in r
      ensures forall p :: p in r ==> p.id.Some? && p.id.value in pacientes && pacientes[p.id.value] == p
    {
      set k | k in pacientes :: pacientes[k]
    }

    /** `actualizarPaciente`: fails on an unknown id and changes nothing; otherwise stores
        the merge of the update into the stored record and re-sends the QR if the emails
        changed. */
    method ActualizarPaciente(id: string, cambios: Paciente) returns (r: Result<Paciente, ErrorServicio>)
      requires Valid()
      modifies this
      ensures Valid()
      ensures id !in old(pacientes) ==>
        r == Err(PacienteNoEncontrado) && pacientes == old(pacientes) && enviosQr == old(enviosQr)
      ensures id in old(pacientes) ==>
        && r == Ok(Fusionar(old(pacientes)[id], cambios))
        && pacientes == old(pacientes)[id := r.value]
        && enviosQr == old(enviosQr) + ReenvioTrasActualizar(old(pacientes)[id], cambios)
    {
      if id !in pacientes {
        return Err(PacienteNoEncontrado);
      }
      var existente := pacientes[id];
      var emailsModificados := false;
      if cambios.emails.Some? && cambios.emails != existente.emails {
        emailsModificados := true;
      }
      var fusionado := Fusionar(existente, cambios);
      if emailsModificados && fusionado.emails.Some? && fusionado.emails.value != [] {
        var emailsPrioritarios := Prioritarios(fusionado.emails.value);
        enviosQr := enviosQr + [EnvioQr(fusionado.id.value, emailsPrioritarios, fusionado.qrCodeData)];
      }
      var guardado := Guardar(fusionado, id);
      return Ok(guardado);
    }

    /** `eliminarPaciente`: removes the id, whether or not it was stored. */
    method EliminarPaciente(id: string)
      requires Valid()
      modifies this
      ensures Valid()
      ensures pacientes == old(pacientes) - {id}
      ensures enviosQr == old(enviosQr)
    {
      pacientes := pacientes - {id};
    }
  }

  /** After creation the record can be found under its id, and its QR URL leads back to it. */
  method CrearYBuscar(s: Servicio, paciente: Paciente, idGenerado: string) returns (nuevo: Paciente)
    requires s.Valid()
    modifies s
    ensures s.Valid()
    ensures nuevo.id.Some? && s.BuscarPorId(nuevo.id.value) == Some(nuevo)
    ensures nuevo.qrCodeData.Some? && IdDeQrUrl(nuevo.qrCodeData.value) == nuevo.id
  {
    nuevo := s.CrearPaciente(paciente, idGenerado);
    QrUrlIdentifica(nuevo.id.value);
  }

  /** Updating twice with the same data stores the same record as updating once. */
  method ActualizarDosVeces(s: Servicio, id: string, cambios: Paciente)
    returns (primera: Result<Paciente, ErrorServicio>, segunda: Result<Paciente, ErrorServicio>)
    requires s.Valid()
    modifies s
    ensures s.Valid()
    ensures primera == segunda
    ensures primera.Ok? ==> s.pacientes == old(s.pacientes)[id := primera.value]
    ensures primera.Err? ==> s.pacientes == old(s.pacientes)
  {
    primera := s.ActualizarPaciente(id, cambios);
    if primera.Ok? {
      FusionarIdempotente(old(s.pacientes)[id], cambios);
    }
    segunda := s.ActualizarPaciente(id, cambios);
  }
}
