/** The patient document stored in MongoDB (`model/mongo/Paciente.java`), the partial-update
    merge `PacienteService.actualizarPaciente` performs on it, and the QR payload derived
    from its id. */
module PacienteModelo {
  import opened Wrappers
  import opened Texto

  // The element types of the list-valued sections. Their Java classes are not part of this
  // model; the fields are those the frontend's `Paciente` interface gives them. The merge
  // copies them whole, so their inner structure never matters.
  datatype Alergia = Alergia(descripcion: Option<string>)
  datatype Antecedente = Antecedente(nombre: Option<string>, detalle: Option<string>)
  datatype Medicacion = Medicacion(nombre: Option<string>, dosis: Option<string>)
  datatype Historial = Historial(
    fecha: Option<string>, profesional: Option<string>, grupoSanguineo: Option<string>,
    peso: Option<string>, pesoSeco: Option<string>, altura: Option<string>,
    fechaPrimeraDialisisVida: Option<string>, fechaPrimeraDialisisClinica: Option<string>,
    heparina: Option<string>, antecedentesEnfermedad: Option<string>,
    medicacionPrescritaDialisis: Option<string>, medicacionDomiciliaria: Option<string>,
    detalle: Option<string>)
  datatype Evolucion = Evolucion(
    fecha: Option<string>, profesional: Option<string>, informeGeneral: Option<string>)

  /** One patient. Every reference-typed Java field may be null (`None`); the two
      primitive `boolean` fields cannot. */
  datatype Paciente = Paciente(
    id: Option<string>,
    qrCodeData: Option<string>,
    nombre: Option<string>,
    apellido: Option<string>,
    fechaNacimiento: Option<string>,
    documento: Option<string>,
    genero: Option<string>,
    estadoCivil: Option<string>,
    fechaPrimeraDialisis: Option<string>,
    telefonos: Option<seq<string>>,
    emails: Option<seq<string>>,
    domicilio: Option<string>,
    obraSocial: Option<string>,
    institucion: Option<string>,
    alergias: Option<seq<Alergia>>,
    testigoJehova: bool,
    seTransfunde: bool,
    antecedentesPersonales: Option<seq<Antecedente>>,
    medicacionActual: Option<seq<Medicacion>>,
    historiaClinica: Option<seq<Historial>>,
    parametrosDialisis: Option<map<string, string>>,
    evolucionMensual: Option<seq<Evolucion>>)

  // ---------------------------------------------------------------------------
  // The bean properties, as the reflective merge sees them
  // ---------------------------------------------------------------------------

  /** The readable and writable bean properties of `Paciente`. */
  datatype Propiedad =
    | Id | QrCodeData | Nombre | Apellido | FechaNacimiento | Documento | Genero
    | EstadoCivil | FechaPrimeraDialisis | Telefonos | Emails | Domicilio | ObraSocial
    | Institucion | Alergias | TestigoJehova | SeTransfunde | AntecedentesPersonales
    | MedicacionActual | HistoriaClinica | ParametrosDialisis | EvolucionMensual

  /** The value a getter returns, boxed. */
  datatype Valor =
    | Texto(texto: Option<string>)
    | Textos(textos: Option<seq<string>>)
    | ListaAlergias(alergias: Option<seq<Alergia>>)
    | Booleano(b: bool)
    | ListaAntecedentes(antecedentes: Option<seq<Antecedente>>)
    | ListaMedicacion(medicacion: Option<seq<Medicacion>>)
    | ListaHistorial(historial: Option<seq<Historial>>)
    | Mapa(mapa: Option<map<string, string>>)
    | ListaEvolucion(evolucion: Option<seq<Evolucion>>)
  {
    /** The getter returned null. A boxed `boolean` never is. */
    predicate EsNulo() {
      match this
      case Texto(t) => t.None?
      case Textos(t) => t.None?
      case ListaAlergias(t) => t.None?
      case Booleano(_) => false
      case ListaAntecedentes(t) => t.None?
      case ListaMedicacion(t) => t.None?
      case ListaHistorial(t) => t.None?
      case Mapa(t) => t.None?
      case ListaEvolucion(t) => t.None?
    }
  }

  /** The getter of property `prop`. */
  function Leer(p: Paciente, prop: Propiedad): Valor {
    match prop
    case Id => Texto(p.id)
    case QrCodeData => Texto(p.qrCodeData)
    case Nombre => Texto(p.nombre)
    case Apellido => Texto(p.apellido)
    case FechaNacimiento => Texto(p.fechaNacimiento)
    case Documento => Texto(p.documento)
    case Genero => Texto(p.genero)
    case EstadoCivil => Texto(p.estadoCivil)
    case FechaPrimeraDialisis => Texto(p.fechaPrimeraDialisis)
    case Telefonos => Textos(p.telefonos)
    case Emails => Textos(p.emails)
    case Domicilio => Texto(p.domicilio)
    case ObraSocial => Texto(p.obraSocial)
    case Institucion => Texto(p.institucion)
    case Alergias => ListaAlergias(p.alergias)
    case TestigoJehova => Booleano(p.testigoJehova)
    case SeTransfunde => Booleano(p.seTransfunde)
    case AntecedentesPersonales => ListaAntecedentes(p.antecedentesPersonales)
    case MedicacionActual => ListaMedicacion(p.medicacionActual)
    case HistoriaClinica => ListaHistorial(p.historiaClinica)
    case ParametrosDialisis => Mapa(p.parametrosDialisis)
    case EvolucionMensual => ListaEvolucion(p.evolucionMensual)
  }

  /** The properties the merge skips whatever the update holds. */
  predicate Protegida(prop: Propiedad) {
    prop == Id || prop == QrCodeData
  }

  // ---------------------------------------------------------------------------
  // The merge
  // ---------------------------------------------------------------------------

  function Elegir<T>(nuevo: Option<T>, actual: Option<T>): Option<T> {
    if nuevo.Some? then nuevo else actual
  }

  /** The partial update: every non-null property of `cambios` except `id` and
      `qrCodeData` is written over `existente`. */
  function Fusionar(existente: Paciente, cambios: Paciente): (r: Paciente)
    ensures r.id == existente.id && r.qrCodeData == existente.qrCodeData
  {
    existente.(
      nombre := Elegir(cambios.nombre, existente.nombre),
      apellido := Elegir(cambios.apellido, existente.apellido),
      fechaNacimiento := Elegir(cambios.fechaNacimiento, existente.fechaNacimiento),
      documento := Elegir(cambios.documento, existente.documento),
      genero := Elegir(cambios.genero, existente.genero),
      estadoCivil := Elegir(cambios.estadoCivil, existente.estadoCivil),
      fechaPrimeraDialisis := Elegir(cambios.fechaPrimeraDialisis, existente.fechaPrimeraDialisis),
      telefonos := Elegir(cambios.telefonos, existente.telefonos),
      emails := Elegir(cambios.emails, existente.emails),
      domicilio := Elegir(cambios.domicilio, existente.domicilio),
      obraSocial := Elegir(cambios.obraSocial, existente.obraSocial),
      institucion := Elegir(cambios.institucion, existente.institucion),
      alergias := Elegir(cambios.alergias, existente.alergias),
      testigoJehova := cambios.testigoJehova,
      seTransfunde := cambios.seTransfunde,
      antecedentesPersonales := Elegir(cambios.antecedentesPersonales, existente.antecedentesPersonales),
      medicacionActual := Elegir(cambios.medicacionActual, existente.medicacionActual),
      historiaClinica := Elegir(cambios.historiaClinica, existente.historiaClinica),
      parametrosDialisis := Elegir(cambios.parametrosDialisis, existente.parametrosDialisis),
      evolucionMensual := Elegir(cambios.evolucionMensual, existente.evolucionMensual))
  }

  /** The merge, property by property, is the rule of the reflective copy loop: a protected
      property keeps its stored value, a null one keeps its stored value, any other takes
      the update's value. In particular the two booleans are always overwritten. */
  lemma FusionarPorPropiedad(existente: Paciente, cambios: Paciente, prop: Propiedad)
    ensures Leer(Fusionar(existente, cambios), prop) ==
      if Protegida(prop) || Leer(cambios, prop).EsNulo() then Leer(existente, prop)
      else Leer(cambios, prop)
  {
  }

  /** Two patients that agree on every property are the same patient. */
  lemma {:induction false} Extensionalidad(a: Paciente, b: Paciente)
    requires forall prop :: Leer(a, prop) == Leer(b, prop)
    ensures a == b
  {
    CoincidenEnIdentidad(a, b);
    CoincidenEnDatos(a, b);
    CoincidenEnCobertura(a, b);
    CoincidenEnClinica(a, b);
  }

  /** Agreement on the identity and name properties is agreement on their fields. */
  lemma CoincidenEnIdentidad(a: Paciente, b: Paciente)
    requires forall prop :: Leer(a, prop) == Leer(b, prop)
    ensures a.id == b.id
    ensures a.qrCodeData == b.qrCodeData
    ensures a.nombre == b.nombre
    ensures a.apellido == b.apellido
    ensures a.fechaNacimiento == b.fechaNacimiento
    ensures a.documento == b.documento
  {
    assert Leer(a, Id) == Leer(b, Id);
    assert Leer(a, QrCodeData) == Leer(b, QrCodeData);
    assert Leer(a, Nombre) == Leer(b, Nombre);
    assert Leer(a, Apellido) == Leer(b, Apellido);
    assert Leer(a, FechaNacimiento) == Leer(b, FechaNacimiento);
    assert Leer(a, Documento) == Leer(b, Documento);
  }

  /** Agreement on the personal data properties is agreement on their fields. */
  lemma CoincidenEnDatos(a: Paciente, b: Paciente)
    requires forall prop :: Leer(a, prop) == Leer(b, prop)
    ensures a.genero == b.genero
    ensures a.estadoCivil == b.estadoCivil
    ensures a.fechaPrimeraDialisis == b.fechaPrimeraDialisis
    ensures a.telefonos == b.telefonos
    ensures a.emails == b.emails
    ensures a.domicilio == b.domicilio
  {
    assert Leer(a, Genero) == Leer(b, Genero);
    assert Leer(a, EstadoCivil) == Leer(b, EstadoCivil);
    assert Leer(a, FechaPrimeraDialisis) == Leer(b, FechaPrimeraDialisis);
    assert Leer(a, Telefonos) == Leer(b, Telefonos);
    assert Leer(a, Emails) == Leer(b, Emails);
    assert Leer(a, Domicilio) == Leer(b, Domicilio);
  }

  /** Agreement on the coverage and transfusion properties is agreement on their fields. */
  lemma CoincidenEnCobertura(a: Paciente, b: Paciente)
    requires forall prop :: Leer(a, prop) == Leer(b, prop)
    ensures a.obraSocial == b.obraSocial
    ensures a.institucion == b.institucion
    ensures a.alergias == b.alergias
    ensures a.testigoJehova == b.testigoJehova
    ensures a.seTransfunde == b.seTransfunde
  {
    assert Leer(a, ObraSocial) == Leer(b, ObraSocial);
    assert Leer(a, Institucion) == Leer(b, Institucion);
    assert Leer(a, Alergias) == Leer(b, Alergias);
    assert Leer(a, TestigoJehova) == Leer(b, TestigoJehova);
    assert Leer(a, SeTransfunde) == Leer(b, SeTransfunde);
  }

  /** Agreement on the clinical properties is agreement on their fields. */
  lemma CoincidenEnClinica(a: Paciente, b: Paciente)
    requires forall prop :: Leer(a, prop) == Leer(b, prop)
    ensures a.antecedentesPersonales == b.antecedentesPersonales
    ensures a.medicacionActual == b.medicacionActual
    ensures a.historiaClinica == b.historiaClinica
    ensures a.parametrosDialisis == b.parametrosDialisis
    ensures a.evolucionMensual == b.evolucionMensual
  {
    assert Leer(a, AntecedentesPersonales) == Leer(b, AntecedentesPersonales);
    assert Leer(a, MedicacionActual) == Leer(b, MedicacionActual);
    assert Leer(a, HistoriaClinica) == Leer(b, HistoriaClinica);
    assert Leer(a, ParametrosDialisis) == Leer(b, ParametrosDialisis);
    assert Leer(a, EvolucionMensual) == Leer(b, EvolucionMensual);
  }

  /** Applying the same update twice stores the same record as applying it once. */
  lemma {:induction false} FusionarIdempotente(existente: Paciente, cambios: Paciente)
    ensures Fusionar(Fusionar(existente, cambios), cambios) == Fusionar(existente, cambios)
  {
    var una := Fusionar(existente, cambios);
    forall prop ensures Leer(Fusionar(una, cambios), prop) == Leer(una, prop) {
      FusionarPorPropiedad(una, cambios, prop);
      FusionarPorPropiedad(existente, cambios, prop);
    }
    Extensionalidad(Fusionar(una, cambios), una);
  }

  /** An update whose every reference property is null changes only the two booleans. */
  lemma FusionarVacio(existente: Paciente, cambios: Paciente)
    requires forall prop :: !Protegida(prop) && prop != TestigoJehova && prop != SeTransfunde
               ==> Leer(cambios, prop).EsNulo()
    ensures Fusionar(existente, cambios) ==
      existente.(testigoJehova := cambios.testigoJehova, seTransfunde := cambios.seTransfunde)
  {
    var r := Fusionar(existente, cambios);
    var esperado := existente.(testigoJehova := cambios.testigoJehova, seTransfunde := cambios.seTransfunde);
    forall prop ensures Leer(r, prop) == Leer(esperado, prop) {
      FusionarPorPropiedad(existente, cambios, prop);
    }
    Extensionalidad(r, esperado);
  }

  /** The update changes the email list: it carries one and it differs from the stored
      one (`List.equals`, element by element; a stored null always differs). */
  predicate EmailsModificados(existente: Paciente, cambios: Paciente) {
    cambios.emails.Some? && cambios.emails != existente.emails
  }

  // ---------------------------------------------------------------------------
  // QR payload and recipients
  // ---------------------------------------------------------------------------

  const QrPrefijo: string := "http://localhost:4200/pacientes/"
  const QrSufijo: string := "/observar"

  /** The URL encoded in a patient's QR. */
  function QrUrl(id: string): string {
    QrPrefijo + id + QrSufijo
  }

  /** Reads the patient id back out of a QR URL, if it has that shape. */
  function IdDeQrUrl(url: string): (r: Option<string>)
    ensures r.Some? ==> QrUrl(r.value) == url
  {
    if |url| >= |QrPrefijo| + |QrSufijo| && url[..|QrPrefijo|] == QrPrefijo
       && url[|url| - |QrSufijo|..] == QrSufijo
    then
      var id := url[|QrPrefijo|..|url| - |QrSufijo|];
      assert url == url[..|QrPrefijo|] + id + url[|url| - |QrSufijo|..];
      Some(id)
    else None
  }

  /** Every patient id is recovered from its QR URL: the URL identifies the patient. */
  lemma QrUrlIdentifica(id: string)
    ensures IdDeQrUrl(QrUrl(id)) == Some(id)
  {
    var url := QrUrl(id);
    assert url[..|QrPrefijo|] == QrPrefijo;
    assert url[|url| - |QrSufijo|..] == QrSufijo;
    assert url[|QrPrefijo|..|url| - |QrSufijo|] == id;
  }

  /** `emails.subList(0, Math.min(2, emails.size()))`: the first at most two addresses. */
  function Prioritarios(emails: seq<string>): (r: seq<string>)
    ensures |r| == if |emails| < 2 then |emails| else 2
    ensures r == emails[..|r|]
  {
    emails[..if |emails| < 2 then |emails| else 2]
  }
}
