/** `pacientes/paciente-form/paciente-form.component.ts`: the patient's personal-data form,
    the text-to-list normalisation of its phone and email fields, the choice between
    creating and updating, and what the form shows after the backend answers. */
module FormularioPaciente {
  import opened Wrappers
  import opened Texto
  import opened Listas
  import opened Http
  import opened Validadores
  import UsuarioModelo
  import ConfiguracionSeguridad

  const MensajeCamposRequeridos: string := "Por favor, completa los campos requeridos."
  const MensajeCargaFallida: string := "No se pudieron cargar los datos del paciente."
  const MensajeRespuestaSinId: string := "Error al procesar la respuesta."
  const MensajeGuardado: string := "Datos personales guardados correctamente."
  const MensajeDesconocido: string := "Error desconocido"
  const PrefijoErrorGuardado: string := "Error al guardar: "
  const AperturaStatus: string := " (Status: "
  const SinStatus: string := "N/A"

  /** The form group has twelve controls and no nested group. */
  const NumControles: nat := 12

  /** The controls' values: text controls start as "", the two dates as null. */
  datatype ValoresFormulario = ValoresFormulario(
    nombre: string, apellido: string, fechaNacimiento: Option<string>, documento: string,
    genero: string, estadoCivil: string, fechaPrimeraDialisis: Option<string>,
    telefonos: string, emails: string, domicilio: string, obraSocial: string,
    institucion: string)

  const ValoresIniciales: ValoresFormulario :=
    ValoresFormulario("", "", None, "", "", "", None, "", "", "", "", "")

  /** The body sent to the backend: the form's values with the two list fields converted. */
  datatype DatosPaciente = DatosPaciente(
    nombre: string, apellido: string, fechaNacimiento: Option<string>, documento: string,
    genero: string, estadoCivil: string, fechaPrimeraDialisis: Option<string>,
    telefonos: seq<string>, emails: seq<string>, domicilio: string, obraSocial: string,
    institucion: string)

  /** A save request: create when the form has no patient id, update that id otherwise. */
  datatype Solicitud = Crear(datos: DatosPaciente) | Actualizar(id: string, datos: DatosPaciente)

  /** The backend path the patient API client sends a request to. */
  function RutaDe(s: Solicitud): string {
    if s.Crear? then "/api/pacientes" else "/api/pacientes/" + s.id
  }

  /** The HTTP method of a request: POST to create, PUT to update. */
  function MetodoDe(s: Solicitud): ConfiguracionSeguridad.Metodo {
    if s.Crear? then ConfiguracionSeguridad.POST else ConfiguracionSeguridad.PUT
  }

  /** Whatever the form sends, the backend accepts it from an ADMIN or a MEDICO only, and
      never from an anonymous request. */
  lemma GuardarSoloAdminOMedico(s: Solicitud, u: UsuarioModelo.Usuario)
    requires u.rol.Some?
    ensures ConfiguracionSeguridad.Autorizado(MetodoDe(s), RutaDe(s), Some(UsuarioModelo.Authorities(u)))
            <==> u.rol.value in {UsuarioModelo.ADMIN, UsuarioModelo.MEDICO}
    ensures !ConfiguracionSeguridad.Autorizado(MetodoDe(s), RutaDe(s), None)
  {
    if s.Crear? {
      ConfiguracionSeguridad.CrearPacienteSoloAdminOMedico(u);
    } else {
      assert StartsWith(RutaDe(s), "/api/pacientes/");
      ConfiguracionSeguridad.ModificarPacienteSoloAdminOMedico(ConfiguracionSeguridad.PUT, RutaDe(s), u);
    }
  }

  /** The validators: five required controls (a date must be chosen, a text non-empty)
      and `Validators.email` on the emails control. */
  predicate FormularioValido(v: ValoresFormulario) {
    Required(v.nombre) && Required(v.apellido) && Truthy(v.fechaNacimiento)
    && Required(v.documento) && Required(v.genero) && EmailValido(v.emails)
  }

  // ---------------------------------------------------------------------------
  // The comma-separated text to list conversion
  // ---------------------------------------------------------------------------

  /** `s.split(',').map(s => s.trim())`. */
  function Recortadas(s: string): (r: seq<string>)
    ensures |r| == |Split(s, ',')|
    ensures forall k :: 0 <= k < |r| ==> r[k] == Trim(Split(s, ',')[k])
  {
    var piezas := Split(s, ',');
    seq(|piezas|, k requires 0 <= k < |piezas| => Trim(piezas[k]))
  }

  predicate NoVacia(p: string) {
    p != []
  }

  /** Each piece of `Recortadas(s)` is trimmed and holds no comma. */
  lemma RecortadasLimpias(s: string)
    ensures forall k :: 0 <= k < |Recortadas(s)| ==>
      IsTrimmed(Recortadas(s)[k]) && ',' !in Recortadas(s)[k]
  {
    var piezas := Split(s, ',');
    forall k | 0 <= k < |piezas|
      ensures IsTrimmed(Trim(piezas[k])) && ',' !in Trim(piezas[k])
    {
      TrimProperties(piezas[k]);
      TrimKeepsAbsent(piezas[k], ',');
    }
  }

  /** The conversion of `telefonos` and `emails`: a falsy (empty) text gives no entry;
      otherwise the comma-separated pieces, trimmed, with the empty ones dropped. Every
      entry is non-empty, trimmed and free of commas. */
  function Normalizar(s: string): (r: seq<string>)
    ensures s == [] ==> r == []
    ensures forall k :: 0 <= k < |r| ==> r[k] != [] && IsTrimmed(r[k]) && ',' !in r[k]
  {
    if s == [] then []
    else
      RecortadasLimpias(s);
      var r := Filtrar(Recortadas(s), NoVacia);
      assert forall k :: 0 <= k < |r| ==> r[k] != [] && r[k] in Recortadas(s) by {
        forall k | 0 <= k < |r| ensures r[k] != [] && r[k] in Recortadas(s) {
          assert r[k] in r && r[k] in multiset(r);
        }
      }
      r
  }

  /** The entries keep the order the pieces had in the text. */
  lemma NormalizarConservaOrden(s: string)
    requires s != []
    ensures EsSubsecuencia(Normalizar(s), Recortadas(s))
  {
    FiltrarEsSubsecuencia(Recortadas(s), NoVacia);
  }

  /** Writing a list of clean entries separated by commas and converting it gives back the
      list: the conversion is a left inverse of `join(',')` on what it produces. */
  lemma NormalizarJoin(entradas: seq<string>)
    requires entradas != []
    requires forall k :: 0 <= k < |entradas| ==>
      entradas[k] != [] && IsTrimmed(entradas[k]) && ',' !in entradas[k]
    ensures Normalizar(Join(entradas, ',')) == entradas
  {
    var s := Join(entradas, ',');
    JoinNoVacio(entradas, ',');
    SplitJoin(entradas, ',');
    var r := Recortadas(s);
    assert |r| == |entradas|;
    forall k | 0 <= k < |entradas| ensures r[k] == entradas[k] {
      TrimOfTrimmed(entradas[k]);
    }
    assert r == entradas;
    FiltrarTodos(entradas, NoVacia);
  }

  lemma JoinNoVacio(entradas: seq<string>, sep: char)
    requires entradas != [] && entradas[0] != []
    ensures Join(entradas, sep) != []
  {
    if |entradas| > 1 {
      assert Join(entradas, sep) == entradas[0] + [sep] + Join(entradas[1..], sep);
    }
  }

  /** The emails control is checked by `Validators.email`, which admits no comma and no
      whitespace: a valid value converts to at most one address, the text itself. */
  lemma EmailsValidosUnaDireccion(v: ValoresFormulario)
    requires FormularioValido(v)
    ensures |Normalizar(v.emails)| <= 1
    ensures v.emails != [] ==> Normalizar(v.emails) == [v.emails]
  {
    var s := v.emails;
    if s != [] {
      EmailValidoSinComaNiEspacios(s);
      SplitNoSeparator(s, ',');
      TrimOfTrimmed(s);
      assert Recortadas(s) == [s];
      FiltrarTodos([s], NoVacia);
    }
  }

  /** The body `onSubmit` sends: every value copied, the two list fields converted. */
  function DatosDe(v: ValoresFormulario): (d: DatosPaciente)
    ensures d.telefonos == Normalizar(v.telefonos) && d.emails == Normalizar(v.emails)
    ensures d.nombre == v.nombre && d.apellido == v.apellido && d.documento == v.documento
    ensures d.fechaNacimiento == v.fechaNacimiento && d.genero == v.genero
    ensures d.estadoCivil == v.estadoCivil && d.fechaPrimeraDialisis == v.fechaPrimeraDialisis
    ensures d.domicilio == v.domicilio && d.obraSocial == v.obraSocial
    ensures d.institucion == v.institucion
  {
    DatosPaciente(v.nombre, v.apellido, v.fechaNacimiento, v.documento, v.genero,
                  v.estadoCivil, v.fechaPrimeraDialisis, Normalizar(v.telefonos),
                  Normalizar(v.emails), v.domicilio, v.obraSocial, v.institucion)
  }

  // ---------------------------------------------------------------------------
  // The save-error message
  // ---------------------------------------------------------------------------

  /** `${status ?? 'N/A'}`: the number for an `HttpErrorResponse`, "N/A" for any other
      error value. */
  function TextoStatus(e: HttpError, esHttp: bool): (r: string)
    ensures r != [] && ' ' !in r
  {
    if esHttp then NatToString(e.status) else SinStatus
  }

  /** The message of a failed save: the server's or the client's message (or "Error
      desconocido"), then the status in parentheses. */
  function MensajeErrorGuardado(e: HttpError, esHttp: bool): (r: string)
    ensures StartsWith(r, PrefijoErrorGuardado) && r[|r| - 1] == ')'
  {
    PrefijoErrorGuardado + MensajeDeError(e, MensajeDesconocido) + AperturaStatus
      + TextoStatus(e, esHttp) + ")"
  }

  /** The longest suffix of `s` without a space. */
  function UltimaPalabra(s: string): (r: string)
    ensures |r| <= |s| && r == s[|s| - |r|..]
    ensures ' ' !in r
    decreases |s|
  {
    if s == [] || s[|s| - 1] == ' ' then [] else UltimaPalabra(s[..|s| - 1]) + [s[|s| - 1]]
  }

  lemma {:induction false} UltimaPalabraTras(a: string, w: string)
    requires a != [] && a[|a| - 1] == ' ' && ' ' !in w
    ensures UltimaPalabra(a + w) == w
    decreases |w|
  {
    if w == [] {
      assert a + w == a;
    } else {
      var s := a + w;
      var w', c := w[..|w| - 1], w[|w| - 1];
      assert s[|s| - 1] == c && c in w;
      assert s[..|s| - 1] == a + w';
      assert UltimaPalabra(s) == UltimaPalabra(a + w') + [c];
      UltimaPalabraTras(a, w');
      assert w == w' + [c];
    }
  }

  /** Reads a status back from a save-error message: the digits right before the closing
      parenthesis, or nothing. */
  function StatusDelMensaje(m: string): Option<nat> {
    if m == [] then None
    else
      var w := UltimaPalabra(m[..|m| - 1]);
      if w != [] && forall i :: 0 <= i < |w| ==> IsDigit(w[i]) then Some(DigitsValue(w)) else None
  }

  /** Whatever the messages say, the status of an `HttpErrorResponse` can be read back
      from the text, and a non-HTTP error reads back as no status. */
  lemma StatusIdaYVuelta(e: HttpError, esHttp: bool)
    ensures StatusDelMensaje(MensajeErrorGuardado(e, esHttp)) ==
            if esHttp then Some(e.status) else None
  {
    var m := MensajeErrorGuardado(e, esHttp);
    var a := PrefijoErrorGuardado + MensajeDeError(e, MensajeDesconocido) + AperturaStatus;
    var t := TextoStatus(e, esHttp);
    assert m[..|m| - 1] == a + t;
    UltimaPalabraTras(a, t);
    if esHttp {
      NatToStringRoundTrip(e.status);
    } else {
      assert !IsDigit(t[0]);
    }
  }

  // ---------------------------------------------------------------------------
  // The component
  // ---------------------------------------------------------------------------

  class Formulario {
    var valores: ValoresFormulario
    /** The touched flag of each control, in declaration order. */
    const tocados: array<bool>
    var pacienteId: Option<string>
    var isLoading: bool
    var mensajeError: Option<string>
    var mensajeExito: Option<string>
    /** Save requests sent, oldest first. */
    var solicitudes: seq<Solicitud>
    /** Loads of a patient by id, oldest first. */
    var cargas: seq<string>
    /** Router navigations (as route segments), oldest first. */
    var navegaciones: seq<seq<string>>

    ghost predicate Valid()
      reads this
    {
      tocados.Length == NumControles
    }

    constructor ()
      ensures Valid() && fresh(tocados)
      ensures valores == ValoresIniciales && pacienteId.None? && !isLoading
      ensures mensajeError.None? && mensajeExito.None?
      ensures solicitudes == [] && cargas == [] && navegaciones == []
    {
      valores := ValoresIniciales;
      tocados := new bool[NumControles](_ => false);
      pacienteId := None;
      isLoading := false;
      mensajeError := None;
      mensajeExito := None;
      solicitudes := [];
      cargas := [];
      navegaciones := [];
    }

    /** `ngOnInit`, given the route's "id" parameter: the form is reset, and a truthy id
        puts the form in edit mode and loads that patient. */
    method NgOnInit(idRuta: Option<string>)
      modifies this
      ensures pacienteId == idRuta && valores == ValoresIniciales
      ensures Truthy(idRuta) ==>
        cargas == old(cargas) + [idRuta.value] && isLoading && mensajeError.None?
      ensures !Truthy(idRuta) ==>
        cargas == old(cargas) && isLoading == old(isLoading) && mensajeError == old(mensajeError)
      ensures solicitudes == old(solicitudes) && navegaciones == old(navegaciones)
      ensures mensajeExito == old(mensajeExito)
    {
      pacienteId := idRuta;
      valores := ValoresIniciales;
      if pacienteId.Some? && pacienteId.value != [] {
        CargarDatosPaciente(pacienteId.value);
      }
    }

    /** `cargarDatosPaciente`: the request is sent and the form is busy until it answers. */
    method CargarDatosPaciente(id: string)
      modifies this
      ensures cargas == old(cargas) + [id] && isLoading && mensajeError.None?
      ensures valores == old(valores) && pacienteId == old(pacienteId)
      ensures solicitudes == old(solicitudes) && navegaciones == old(navegaciones)
      ensures mensajeExito == old(mensajeExito)
    {
      isLoading := true;
      mensajeError := None;
      cargas := cargas + [id];
    }

    /** The load's success callback: the patient's values fill the form. */
    method AlCargarDatos(v: ValoresFormulario)
      modifies this
      ensures valores == v && !isLoading
      ensures mensajeError == old(mensajeError) && mensajeExito == old(mensajeExito)
      ensures pacienteId == old(pacienteId) && solicitudes == old(solicitudes)
      ensures cargas == old(cargas) && navegaciones == old(navegaciones)
    {
      valores := v;
      isLoading := false;
    }

    /** The load's error callback. */
    method AlFallarCarga()
      modifies this
      ensures mensajeError == Some(MensajeCargaFallida) && !isLoading
      ensures valores == old(valores) && mensajeExito == old(mensajeExito)
      ensures pacienteId == old(pacienteId) && solicitudes == old(solicitudes)
      ensures cargas == old(cargas) && navegaciones == old(navegaciones)
    {
      mensajeError := Some(MensajeCargaFallida);
      isLoading := false;
    }

    /** `markAllAsTouched`: every control of the (flat) group is marked touched. */
    method MarcarTodosTocados()
      requires Valid()
      modifies tocados
      ensures forall i :: 0 <= i < tocados.Length ==> tocados[i]
    {
      var i := 0;
      while i < tocados.Length
        invariant 0 <= i <= tocados.Length
        invariant forall j :: 0 <= j < i ==> tocados[j]
      {
        tocados[i] := true;
        i := i + 1;
      }
    }

    /** `onSubmit`. An invalid form, or a save already in flight, sends nothing: every
        control is marked touched, the success message is cleared and, only when no save
        is in flight, the "required fields" message is shown. Otherwise both messages are
        cleared, the form becomes busy and one request is sent, a create when there is no
        patient id and an update of that id otherwise, carrying the converted values. */
    method OnSubmit()
      requires Valid()
      modifies this, tocados
      ensures Valid()
      ensures var rechazado := !FormularioValido(old(valores)) || old(isLoading);
        && (rechazado ==>
              && solicitudes == old(solicitudes)
              && (forall i :: 0 <= i < tocados.Length ==> tocados[i])
              && isLoading == old(isLoading)
              && mensajeExito.None?
              && mensajeError == (if old(isLoading) then old(mensajeError)
                                  else Some(MensajeCamposRequeridos)))
        && (!rechazado ==>
              && solicitudes == old(solicitudes) + [
                   if Truthy(old(pacienteId)) then Actualizar(old(pacienteId).value, DatosDe(old(valores)))
                   else Crear(DatosDe(old(valores)))]
              && tocados[..] == old(tocados[..])
              && isLoading && mensajeError.None? && mensajeExito.None?)
      ensures valores == old(valores) && pacienteId == old(pacienteId)
      ensures cargas == old(cargas) && navegaciones == old(navegaciones)
    {
      if !FormularioValido(valores) || isLoading {
        MarcarTodosTocados();
        if !isLoading {
          mensajeError := Some(MensajeCamposRequeridos);
        }
        mensajeExito := None;
        return;
      }
      mensajeError := None;
      mensajeExito := None;
      isLoading := true;
      var datos := DatosDe(valores);
      var solicitud: Solicitud;
      if !(pacienteId.Some? && pacienteId.value != []) {
        solicitud := Crear(datos);
      } else {
        solicitud := Actualizar(pacienteId.value, datos);
      }
      solicitudes := solicitudes + [solicitud];
    }

    /** The save's success callback, given the id in the saved patient. Without a (truthy)
        id only an error is shown. Otherwise the id is adopted when the form had none (an
        id already set is never overwritten), the success message is shown and the form
        goes to the patient's detail page. */
    method AlGuardar(idRespuesta: Option<string>)
      modifies this
      ensures !isLoading
      ensures !Truthy(idRespuesta) ==>
        && mensajeError == Some(MensajeRespuestaSinId) && mensajeExito == old(mensajeExito)
        && pacienteId == old(pacienteId) && navegaciones == old(navegaciones)
      ensures Truthy(idRespuesta) ==>
        && pacienteId == (if Truthy(old(pacienteId)) then old(pacienteId) else idRespuesta)
        && mensajeExito == Some(MensajeGuardado) && mensajeError == old(mensajeError)
        && navegaciones == old(navegaciones) + [["/pacientes", idRespuesta.value, "detalle"]]
      ensures valores == old(valores) && solicitudes == old(solicitudes) && cargas == old(cargas)
    {
      isLoading := false;
      if !(idRespuesta.Some? && idRespuesta.value != []) {
        mensajeError := Some(MensajeRespuestaSinId);
        return;
      }
      if !(pacienteId.Some? && pacienteId.value != []) {
        pacienteId := idRespuesta;
      }
      mensajeExito := Some(MensajeGuardado);
      navegaciones := navegaciones + [["/pacientes", idRespuesta.value, "detalle"]];
    }

    /** The save's error callback; `esHttp` tells whether the error is an
        `HttpErrorResponse`. */
    method AlFallarGuardado(e: HttpError, esHttp: bool)
      modifies this
      ensures mensajeError == Some(MensajeErrorGuardado(e, esHttp)) && !isLoading
      ensures mensajeExito == old(mensajeExito) && pacienteId == old(pacienteId)
      ensures valores == old(valores) && solicitudes == old(solicitudes)
      ensures cargas == old(cargas) && navegaciones == old(navegaciones)
    {
      mensajeError := Some(MensajeErrorGuardado(e, esHttp));
      isLoading := false;
    }
  }

  /** A submit while a save is in flight sends nothing, so one form never has two saves
      in flight: submitting twice in a row sends at most one request. */
  method DobleEnvio(f: Formulario)
    requires f.Valid()
    modifies f, f.tocados
    ensures |f.solicitudes| <= |old(f.solicitudes)| + 1
  {
    f.OnSubmit();
    f.OnSubmit();
  }
}
