/** `admin/crear-usuarios/crear-usuarios.ts`: the administrator's form that creates a user,
    with its busy flag, the reset after a success and the status-based error message. */
module CrearUsuarios {
  import opened Wrappers
  import opened Texto
  import opened Http
  import opened Validadores
  import UsuarioModelo

  const RolesPermitidos: seq<string> := ["ADMIN", "MEDICO", "ENFERMERO", "TECNICO"]
  const MensajeCamposRequeridos: string := "Por favor, completa todos los campos requeridos."
  const PrefijoErrorCreacion: string := "Error al crear el usuario. "
  const MensajeSinPermisos: string := "No tienes permisos para realizar esta acción."
  const MensajeMasTarde: string := "Inténtalo más tarde."
  /** How string concatenation renders a plain object. */
  const TextoObjeto: string := "[object Object]"
  const RutaDashboard: string := "/dashboard"

  /** The form's five controls, in declaration order. */
  const NumControles: nat := 5

  /** The form's value, sent as is. */
  datatype NuevoUsuario = NuevoUsuario(nombre: string, apellido: string, email: string,
                                       password: string, rol: string)

  /** The value after `reset()` (null in every control; the validators treat it as ""). */
  const UsuarioVacio: NuevoUsuario := NuevoUsuario("", "", "", "", "")

  /** The validators of control `i`: all required, the email well-formed, the password at
      least 6 characters long. */
  predicate ControlValido(v: NuevoUsuario, i: nat)
    requires i < NumControles
  {
    if i == 0 then Required(v.nombre)
    else if i == 1 then Required(v.apellido)
    else if i == 2 then Required(v.email) && EmailValido(v.email)
    else if i == 3 then Required(v.password) && MinLength(v.password, 6)
    else Required(v.rol)
  }

  predicate FormularioValido(v: NuevoUsuario) {
    forall i :: 0 <= i < NumControles ==> ControlValido(v, i)
  }

  /** The empty form fails the validators. */
  lemma VacioInvalido()
    ensures !FormularioValido(UsuarioVacio)
  {
    assert !ControlValido(UsuarioVacio, 0);
  }

  /** The role options are exactly the backend's role names, each once. */
  lemma RolesPermitidosSonLosDelBackend()
    ensures forall r: UsuarioModelo.Role :: UsuarioModelo.NombreRol(r) in RolesPermitidos
    ensures forall k :: 0 <= k < |RolesPermitidos| ==>
      UsuarioModelo.RolDeNombre(RolesPermitidos[k]).Some?
    ensures forall j, k :: 0 <= j < k < |RolesPermitidos| ==> RolesPermitidos[j] != RolesPermitidos[k]
  {
    forall r: UsuarioModelo.Role ensures UsuarioModelo.NombreRol(r) in RolesPermitidos {
      match r
      case ADMIN => assert RolesPermitidos[0] == "ADMIN";
      case MEDICO => assert RolesPermitidos[1] == "MEDICO";
      case ENFERMERO => assert RolesPermitidos[2] == "ENFERMERO";
      case TECNICO => assert RolesPermitidos[3] == "TECNICO";
    }
  }

  /** The value with control `i` set to `texto`. */
  function ConCampo(v: NuevoUsuario, i: nat, texto: string): NuevoUsuario
    requires i < NumControles
  {
    if i == 0 then v.(nombre := texto)
    else if i == 1 then v.(apellido := texto)
    else if i == 2 then v.(email := texto)
    else if i == 3 then v.(password := texto)
    else v.(rol := texto)
  }

  /** The success message. */
  function MensajeCreado(v: NuevoUsuario): string {
    "Usuario " + v.nombre + " " + v.apellido + " creado con rol " + v.rol + "."
  }

  /** JavaScript truthiness of `error.error`: a non-empty text or any object. */
  predicate CuerpoVerdadero(b: ErrorBody) {
    (b.CuerpoTexto? && b.texto != []) || b.CuerpoJson?
  }

  /** `error.error.message || error.error` as appended to a string: the object's message,
      or the text body, or "[object Object]" for an object without a message. */
  function TextoDelCuerpo(b: ErrorBody): (r: string)
    requires CuerpoVerdadero(b)
    ensures r != []
  {
    match b
    case CuerpoTexto(t) => t
    case CuerpoJson(m) => OrElse(m, TextoObjeto)
  }

  /** The message of a failed creation: a 400 with a body explains with the body, 401 and
      403 are a permissions problem, anything else (a 400 without a body too) asks to try
      later. The message always says something after its prefix. */
  function MensajeErrorCreacion(e: HttpError): (r: string)
    ensures StartsWith(r, PrefijoErrorCreacion) && |r| > |PrefijoErrorCreacion|
    ensures e.status == 400 && CuerpoVerdadero(e.error) ==>
      r[|PrefijoErrorCreacion|..] == TextoDelCuerpo(e.error)
    ensures e.status == 401 || e.status == 403 ==> r[|PrefijoErrorCreacion|..] == MensajeSinPermisos
    ensures !(e.status == 400 && CuerpoVerdadero(e.error)) && e.status != 401 && e.status != 403 ==>
      r[|PrefijoErrorCreacion|..] == MensajeMasTarde
  {
    var motivo :=
      if e.status == 400 && CuerpoVerdadero(e.error) then TextoDelCuerpo(e.error)
      else if e.status == 401 || e.status == 403 then MensajeSinPermisos
      else MensajeMasTarde;
    assert (PrefijoErrorCreacion + motivo)[|PrefijoErrorCreacion|..] == motivo;
    PrefijoErrorCreacion + motivo
  }

  /** A server explanation is shown verbatim: a 400 whose JSON body carries a message
      shows exactly that message. */
  lemma MensajeDelServidor(e: HttpError, m: string)
    requires e.status == 400 && e.error == CuerpoJson(Some(m)) && m != []
    ensures MensajeErrorCreacion(e) == PrefijoErrorCreacion + m
  {
    var r := MensajeErrorCreacion(e);
    assert r == r[..|PrefijoErrorCreacion|] + r[|PrefijoErrorCreacion|..];
  }

  class Formulario {
    var valores: NuevoUsuario
    /** The touched flag of each control. */
    const tocados: array<bool>
    /** Per control: its errors were cleared by `setErrors(null)` and its value has not
        changed since, so it reports VALID whatever it holds. */
    var erroresBorrados: seq<bool>
    var mensajeExito: Option<string>
    var mensajeError: Option<string>
    var estaEnviando: bool
    /** Users sent to `crearUsuario`, oldest first. */
    var solicitudes: seq<NuevoUsuario>
    var navegaciones: seq<seq<string>>

    ghost predicate Valid()
      reads this
    {
      tocados.Length == NumControles && |erroresBorrados| == NumControles
    }

    /** Every user sent so far passed the validators. */
    ghost predicate EnviosValidos()
      reads this
    {
      forall k :: 0 <= k < |solicitudes| ==> FormularioValido(solicitudes[k])
    }

    /** `usuarioForm.invalid`: some control whose errors were not cleared fails its
        validators. */
    predicate Invalido()
      requires Valid()
      reads this
    {
      exists i :: 0 <= i < NumControles && !erroresBorrados[i] && !ControlValido(valores, i)
    }

    constructor ()
      ensures Valid() && fresh(tocados) && EnviosValidos()
      ensures valores == UsuarioVacio && erroresBorrados == [false, false, false, false, false]
      ensures mensajeExito.None? && mensajeError.None? && !estaEnviando
      ensures solicitudes == [] && navegaciones == []
    {
      valores := UsuarioVacio;
      tocados := new bool[NumControles](_ => false);
      erroresBorrados := [false, false, false, false, false];
      mensajeExito := None;
      mensajeError := None;
      estaEnviando := false;
      solicitudes := [];
      navegaciones := [];
    }

    /** The user types `texto` into control `i`: that control is validated again, so it
        no longer keeps cleared errors; the other controls keep their state. */
    method Escribir(i: nat, texto: string)
      requires Valid() && i < NumControles
      modifies this
      ensures Valid()
      ensures valores == ConCampo(old(valores), i, texto)
      ensures erroresBorrados == old(erroresBorrados)[i := false]
      ensures mensajeExito == old(mensajeExito) && mensajeError == old(mensajeError)
      ensures estaEnviando == old(estaEnviando) && solicitudes == old(solicitudes)
      ensures navegaciones == old(navegaciones)
    {
      valores := ConCampo(valores, i, texto);
      erroresBorrados := erroresBorrados[i := false];
    }

    /** `markAllAsTouched`. */
    method MarcarTodosTocados()
      requires Valid()
      modifies tocados
      ensures forall i :: 0 <= i < tocados.Length ==> tocados[i]
    {
      var i := 0;
      while i < tocados.Length
        invariant 0 <= i <= tocados.Length
        invariant forall j :: 0 <= j < i ==> tocados[j]
      {
        tocados[i] := true;
        i := i + 1;
      }
    }

    /** `onSubmit` as written: an invalid form or a request in flight sends nothing, marks
        every control touched, clears the success message and, only when nothing is in
        flight, shows the "required fields" message. Otherwise the messages are cleared,
        the form becomes busy and its value is sent. */
    method OnSubmit()
      requires Valid()
      modifies this, tocados
      ensures Valid()
      ensures var rechazado := old(Invalido()) || old(estaEnviando);
        && (rechazado ==>
              && solicitudes == old(solicitudes)
              && (forall i :: 0 <= i < tocados.Length ==> tocados[i])
              && estaEnviando == old(estaEnviando)
              && mensajeExito.None?
              && mensajeError == (if old(estaEnviando) then old(mensajeError)
                                  else Some(MensajeCamposRequeridos)))
        && (!rechazado ==>
              && solicitudes == old(solicitudes) + [old(valores)]
              && tocados[..] == old(tocados[..])
              && estaEnviando && mensajeError.None? && mensajeExito.None?)
      ensures valores == old(valores) && erroresBorrados == old(erroresBorrados)
      ensures navegaciones == old(navegaciones)
    {
      if Invalido() || estaEnviando {
        MarcarTodosTocados();
        if !estaEnviando {
          mensajeError := Some(MensajeCamposRequeridos);
        }
        mensajeExito := None;
        return;
      }
      mensajeError := None;
      mensajeExito := None;
      estaEnviando := true;
      solicitudes := solicitudes + [valores];
    }

    /** `onSubmit` with validity decided by the validators on the current values, which
        is what the guard evidently means: only a valid user is ever sent. */
    method OnSubmitCorregido()
      requires Valid() && EnviosValidos()
      modifies this, tocados
      ensures Valid() && EnviosValidos()
      ensures var rechazado := !FormularioValido(old(valores)) || old(estaEnviando);
        && (rechazado ==>
              && solicitudes == old(solicitudes)
              && (forall i :: 0 <= i < tocados.Length ==> tocados[i])
              && estaEnviando == old(estaEnviando)
              && mensajeExito.None?
              && mensajeError == (if old(estaEnviando) then old(mensajeError)
                                  else Some(MensajeCamposRequeridos)))
        && (!rechazado ==>
              && solicitudes == old(solicitudes) + [old(valores)]
              && tocados[..] == old(tocados[..])
              && estaEnviando && mensajeError.None? && mensajeExito.None?)
      ensures valores == old(valores) && erroresBorrados == old(erroresBorrados)
      ensures navegaciones == old(navegaciones)
    {
      if !FormularioValido(valores) || estaEnviando {
        MarcarTodosTocados();
        if !estaEnviando {
          mensajeError := Some(MensajeCamposRequeridos);
        }
        mensajeExito := None;
        return;
      }
      mensajeError := None;
      mensajeExito := None;
      estaEnviando := true;
      solicitudes := solicitudes + [valores];
    }

    /** The creation's success callback, for the user sent last: the success message names
        it, then `reset()` empties the form and the loop over the controls clears each
        one's errors and marks it untouched; the form is no longer busy. */
    method AlCrear()
      requires Valid() && solicitudes != []
      modifies this, tocados
      ensures Valid() && solicitudes == old(solicitudes)
      ensures mensajeExito == Some(MensajeCreado(solicitudes[|solicitudes| - 1]))
      ensures valores == UsuarioVacio && erroresBorrados == [true, true, true, true, true]
      ensures forall i :: 0 <= i < tocados.Length ==> !tocados[i]
      ensures !estaEnviando
      ensures mensajeError == old(mensajeError) && navegaciones == old(navegaciones)
    {
      var enviado := solicitudes[|solicitudes| - 1];
      mensajeExito := Some(MensajeCreado(enviado));
      valores := UsuarioVacio;
      var i := 0;
      while i < tocados.Length
        invariant 0 <= i <= tocados.Length
        invariant |erroresBorrados| == NumControles
        invariant forall j :: 0 <= j < i ==> !tocados[j] && erroresBorrados[j]
        invariant forall j :: i <= j < NumControles ==> erroresBorrados[j] == old(erroresBorrados[j])
        invariant valores == UsuarioVacio && mensajeExito == Some(MensajeCreado(enviado))
        invariant solicitudes == old(solicitudes) && mensajeError == old(mensajeError)
        invariant navegaciones == old(navegaciones) && estaEnviando == old(estaEnviando)
      {
        erroresBorrados := erroresBorrados[i := true];
        tocados[i] := false;
        i := i + 1;
      }
      estaEnviando := false;
    }

    /** The creation's error callback. */
    method AlFallarCreacion(e: HttpError)
      modifies this
      ensures mensajeError == Some(MensajeErrorCreacion(e)) && !estaEnviando
      ensures valores == old(valores) && erroresBorrados == old(erroresBorrados)
      ensures mensajeExito == old(mensajeExito) && solicitudes == old(solicitudes)
      ensures navegaciones == old(navegaciones)
    {
      mensajeError := Some(MensajeErrorCreacion(e));
      estaEnviando := false;
    }

    method VolverAlDashboard()
      modifies this
      ensures navegaciones == old(navegaciones) + [[RutaDashboard]]
      ensures valores == old(valores) && erroresBorrados == old(erroresBorrados)
      ensures mensajeExito == old(mensajeExito) && mensajeError == old(mensajeError)
      ensures estaEnviando == old(estaEnviando) && solicitudes == old(solicitudes)
    {
      navegaciones := navegaciones + [[RutaDashboard]];
    }
  }

  /** As written, the reset after a success leaves every control VALID although empty: a
      second submit right away sends the empty user, which fails the validators. */
  method EnvioVacioTrasExito(f: Formulario)
    requires f.Valid() && f.solicitudes != []
    modifies f, f.tocados
    ensures f.solicitudes == old(f.solicitudes) + [UsuarioVacio]
    ensures !FormularioValido(f.solicitudes[|f.solicitudes| - 1])
  {
    f.AlCrear();
    assert !f.Invalido();
    f.OnSubmit();
    VacioInvalido();
  }

  /** With the corrected guard the same sequence sends nothing and asks for the fields. */
  method EnvioTrasExitoCorregido(f: Formulario)
    requires f.Valid() && f.solicitudes != [] && f.EnviosValidos()
    modifies f, f.tocados
    ensures f.solicitudes == old(f.solicitudes) && f.EnviosValidos()
    ensures f.mensajeError == Some(MensajeCamposRequeridos)
  {
    f.AlCrear();
    VacioInvalido();
    f.OnSubmitCorregido();
  }
}
