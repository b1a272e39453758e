// The identity parts of account handling (internal/services/auth/auth_service.go):
// reading the registry data back from a user's stored metadata, splitting a
// typed-in name, and the registry gate of a registration.
module AuthService {
  import opened Common
  import opened Json
  import opened GoStrings
  import opened CedulaUtils
  import CS = CedulaService

  const ErrInvalidCedula := "formato de cédula inválido. Use 9 dígitos para física o 10 para jurídica"
  const ErrCedulaNotValid := "cédula no válida según el registro civil de Costa Rica"
  const ErrValidationOffline := "servicio de validación de cédula no disponible. Intente más tarde"

  /** Official data from the civil registry, as shown to the client. */
  datatype DatosRegistroCivil = DatosRegistroCivil(
    nombre: string,
    apellido: string,
    nombreCompleto: string,
    primerNombre: string,
    segundoNombre: string,
    primerApellido: string,
    segundoApellido: string,
    tipo: string,
    tipoIdentificacion: string,
    situacionTributaria: string)

  /** The string under `key`; a missing key or a value of another kind reads as "". */
  function GetString(m: map<string, JsonValue>, key: string): (s: string)
    ensures key in m && m[key].JString? ==> s == m[key].s
    ensures !(key in m && m[key].JString?) ==> s == ""
  {
    if key in m && m[key].JString? then m[key].s else ""
  }

  /**
   * extractDatosFromMetadata: the four name parts read back, given names and
   * surnames each joined by one space when the second part is present, the
   * type lower-cased.
   */
  function ExtractDatosFromMetadata(extras: map<string, JsonValue>): (d: DatosRegistroCivil)
    ensures d.nombre == CS.JoinIfPresent(GetString(extras, "primerNombre"), GetString(extras, "segundoNombre"))
    ensures d.apellido == CS.JoinIfPresent(GetString(extras, "primerApellido"), GetString(extras, "segundoApellido"))
    ensures d.tipo == ToLower(GetString(extras, "tipo"))
  {
    var primerNombre := GetString(extras, "primerNombre");
    var segundoNombre := GetString(extras, "segundoNombre");
    var primerApellido := GetString(extras, "primerApellido");
    var segundoApellido := GetString(extras, "segundoApellido");
    var nombre := if segundoNombre != "" then primerNombre + " " + segundoNombre else primerNombre;
    var apellido := if segundoApellido != "" then primerApellido + " " + segundoApellido else primerApellido;
    DatosRegistroCivil(
      nombre, apellido,
      GetString(extras, "nombreOficial"),
      primerNombre, segundoNombre, primerApellido, segundoApellido,
      ToLower(GetString(extras, "tipo")),
      GetString(extras, "tipoIdentificacion"),
      GetString(extras, "situacionTributaria"))
  }

  /** Metadata without any registry data gives an all-empty record. */
  lemma {:induction false} ExtractFromEmpty()
    ensures ExtractDatosFromMetadata(map[]) == DatosRegistroCivil("", "", "", "", "", "", "", "", "", "")
  {
    assert ToLower("") == "";
  }

  /** The data VerificarCedula builds from a fresh registry answer. */
  function FreshDatos(r: CS.CedulaValidationResult): (d: DatosRegistroCivil)
    ensures (d.nombre, d.apellido) == CS.GetNombreFormateado(r)
  {
    var names := CS.GetNombreFormateado(r);
    DatosRegistroCivil(
      names.0, names.1, r.nombreCompleto,
      r.primerNombre, r.segundoNombre, r.primerApellido, r.segundoApellido,
      r.tipo, r.tipoIdentificacion, r.situacionTributaria)
  }

  /** Upper- then lower-casing gives back a word of lower-case ASCII letters. */
  lemma {:induction false} AsciiCaseRoundTrip(t: string)
    requires forall i :: 0 <= i < |t| ==> 'a' <= t[i] <= 'z'
    ensures ToLower(ToUpper(t)) == t
  {
    var u := ToUpper(t);
    forall i | 0 <= i < |t| ensures ToLower(u)[i] == t[i] {
      assert 'A' <= u[i] <= 'Z';
    }
  }

  /** The two type names survive the upper-casing of ToMetadata and the lower-casing on the way back. */
  lemma {:induction false} TipoCaseRoundTrip(t: string)
    requires t == CedulaFisica || t == CedulaJuridica
    ensures ToLower(ToUpper(t)) == t
  {
    if t == CedulaFisica {
      assert forall i :: 0 <= i < |CedulaFisica| ==> 'a' <= CedulaFisica[i] <= 'z';
      AsciiCaseRoundTrip(CedulaFisica);
    } else {
      assert forall i :: 0 <= i < |CedulaJuridica| ==> 'a' <= CedulaJuridica[i] <= 'z';
      AsciiCaseRoundTrip(CedulaJuridica);
    }
  }

  /**
   * Storing a result with ToMetadata and reading it back gives the data a
   * fresh lookup shows: the cached and the fresh paths of VerificarCedula
   * agree for a result of either type.
   */
  lemma {:induction false} MetadataRoundTrip(r: CS.CedulaValidationResult)
    requires r.tipo == CedulaFisica || r.tipo == CedulaJuridica
    ensures ExtractDatosFromMetadata(CS.ToMetadata(r)["extras"].fields) == FreshDatos(r)
  {
    var e := CS.Extras(r);
    assert CS.ToMetadata(r)["extras"].fields == e;
    NamePartsStored(r);
    OtherPartsStored(r);
    TipoCaseRoundTrip(r.tipo);
  }

  lemma {:induction false} NamePartsStored(r: CS.CedulaValidationResult)
    ensures GetString(CS.Extras(r), "primerNombre") == r.primerNombre
    ensures GetString(CS.Extras(r), "segundoNombre") == r.segundoNombre
    ensures GetString(CS.Extras(r), "primerApellido") == r.primerApellido
    ensures GetString(CS.Extras(r), "segundoApellido") == r.segundoApellido
  {
  }

  lemma {:induction false} OtherPartsStored(r: CS.CedulaValidationResult)
    ensures GetString(CS.Extras(r), "nombreOficial") == r.nombreCompleto
    ensures GetString(CS.Extras(r), "tipo") == ToUpper(r.tipo)
    ensures GetString(CS.Extras(r), "tipoIdentificacion") == r.tipoIdentificacion
    ensures GetString(CS.Extras(r), "situacionTributaria") == r.situacionTributaria
  {
  }

  /**
   * The split of a typed-in name: trimmed, then cut at its first space into
   * given name and surname; a name without a space is all given name.
   */
  function SplitProvidedName(nombre: string): (names: (string, string))
    ensures ' ' !in TrimSpace(nombre) ==> names == (TrimSpace(nombre), "")
    ensures ' ' in TrimSpace(nombre) ==> names.0 + " " + names.1 == TrimSpace(nombre) && ' ' !in names.0
  {
    var nombreFinal := TrimSpace(nombre);
    var parts := SplitN2(nombreFinal, ' ');
    if |parts| > 1 then (parts[0], parts[1]) else (nombreFinal, "")
  }

  /** The given name of a split is never empty for a name that is not blank. */
  lemma {:induction false} SplitKeepsGivenName(nombre: string)
    requires TrimSpace(nombre) != ""
    ensures SplitProvidedName(nombre).0 != ""
  {
    var t := TrimSpace(nombre);
    assert !IsSpace(t[0]);
    if ' ' in t {
      var names := SplitProvidedName(nombre);
      assert (names.0 + " " + names.1)[0] == t[0];
      if names.0 == "" {
        assert false;
      }
    }
  }

  /** What a registration that passed the registry gate stores. */
  datatype Registration = Registration(nombre: string, apellido: string, metadata: map<string, JsonValue>)

  /**
   * The registry part of Registro, once the number's format, the password
   * and the uniqueness checks have passed: the lookup's error becomes the
   * format error; offline with validation required, and online but not
   * confirmed, refuse the registration. Otherwise the official name is used
   * when the registry confirmed one, the typed-in name is split when not,
   * and the metadata is the result's ToMetadata exactly when it is
   * confirmed, an empty document otherwise.
   */
  function RegistroGate(lookup: Result<CS.CedulaValidationResult, string>, nombre: string, requireValidation: bool)
    : (r: Result<Registration, string>)
    ensures lookup.Err? ==> r == Err(ErrInvalidCedula)
    ensures lookup.Ok? && lookup.value.offline && requireValidation ==> r == Err(ErrValidationOffline)
    ensures lookup.Ok? && !lookup.value.offline && !lookup.value.valida ==> r == Err(ErrCedulaNotValid)
    ensures r.Ok? <==> lookup.Ok? && ((lookup.value.valida && !lookup.value.offline) || (lookup.value.offline && !requireValidation))
    ensures r.Ok? && lookup.value.valida ==> r.value.metadata == CS.ToMetadata(lookup.value)
    ensures r.Ok? && !lookup.value.valida ==> r.value.metadata == map[]
    ensures (r.Ok? && lookup.value.valida && lookup.value.nombreCompleto != "" ==>
      (r.value.nombre, r.value.apellido) == CS.GetNombreFormateado(lookup.value))
    ensures (r.Ok? && !(lookup.value.valida && lookup.value.nombreCompleto != "") ==>
      (r.value.nombre, r.value.apellido) == SplitProvidedName(nombre))
  {
    if lookup.Err? then Err(ErrInvalidCedula)
    else
      var result := lookup.value;
      if result.offline && requireValidation then Err(ErrValidationOffline)
      else if !result.offline && !result.valida then Err(ErrCedulaNotValid)
      else
        var names := if result.valida && result.nombreCompleto != "" then CS.GetNombreFormateado(result) else SplitProvidedName(nombre);
        var metadata := if result.valida then CS.ToMetadata(result) else map[];
        Ok(Registration(names.0, names.1, metadata))
  }

  /**
   * Through the registry lookup: a number the registry does not know is
   * refused, and one it confirms is registered with its metadata stored.
   */
  lemma {:induction false} RegistroAfterLookup(cedula: string, fecha: string, answer: CS.RegistryAnswer, nombre: string, requireValidation: bool)
    requires ValidateCedula(cedula).valid
    ensures (answer.Answer? && answer.statusCode == 404 ==>
      RegistroGate(CS.ValidarCedula(cedula, fecha, answer), nombre, requireValidation) == Err(ErrCedulaNotValid))
    ensures (answer.Answer? && answer.statusCode == 200 && answer.records.Some? && |answer.records.value| > 0 ==>
      RegistroGate(CS.ValidarCedula(cedula, fecha, answer), nombre, requireValidation).Ok?)
    ensures (answer.NoAnswer? ==>
      (RegistroGate(CS.ValidarCedula(cedula, fecha, answer), nombre, requireValidation).Ok? <==> !requireValidation))
  {
    CS.ValidarCedulaOutcomes(cedula, fecha, answer);
  }
}
