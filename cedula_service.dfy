// The civil-registry side of identity checks
// (internal/services/cedula/cedula_service.go): the result of a lookup,
// how the registry's names are formatted and combined, how its guessed
// identity type is mapped, and the metadata document stored with a user.
module CedulaService {
  import opened Json
  import opened GoStrings
  import opened Common
  import opened CedulaUtils

  /** The first record of a registry answer. */
  datatype GoMetaResult = GoMetaResult(
    cedula: string,
    firstName1: string,
    firstName2: string,
    lastName1: string,
    lastName2: string,
    fullName: string,
    guessType: string)

  /** CedulaValidationResult; the consultation time is kept as its RFC 3339 text. */
  datatype CedulaValidationResult = CedulaValidationResult(
    valida: bool,
    offline: bool,
    cedula: string,
    nombre: string,
    nombreCompleto: string,
    primerNombre: string,
    segundoNombre: string,
    primerApellido: string,
    segundoApellido: string,
    tipo: string,
    tipoIdentificacion: string,
    situacionTributaria: string,
    actividades: seq<map<string, string>>,
    fechaConsulta: string,
    fuente: string,
    error: string)

  // ---------------------------------------------------------------- names

  /** A word with its first character upper-cased and the rest lower-cased. */
  function Capitalize(w: string): (r: string)
    ensures |r| == |w|
  {
    if |w| > 0 then [UpperRune(w[0])] + ToLower(w[1..]) else w
  }

  function CapitalizeAll(ws: seq<string>): (r: seq<string>)
    ensures |r| == |ws| && forall i :: 0 <= i < |ws| ==> r[i] == Capitalize(ws[i])
  {
    seq(|ws|, i requires 0 <= i < |ws| => Capitalize(ws[i]))
  }

  /** What formatName returns: the trimmed name's words, each capitalized, joined by single spaces. */
  function FormattedName(name: string): (r: string)
    ensures TrimSpace(name) == "" ==> r == ""
  {
    var trimmed := TrimSpace(name);
    if trimmed == "" then "" else Join(CapitalizeAll(Fields(trimmed)), " ")
  }

  /** formatName: the words are rewritten one by one in place, then joined. */
  method FormatName(name: string) returns (r: string)
    ensures r == FormattedName(name)
  {
    var trimmed := TrimSpace(name);
    if trimmed == "" {
      return "";
    }
    ghost var fields := Fields(trimmed);
    var words := Fields(trimmed);
    for i := 0 to |words|
      invariant |words| == |fields|
      invariant forall j :: 0 <= j < i ==> words[j] == Capitalize(fields[j])
      invariant forall j :: i <= j < |words| ==> words[j] == fields[j]
    {
      var word := words[i];
      if |word| > 0 {
        words := words[i := [UpperRune(word[0])] + ToLower(word[1..])];
      }
    }
    assert words == CapitalizeAll(fields);
    r := Join(words, " ");
  }

  /** The case mappings never turn a character into white space. */
  lemma {:induction false} CaseKeepsNonSpace(c: char)
    requires !IsSpace(c)
    ensures !IsSpace(UpperRune(c)) && !IsSpace(LowerRune(c))
  {
  }

  /** Capitalizing a word gives a word. */
  lemma {:induction false} CapitalizeKeepsWord(w: string)
    requires IsWord(w)
    ensures IsWord(Capitalize(w))
  {
    var r := Capitalize(w);
    forall i | 0 <= i < |r| ensures !IsSpace(r[i]) {
      CaseKeepsNonSpace(w[i]);
      if i > 0 {
        assert r[i] == ToLower(w[1..])[i - 1] == LowerRune(w[i]);
      }
    }
  }

  /** Capitalizing a capitalized word changes nothing. */
  lemma {:induction false} CapitalizeIdempotent(w: string)
    ensures Capitalize(Capitalize(w)) == Capitalize(w)
  {
    if |w| > 0 {
      var c := Capitalize(w);
      assert c[1..] == ToLower(w[1..]);
      ToLowerIdempotent(w[1..]);
    }
  }

  /** The capitalized fields of a name are words. */
  lemma {:induction false} CapitalizedFieldsAreWords(t: string)
    ensures forall i :: 0 <= i < |CapitalizeAll(Fields(t))| ==> IsWord(CapitalizeAll(Fields(t))[i])
  {
    FieldsAreWords(t);
    forall i | 0 <= i < |Fields(t)| ensures IsWord(CapitalizeAll(Fields(t))[i]) {
      CapitalizeKeepsWord(Fields(t)[i]);
    }
  }

  /**
   * A formatted name is in collapsed form: it has no white space at either
   * end, its words are the capitalized words of the input, and joining them
   * back with single spaces gives the name itself.
   */
  lemma {:induction false} FormattedNameCollapsed(name: string)
    ensures TrimSpace(FormattedName(name)) == FormattedName(name)
    ensures TrimSpace(name) != "" ==> Fields(FormattedName(name)) == CapitalizeAll(Fields(TrimSpace(name)))
    ensures Join(Fields(FormattedName(name)), " ") == FormattedName(name)
  {
    var t := TrimSpace(name);
    if t != "" {
      var cs := CapitalizeAll(Fields(t));
      CapitalizedFieldsAreWords(t);
      FieldsOfJoin(cs);
      if cs != [] {
        JoinEnds(cs, " ");
        assert IsWord(cs[|cs| - 1]);
      }
    }
  }

  /** Capitalizing every word twice is capitalizing them once. */
  lemma {:induction false} CapitalizeAllIdempotent(ws: seq<string>)
    ensures CapitalizeAll(CapitalizeAll(ws)) == CapitalizeAll(ws)
  {
    forall i | 0 <= i < |ws| ensures Capitalize(Capitalize(ws[i])) == Capitalize(ws[i]) {
      CapitalizeIdempotent(ws[i]);
    }
  }

  /** Formatting a formatted name changes nothing. */
  lemma {:induction false} FormattedNameIdempotent(name: string)
    ensures FormattedName(FormattedName(name)) == FormattedName(name)
  {
    var f := FormattedName(name);
    FormattedNameCollapsed(name);
    var t := TrimSpace(name);
    if t != "" && f != "" {
      var cs := CapitalizeAll(Fields(t));
      CapitalizeAllIdempotent(Fields(t));
      assert TrimSpace(f) == f;
      assert Fields(f) == cs;
      assert FormattedName(f) == Join(CapitalizeAll(cs), " ");
    }
  }

  /** `first`, then a space and `second` when the second part is not empty. */
  function JoinIfPresent(first: string, second: string): (r: string)
    ensures second == "" ==> r == first
    ensures second != "" ==> r == first + " " + second
  {
    if second != "" then first + " " + second else first
  }

  /** GetNombreFormateado: the given names and the surnames, each pair joined by one space. */
  function GetNombreFormateado(r: CedulaValidationResult): (names: (string, string))
    ensures names.0 == JoinIfPresent(r.primerNombre, r.segundoNombre)
    ensures names.1 == JoinIfPresent(r.primerApellido, r.segundoApellido)
  {
    var nombre := if r.segundoNombre != "" then r.primerNombre + " " + r.segundoNombre else r.primerNombre;
    var apellido := if r.segundoApellido != "" then r.primerApellido + " " + r.segundoApellido else r.primerApellido;
    (nombre, apellido)
  }

  // ---------------------------------------------------------------- the registry answer

  const TipoJuridicaUpper := "JURIDICA"

  /**
   * The identity type read from the registry's guess: a non-empty guess sets
   * the identification type to its lower case, and the type to "juridica"
   * exactly when its upper case is "JURIDICA", and to "fisica" otherwise. An
   * empty guess keeps the types from the local validation.
   */
  function TipoFromGuess(tipo: string, tipoIdentificacion: string, guess: string): (r: (string, string))
    ensures guess == "" ==> r == (tipo, tipoIdentificacion)
    ensures guess != "" ==> r.1 == ToLower(guess)
    ensures guess != "" ==> (r.0 == CedulaJuridica <==> ToUpper(guess) == TipoJuridicaUpper)
    ensures guess != "" ==> (r.0 == CedulaFisica <==> ToUpper(guess) != TipoJuridicaUpper)
  {
    if guess != "" then
      (if ToUpper(guess) == TipoJuridicaUpper then CedulaJuridica else CedulaFisica, ToLower(guess))
    else (tipo, tipoIdentificacion)
  }

  // The error texts of the service.
  const ErrCedulaNotFound := "cédula no encontrada en el registro civil"
  const ErrServiceOffline := "servicio de validación no disponible temporalmente"
  const ErrInvalidCedula := "formato de cédula inválido"
  const ErrInvalidResponse := "respuesta inválida del servicio de validación"
  const Fuente := "gometa"

  /**
   * What the registry did with the lookup: no answer at all (the request
   * could not be built or sent), or an HTTP status with the decoded list of
   * records, None when the body did not decode.
   */
  datatype RegistryAnswer =
    | NoAnswer
    | Answer(statusCode: int, records: Option<seq<GoMetaResult>>)

  /** The result before the registry is asked: the local validation's number and type. */
  function Pending(v: CedulaValidation, fecha: string): CedulaValidationResult
  {
    CedulaValidationResult(false, false, v.cedula, "", "", "", "", "", "", v.cedulaType, "", "", [], fecha, Fuente, "")
  }

  /** The result when the registry answers with a record, for a locally valid number. */
  function RegistryResult(v: CedulaValidation, fecha: string, data: GoMetaResult): (r: CedulaValidationResult)
    ensures r.valida && !r.offline && r.cedula == v.cedula && r.error == ""
    ensures r.primerNombre == FormattedName(data.firstName1) && r.nombre == r.primerNombre
    ensures r.segundoNombre == FormattedName(data.firstName2)
    ensures r.primerApellido == FormattedName(data.lastName1) && r.segundoApellido == FormattedName(data.lastName2)
    ensures r.nombreCompleto == FormattedName(data.fullName)
    ensures (r.tipo, r.tipoIdentificacion) == TipoFromGuess(v.cedulaType, "", data.guessType)
  {
    var t := TipoFromGuess(v.cedulaType, "", data.guessType);
    Pending(v, fecha).(
      valida := true,
      primerNombre := FormattedName(data.firstName1),
      segundoNombre := FormattedName(data.firstName2),
      primerApellido := FormattedName(data.lastName1),
      segundoApellido := FormattedName(data.lastName2),
      nombreCompleto := FormattedName(data.fullName),
      nombre := FormattedName(data.firstName1),
      tipo := t.0,
      tipoIdentificacion := t.1)
  }

  /** The outcome of ValidarCedula for a number and the registry's answer, at consultation time `fecha`. */
  function ValidarCedula(identificacion: string, fecha: string, answer: RegistryAnswer): (r: Result<CedulaValidationResult, string>)
    ensures r.Err? <==> !ValidateCedula(identificacion).valid
    ensures r.Err? ==> r.error == ErrInvalidCedula
  {
    var v := ValidateCedula(identificacion);
    if !v.valid then Err(ErrInvalidCedula)
    else
      var result := Pending(v, fecha);
      match answer
      case NoAnswer => Ok(result.(offline := true, error := ErrServiceOffline))
      case Answer(code, records) =>
        if code == 200 then
          if records.None? then Ok(result.(offline := true, error := ErrInvalidResponse))
          else if |records.value| == 0 then Ok(result.(valida := false, error := ErrCedulaNotFound))
          else Ok(RegistryResult(v, fecha, records.value[0]))
        else if code == 404 then Ok(result.(valida := false, error := ErrCedulaNotFound))
        else Ok(result.(offline := true, error := "error del servicio: código " + IntToString(code)))
  }

  /**
   * A locally valid number is always answered with a result: it carries the
   * cleaned number and a física or jurídica type; it is confirmed exactly
   * when the registry answered 200 with at least one record, and then never
   * offline; it is offline exactly when there was no answer, the body did
   * not decode or the status was neither 200 nor 404.
   */
  lemma {:induction false} ValidarCedulaOutcomes(identificacion: string, fecha: string, answer: RegistryAnswer)
    requires ValidateCedula(identificacion).valid
    ensures ValidarCedula(identificacion, fecha, answer).Ok?
    ensures (ValidarCedula(identificacion, fecha, answer).value.cedula == CleanCedula(identificacion))
    ensures (ValidarCedula(identificacion, fecha, answer).value.tipo in {CedulaFisica, CedulaJuridica})
    ensures (ValidarCedula(identificacion, fecha, answer).value.valida <==>
      answer.Answer? && answer.statusCode == 200 && answer.records.Some? && |answer.records.value| > 0)
    ensures (ValidarCedula(identificacion, fecha, answer).value.offline <==>
      answer.NoAnswer? || (answer.statusCode == 200 && answer.records.None?) || answer.statusCode !in {200, 404})
    ensures (ValidarCedula(identificacion, fecha, answer).value.valida ==> !ValidarCedula(identificacion, fecha, answer).value.offline)
    ensures (ValidarCedula(identificacion, fecha, answer).value.fuente == Fuente)
  {
    var v := ValidateCedula(identificacion);
    if answer.Answer? && answer.statusCode == 200 && answer.records.Some? && |answer.records.value| > 0 {
      var t := TipoFromGuess(v.cedulaType, "", answer.records.value[0].guessType);
      assert t.0 in {CedulaFisica, CedulaJuridica};
    }
  }

  // ---------------------------------------------------------------- metadata

  function ActivityJson(a: map<string, string>): JsonValue
  {
    JObject(map k | k in a :: JString(a[k]))
  }

  /** The "extras" object of ToMetadata. */
  function Extras(r: CedulaValidationResult): map<string, JsonValue>
  {
    map[
      "validadoRegistroCivil" := JBool(r.valida),
      "cedula" := JString(r.cedula),
      "nombreOficial" := JString(r.nombreCompleto),
      "tipo" := JString(ToUpper(r.tipo)),
      "tipoIdentificacion" := JString(r.tipoIdentificacion),
      "primerNombre" := JString(r.primerNombre),
      "segundoNombre" := JString(r.segundoNombre),
      "primerApellido" := JString(r.primerApellido),
      "segundoApellido" := JString(r.segundoApellido),
      "situacionTributaria" := JString(r.situacionTributaria),
      "actividades" := JArray(seq(|r.actividades|, i requires 0 <= i < |r.actividades| => ActivityJson(r.actividades[i]))),
      "fechaConsulta" := JString(r.fechaConsulta),
      "fuente" := JString(r.fuente)]
  }

  /** The example of the service's tests: two given names and two surnames. */
  lemma {:induction false} GetNombreFormateadoExample(r: CedulaValidationResult)
    requires r.primerNombre == "Juan" && r.segundoNombre == "Carlos"
    requires r.primerApellido == "Pérez" && r.segundoApellido == "Mora"
    ensures GetNombreFormateado(r) == ("Juan Carlos", "Pérez Mora")
  {
    assert r.primerNombre + " " + r.segundoNombre == "Juan Carlos";
    assert r.primerApellido + " " + r.segundoApellido == "Pérez Mora";
  }

  /** ToMetadata: one "extras" object holding the result (the fields are stated by the lemmas below). */
  function ToMetadata(r: CedulaValidationResult): (m: map<string, JsonValue>)
    ensures m.Keys == {"extras"} && m["extras"] == JObject(Extras(r))
  {
    map["extras" := JObject(Extras(r))]
  }

  /** The stored extras record the verdict, the number, the official name and the upper-cased type. */
  lemma {:induction false} MetadataIdentityFields(r: CedulaValidationResult)
    ensures var e := ToMetadata(r)["extras"].fields;
      && HasField(e, "validadoRegistroCivil", JBool(r.valida))
      && HasField(e, "cedula", JString(r.cedula))
      && HasField(e, "nombreOficial", JString(r.nombreCompleto))
      && HasField(e, "tipo", JString(ToUpper(r.tipo)))
  {
  }

  /** The stored extras record the four name parts as they are. */
  lemma {:induction false} MetadataNameFields(r: CedulaValidationResult)
    ensures var e := ToMetadata(r)["extras"].fields;
      && HasField(e, "primerNombre", JString(r.primerNombre))
      && HasField(e, "segundoNombre", JString(r.segundoNombre))
      && HasField(e, "primerApellido", JString(r.primerApellido))
      && HasField(e, "segundoApellido", JString(r.segundoApellido))
  {
  }

  /**
   * The stored extras record the identification type, the tax situation,
   * one entry per activity, the lookup time and the source.
   */
  lemma {:induction false} MetadataOtherFields(r: CedulaValidationResult)
    ensures var e := ToMetadata(r)["extras"].fields;
      && HasField(e, "tipoIdentificacion", JString(r.tipoIdentificacion))
      && HasField(e, "situacionTributaria", JString(r.situacionTributaria))
      && "actividades" in e && e["actividades"].JArray?
      && |e["actividades"].items| == |r.actividades|
      && HasField(e, "fechaConsulta", JString(r.fechaConsulta))
      && HasField(e, "fuente", JString(r.fuente))
  {
  }
}
