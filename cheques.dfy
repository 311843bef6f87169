/**
 * The records of the reported-checks ("cheques denunciados") service and
 * their construction from decoded JSON. Keys are read in the order the
 * constructors read them, so a record with several problems reports the
 * first one.
 */
module Cheques {
  import opened Results
  import opened JsonModel
  import opened IsoDate

  /** A financial entity; its name may be `null`. */
  datatype Entidad = Entidad(codigoEntidad: int, denominacion: Option<string>)

  /** One detail line of a reported check. */
  datatype ChequeDetalle = ChequeDetalle(sucursal: int, numeroCuenta: int, causal: string)

  /** A reported check. */
  datatype Cheque = Cheque(
    numeroCheque: int,
    denunciado: bool,
    fechaProcesamiento: Date,
    denominacionEntidad: string,
    detalles: seq<ChequeDetalle>)

  datatype EntidadResponse = EntidadResponse(status: int, results: seq<Entidad>)
  datatype ChequeResponse = ChequeResponse(status: int, results: Cheque)
  datatype ErrorResponse = ErrorResponse(status: int, errorMessages: seq<string>)

  function EntidadFromJson(j: Json): (r: Result<Entidad, FieldError>)
    ensures !j.JObj? ==> r == Err(NotAnObject)
    ensures j.JObj? && "codigoEntidad" !in j.fields ==> r == Err(KeyMissing("codigoEntidad"))
    ensures r.Ok? <==> GetInt(j, "codigoEntidad").Ok? && GetOptStr(j, "denominacion").Ok?
    ensures r.Ok? ==> r.value.codigoEntidad == j.fields["codigoEntidad"].i
                      && r.value.denominacion == GetOptStr(j, "denominacion").value
  {
    var codigo :- GetInt(j, "codigoEntidad");
    var nombre :- GetOptStr(j, "denominacion");
    Ok(Entidad(codigo, nombre))
  }

  function ChequeDetalleFromJson(j: Json): (r: Result<ChequeDetalle, FieldError>)
    ensures !j.JObj? ==> r == Err(NotAnObject)
    ensures r.Ok? <==> GetInt(j, "sucursal").Ok? && GetInt(j, "numeroCuenta").Ok? && GetStr(j, "causal").Ok?
    ensures r.Ok? ==> r.value == ChequeDetalle(j.fields["sucursal"].i, j.fields["numeroCuenta"].i, j.fields["causal"].s)
  {
    var sucursal :- GetInt(j, "sucursal");
    var cuenta :- GetInt(j, "numeroCuenta");
    var causal :- GetStr(j, "causal");
    Ok(ChequeDetalle(sucursal, cuenta, causal))
  }

  /**
   * `[ChequeDetalle.from_dict(d) for d in data.get('detalles', [])]`: an
   * absent list means no details; a present value is iterated.
   */
  function DetallesFromJson(j: Json): (r: Result<seq<ChequeDetalle>, FieldError>)
    requires j.JObj?
    ensures "detalles" !in j.fields ==> r == Ok([])
    ensures "detalles" in j.fields ==>
              (r.Ok? <==> GetIterable(j, "detalles").Ok? && MapAll(GetIterable(j, "detalles").value, ChequeDetalleFromJson).Ok?)
    ensures "detalles" in j.fields && r.Ok? ==> MapAll(GetIterable(j, "detalles").value, ChequeDetalleFromJson) == Ok(r.value)
    ensures "detalles" in j.fields && j.fields["detalles"].JArr? ==> r == MapAll(j.fields["detalles"].items, ChequeDetalleFromJson)
  {
    if "detalles" !in j.fields then Ok([])
    else
      var items :- GetIterable(j, "detalles");
      MapAll(items, ChequeDetalleFromJson)
  }

  function ChequeFromJson(j: Json): (r: Result<Cheque, FieldError>)
    ensures !j.JObj? ==> r == Err(NotAnObject)
    ensures j.JObj? && "numeroCheque" !in j.fields ==> r == Err(KeyMissing("numeroCheque"))
    ensures j.JObj? ==> (r.Ok? <==> GetInt(j, "numeroCheque").Ok? && GetBool(j, "denunciado").Ok?
                                    && GetDate(j, "fechaProcesamiento").Ok? && GetStr(j, "denominacionEntidad").Ok?
                                    && DetallesFromJson(j).Ok?)
    ensures r.Ok? ==> GetInt(j, "numeroCheque") == Ok(r.value.numeroCheque)
                      && GetBool(j, "denunciado") == Ok(r.value.denunciado)
                      && GetDate(j, "fechaProcesamiento") == Ok(r.value.fechaProcesamiento)
                      && GetStr(j, "denominacionEntidad") == Ok(r.value.denominacionEntidad)
                      && DetallesFromJson(j) == Ok(r.value.detalles)
    ensures r.Ok? ==> ValidDate(r.value.fechaProcesamiento)
  {
    var numero :- GetInt(j, "numeroCheque");
    var denunciado :- GetBool(j, "denunciado");
    var fecha :- GetDate(j, "fechaProcesamiento");
    var entidad :- GetStr(j, "denominacionEntidad");
    var detalles :- DetallesFromJson(j);
    Ok(Cheque(numero, denunciado, fecha, entidad, detalles))
  }

  /** A check whose `detalles` key is absent decodes with no details. */
  lemma MissingDetallesMeansNone(j: Json)
    requires j.JObj? && "detalles" !in j.fields
    ensures ChequeFromJson(j).Ok? <==> GetInt(j, "numeroCheque").Ok? && GetBool(j, "denunciado").Ok?
                                       && GetDate(j, "fechaProcesamiento").Ok? && GetStr(j, "denominacionEntidad").Ok?
    ensures ChequeFromJson(j).Ok? ==> ChequeFromJson(j).value.detalles == []
  {
  }

  function EntidadResponseFromJson(j: Json): (r: Result<EntidadResponse, FieldError>)
    ensures !j.JObj? ==> r == Err(NotAnObject)
    ensures r.Ok? <==> GetInt(j, "status").Ok? && GetIterable(j, "results").Ok?
                       && MapAll(GetIterable(j, "results").value, EntidadFromJson).Ok?
    ensures r.Ok? ==> GetInt(j, "status") == Ok(r.value.status)
                      && GetIterable(j, "results").Ok?
                      && MapAll(GetIterable(j, "results").value, EntidadFromJson) == Ok(r.value.results)
    ensures GetInt(j, "status").Ok? && "results" in j.fields && j.fields["results"] in [JObj(map[]), JStr(""), JArr([])] ==>
              r == Ok(EntidadResponse(j.fields["status"].i, []))
  {
    var status :- GetInt(j, "status");
    var items :- GetIterable(j, "results");
    var entidades :- MapAll(items, EntidadFromJson);
    Ok(EntidadResponse(status, entidades))
  }

  function ChequeResponseFromJson(j: Json): (r: Result<ChequeResponse, FieldError>)
    ensures !j.JObj? ==> r == Err(NotAnObject)
    ensures r.Ok? <==> GetInt(j, "status").Ok? && Field(j, "results").Ok? && ChequeFromJson(Field(j, "results").value).Ok?
    ensures r.Ok? ==> GetInt(j, "status") == Ok(r.value.status)
                      && Field(j, "results").Ok? && ChequeFromJson(Field(j, "results").value) == Ok(r.value.results)
  {
    var status :- GetInt(j, "status");
    var results :- Field(j, "results");
    var cheque :- ChequeFromJson(results);
    Ok(ChequeResponse(status, cheque))
  }

  function ErrorResponseFromJson(j: Json): (r: Result<ErrorResponse, FieldError>)
    ensures !j.JObj? ==> r == Err(NotAnObject)
    ensures r.Ok? <==> GetInt(j, "status").Ok? && GetStringList(j, "errorMessages").Ok?
    ensures r.Ok? ==> r.value.status == j.fields["status"].i
                      && StringsToJson(r.value.errorMessages) == j.fields["errorMessages"].items
  {
    var status :- GetInt(j, "status");
    var messages :- GetStringList(j, "errorMessages");
    Ok(ErrorResponse(status, messages))
  }

  function DetalleToJson(d: ChequeDetalle): Json {
    JObj(map["sucursal" := JInt(d.sucursal), "numeroCuenta" := JInt(d.numeroCuenta), "causal" := JStr(d.causal)])
  }

  /** `Cheque.to_dict`; a Python `date` is always a valid calendar date. */
  function ChequeToJson(c: Cheque): (j: Json)
    requires ValidDate(c.fechaProcesamiento)
    ensures j.JObj? && j.fields.Keys == {"numeroCheque", "denunciado", "fechaProcesamiento", "denominacionEntidad", "detalles"}
  {
    JObj(map[
      "numeroCheque" := JInt(c.numeroCheque),
      "denunciado" := JBool(c.denunciado),
      "fechaProcesamiento" := JStr(FormatDate(c.fechaProcesamiento)),
      "denominacionEntidad" := JStr(c.denominacionEntidad),
      "detalles" := JArr(seq(|c.detalles|, i requires 0 <= i < |c.detalles| => DetalleToJson(c.detalles[i])))])
  }

  /** A reference encoding of an entity, the inverse of `EntidadFromJson`. */
  function EntidadToJson(e: Entidad): Json {
    JObj(map["codigoEntidad" := JInt(e.codigoEntidad),
             "denominacion" := if e.denominacion.Some? then JStr(e.denominacion.value) else JNull])
  }

  lemma EntidadRoundTrip(e: Entidad)
    ensures EntidadFromJson(EntidadToJson(e)) == Ok(e)
  {
  }

  lemma DetalleRoundTrip(d: ChequeDetalle)
    ensures ChequeDetalleFromJson(DetalleToJson(d)) == Ok(d)
  {
  }

  /** Every check with a valid processing date survives `to_dict` followed by `from_dict`. */
  lemma ChequeRoundTrip(c: Cheque)
    requires ValidDate(c.fechaProcesamiento)
    ensures ChequeFromJson(ChequeToJson(c)) == Ok(c)
  {
    var j := ChequeToJson(c);
    FormatThenParse(c.fechaProcesamiento);
    var items := j.fields["detalles"].items;
    forall i | 0 <= i < |items|
      ensures ChequeDetalleFromJson(items[i]) == Ok(c.detalles[i])
    {
      DetalleRoundTrip(c.detalles[i]);
    }
    var r := MapAll(items, ChequeDetalleFromJson);
    assert r.value == c.detalles;
  }

  /**
   * A decoded check carrying exactly the five keys `to_dict` writes, and
   * detail objects with exactly the three detail keys, is `to_dict` of the
   * check built from it.
   */
  lemma DetalleFromJsonInverts(j: Json, d: ChequeDetalle)
    requires ChequeDetalleFromJson(j) == Ok(d)
    requires j.JObj? && j.fields.Keys == {"sucursal", "numeroCuenta", "causal"}
    ensures DetalleToJson(d) == j
  {
    assert DetalleToJson(d).fields == j.fields;
  }

  lemma ChequeFromJsonInverts(j: Json, c: Cheque)
    requires ChequeFromJson(j) == Ok(c)
    requires j.fields.Keys == {"numeroCheque", "denunciado", "fechaProcesamiento", "denominacionEntidad", "detalles"}
    requires j.fields["detalles"].JArr?
    requires forall i :: 0 <= i < |j.fields["detalles"].items| ==>
               j.fields["detalles"].items[i].JObj? && j.fields["detalles"].items[i].fields.Keys == {"sucursal", "numeroCuenta", "causal"}
    ensures ChequeToJson(c) == j
  {
    var items := j.fields["detalles"].items;
    var k := ChequeToJson(c);
    assert |c.detalles| == |items|;
    forall i | 0 <= i < |items|
      ensures DetalleToJson(c.detalles[i]) == items[i]
    {
      assert ChequeDetalleFromJson(items[i]) == Ok(c.detalles[i]);
      DetalleFromJsonInverts(items[i], c.detalles[i]);
    }
    assert k.fields["detalles"] == j.fields["detalles"];
    assert k.fields["fechaProcesamiento"] == j.fields["fechaProcesamiento"];
    assert k.fields == j.fields;
  }
}
