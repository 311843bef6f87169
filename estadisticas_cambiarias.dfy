/**
 * The records of the exchange-statistics ("estadísticas cambiarias")
 * service: currencies, one currency's quotation and the quotations of a
 * date, built from decoded JSON and, for a date's quotations, turned back
 * into a dictionary.
 */
module EstadisticasCambiarias {
  import opened Results
  import opened JsonModel
  import opened IsoDate

  /** A currency. */
  datatype Divisa = Divisa(codigo: string, denominacion: string)

  /** One currency's quotation: the pass rate and the quotation, as floats. */
  datatype CotizacionDetalle = CotizacionDetalle(
    codigoMoneda: string,
    descripcion: string,
    tipoPase: real,
    tipoCotizacion: real)

  /** The quotations published for one date. */
  datatype CotizacionFecha = CotizacionFecha(fecha: Date, detalle: seq<CotizacionDetalle>)

  function DivisaFromJson(j: Json): (r: Result<Divisa, FieldError>)
    ensures !j.JObj? ==> r == Err(NotAnObject)
    ensures j.JObj? && "codigo" !in j.fields ==> r == Err(KeyMissing("codigo"))
    ensures r.Ok? <==> GetStr(j, "codigo").Ok? && GetStr(j, "denominacion").Ok?
    ensures r.Ok? ==> r.value == Divisa(j.fields["codigo"].s, j.fields["denominacion"].s)
  {
    var codigo :- GetStr(j, "codigo");
    var nombre :- GetStr(j, "denominacion");
    Ok(Divisa(codigo, nombre))
  }

  /** The two rates go through `float()`, which also takes integers. */
  function CotizacionDetalleFromJson(j: Json): (r: Result<CotizacionDetalle, FieldError>)
    ensures !j.JObj? ==> r == Err(NotAnObject)
    ensures r.Ok? <==> GetStr(j, "codigoMoneda").Ok? && GetStr(j, "descripcion").Ok?
                       && GetFloat(j, "tipoPase").Ok? && GetFloat(j, "tipoCotizacion").Ok?
    ensures r.Ok? ==> r.value.codigoMoneda == j.fields["codigoMoneda"].s
                      && r.value.descripcion == j.fields["descripcion"].s
                      && r.value.tipoPase == AsFloat(j.fields["tipoPase"])
                      && r.value.tipoCotizacion == AsFloat(j.fields["tipoCotizacion"])
  {
    var codigo :- GetStr(j, "codigoMoneda");
    var descripcion :- GetStr(j, "descripcion");
    var pase :- GetFloat(j, "tipoPase");
    var cotizacion :- GetFloat(j, "tipoCotizacion");
    Ok(CotizacionDetalle(codigo, descripcion, pase, cotizacion))
  }

  /** Both the date and the details are required; the details are iterated. */
  function CotizacionFechaFromJson(j: Json): (r: Result<CotizacionFecha, FieldError>)
    ensures !j.JObj? ==> r == Err(NotAnObject)
    ensures j.JObj? && "fecha" !in j.fields ==> r == Err(KeyMissing("fecha"))
    ensures GetDate(j, "fecha").Ok? && j.JObj? && "detalle" !in j.fields ==> r == Err(KeyMissing("detalle"))
    ensures r.Ok? <==> GetDate(j, "fecha").Ok? && GetIterable(j, "detalle").Ok?
                       && MapAll(GetIterable(j, "detalle").value, CotizacionDetalleFromJson).Ok?
    ensures r.Ok? ==> GetDate(j, "fecha") == Ok(r.value.fecha)
                      && GetIterable(j, "detalle").Ok?
                      && MapAll(GetIterable(j, "detalle").value, CotizacionDetalleFromJson) == Ok(r.value.detalle)
    ensures r.Ok? ==> ValidDate(r.value.fecha)
  {
    var fecha :- GetDate(j, "fecha");
    var items :- GetIterable(j, "detalle");
    var detalle :- MapAll(items, CotizacionDetalleFromJson);
    Ok(CotizacionFecha(fecha, detalle))
  }

  function DetalleToJson(d: CotizacionDetalle): Json {
    JObj(map[
      "codigoMoneda" := JStr(d.codigoMoneda),
      "descripcion" := JStr(d.descripcion),
      "tipoPase" := JFloat(d.tipoPase),
      "tipoCotizacion" := JFloat(d.tipoCotizacion)])
  }

  /** `CotizacionFecha.to_dict`; a Python `date` is always a valid calendar date. */
  function CotizacionFechaToJson(c: CotizacionFecha): (j: Json)
    requires ValidDate(c.fecha)
    ensures j.JObj? && j.fields.Keys == {"fecha", "detalle"}
    ensures j.fields["detalle"].JArr? && |j.fields["detalle"].items| == |c.detalle|
  {
    JObj(map[
      "fecha" := JStr(FormatDate(c.fecha)),
      "detalle" := JArr(seq(|c.detalle|, i requires 0 <= i < |c.detalle| => DetalleToJson(c.detalle[i])))])
  }

  /** A reference encoding of a currency, the inverse of `DivisaFromJson`. */
  function DivisaToJson(d: Divisa): Json {
    JObj(map["codigo" := JStr(d.codigo), "denominacion" := JStr(d.denominacion)])
  }

  lemma DivisaRoundTrip(d: Divisa)
    ensures DivisaFromJson(DivisaToJson(d)) == Ok(d)
  {
  }

  /** A date's quotations survive `to_dict` followed by `from_dict`. */
  lemma CotizacionFechaRoundTrip(c: CotizacionFecha)
    requires ValidDate(c.fecha)
    ensures CotizacionFechaFromJson(CotizacionFechaToJson(c)) == Ok(c)
  {
    var j := CotizacionFechaToJson(c);
    FormatThenParse(c.fecha);
    var items := j.fields["detalle"].items;
    forall i | 0 <= i < |items|
      ensures CotizacionDetalleFromJson(items[i]) == Ok(c.detalle[i])
    {
      assert items[i] == DetalleToJson(c.detalle[i]);
    }
    assert MapAll(items, CotizacionDetalleFromJson).value == c.detalle;
  }

  /**
   * The other direction: decoded quotations with exactly the keys `to_dict`
   * writes and float rates come back unchanged from `to_dict`.
   */
  lemma CotizacionFechaFromJsonInverts(j: Json, c: CotizacionFecha)
    requires CotizacionFechaFromJson(j) == Ok(c)
    requires j.fields.Keys == {"fecha", "detalle"} && j.fields["detalle"].JArr?
    requires forall i :: 0 <= i < |j.fields["detalle"].items| ==>
               var d := j.fields["detalle"].items[i];
               d.JObj? && d.fields.Keys == {"codigoMoneda", "descripcion", "tipoPase", "tipoCotizacion"}
               && d.fields["tipoPase"].JFloat? && d.fields["tipoCotizacion"].JFloat?
    ensures CotizacionFechaToJson(c) == j
  {
    var items := j.fields["detalle"].items;
    var k := CotizacionFechaToJson(c);
    forall i | 0 <= i < |items|
      ensures DetalleToJson(c.detalle[i]) == items[i]
    {
      assert CotizacionDetalleFromJson(items[i]) == Ok(c.detalle[i]);
      assert DetalleToJson(c.detalle[i]).fields == items[i].fields;
    }
    assert k.fields["detalle"] == j.fields["detalle"];
    assert k.fields == j.fields;
  }

  /** An integer rate is read as a float: after a round trip it is a JSON float. */
  lemma IntegerRateBecomesFloat(codigo: string, descripcion: string, pase: int, cotizacion: int)
    ensures var j := JObj(map["codigoMoneda" := JStr(codigo), "descripcion" := JStr(descripcion),
                              "tipoPase" := JInt(pase), "tipoCotizacion" := JInt(cotizacion)]);
            CotizacionDetalleFromJson(j) == Ok(CotizacionDetalle(codigo, descripcion, pase as real, cotizacion as real))
            && DetalleToJson(CotizacionDetalleFromJson(j).value).fields["tipoPase"] == JFloat(pase as real)
  {
  }
}
