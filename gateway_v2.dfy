/** The second API gateway (RecetasProyecto/api-gateway/server.js): the recipe list with
    each recipe object given an `average_rating` in place, all-or-nothing, and the proxy
    routes that relay a microservice's reply. */
module GatewayV2 {
  import opened Js
  import opened Http

  const ListMessage := "Error al orquestar la agregación de datos de recetas."

  /** A recipe object of the parsed catalog reply; the list handler writes a property
      onto it. */
  class Receta {
    var fields: map<string, Json>

    constructor (fields: map<string, Json>)
      ensures this.fields == fields
    {
      this.fields := fields;
    }
  }

  /** An element of the parsed catalog array: an object, or any other JSON value. Writing
      a named property onto a primitive is ignored (the handler runs in sloppy mode) and one
      written onto an array is not serialized, so neither needs an object here. */
  datatype Item = Obj(receta: Receta) | Prim(value: Json)

  /** Objects are held as `Obj`, and no two elements share an object, as after parsing. */
  predicate Parsed(items: seq<Item>) {
    && (forall i :: 0 <= i < |items| && items[i].Prim? ==> !items[i].value.JObj?)
    && (forall i, j :: 0 <= i < j < |items| && items[i].Obj? && items[j].Obj? ==>
          items[i].receta != items[j].receta)
  }

  /** The JSON an element serializes to now. */
  function Snapshot(it: Item): Json
    reads if it.Obj? then {it.receta} else {}
  {
    match it
    case Obj(r) => JObj(r.fields)
    case Prim(v) => v
  }

  /** The objects a list of elements holds. */
  function Objects(items: seq<Item>): set<Receta> {
    set i | 0 <= i < |items| && items[i].Obj? :: items[i].receta
  }

  /** `ratingData ? parseFloat(ratingData.average_rating.toFixed(1)) : null` for the entry of
      `mediasValoraciones` whose `receta_id` is the recipe's. A TypeError when the list is
      not an array, when a `null` is read, or when the matched average is not a number. */
  function AverageFor(medias: Json, receta: Json): (r: Eval<Json>)
    ensures r.Ok? ==> r.value.JNull? || (r.value.JNum? && r.value.n.places == 1)
  {
    if !medias.JArr? then TypeError
    else
      match FindFirst(medias.items, "receta_id", receta, "receta_id")
      case TypeError => TypeError
      case Ok(found) =>
        if !Truthy(found) then Ok(JNull)
        else
          match Get(found.value, "average_rating")
          case Some(JNum(n)) => Ok(JNum(ToFixed(NumValue(n), 1)))
          case _ => TypeError
  }

  /** What one recipe becomes: an object gains `average_rating`; a primitive or an array
      serializes as before; writing onto `null` throws. */
  function Attached(medias: Json, receta: Json): (r: Eval<Json>)
    ensures r.Ok? && receta.JObj? ==> r.value.JObj? && r.value.fields.Keys == receta.fields.Keys + {"average_rating"}
    ensures r.Ok? && receta.JObj? ==> forall k :: k in receta.fields && k != "average_rating" ==>
              r.value.fields[k] == receta.fields[k]
    ensures r.Ok? && receta.JObj? ==> Ok(r.value.fields["average_rating"]) == AverageFor(medias, receta)
    ensures r.Ok? && !receta.JObj? ==> r.value == receta
    ensures receta.JNull? ==> r.TypeError?
  {
    match AverageFor(medias, receta)
    case TypeError => TypeError
    case Ok(avg) =>
      match receta
      case JNull => TypeError
      case JObj(f) => Ok(JObj(f["average_rating" := avg]))
      case _ => Ok(receta)
  }

  /** `recetas.map(...)` as a value: the serialized recipes in order, or a TypeError when
      the callback throws for any of them. */
  function AttachAll(recetas: seq<Json>, medias: Json): (r: Eval<seq<Json>>)
    ensures r.Ok? ==> |r.value| == |recetas|
    ensures r.Ok? ==> forall i :: 0 <= i < |recetas| ==> Attached(medias, recetas[i]) == Ok(r.value[i])
    ensures r.TypeError? <==> exists i :: 0 <= i < |recetas| && Attached(medias, recetas[i]).TypeError?
  {
    MapEach(recetas, receta => Attached(medias, receta))
  }

  /** The reply GET /api/v1/recetas gives: 500 with the fixed message when either call
      fails or anything throws, and otherwise 200 with every recipe rated. */
  function ExpectedList(catalog: Upstream, ratings: Upstream): Response {
    if catalog.Failed? || ratings.Failed? || !catalog.data.JArr? then Response(500, ErrorBody(ListMessage))
    else
      match AttachAll(catalog.data.items, ratings.data)
      case TypeError => Response(500, ErrorBody(ListMessage))
      case Ok(items) => Response(200, JArr(items))
  }

  /** The catalog array as parsed: a fresh object per JSON object. */
  method Materialize(data: seq<Json>) returns (items: seq<Item>)
    ensures |items| == |data| && Parsed(items)
    ensures forall i :: 0 <= i < |data| ==> Snapshot(items[i]) == data[i]
    ensures forall i :: 0 <= i < |data| && items[i].Obj? ==> fresh(items[i].receta)
  {
    items := [];
    var i := 0;
    while i < |data|
      invariant 0 <= i <= |data| && |items| == i && Parsed(items)
      invariant forall j :: 0 <= j < i ==> Snapshot(items[j]) == data[j]
      invariant forall j :: 0 <= j < i && items[j].Obj? ==> fresh(items[j].receta)
    {
      if data[i].JObj? {
        var r := new Receta(data[i].fields);
        items := items + [Obj(r)];
      } else {
        items := items + [Prim(data[i])];
      }
      i := i + 1;
    }
  }

  /** The `map` callback run over every element in turn: each object gets its
      `average_rating` written in place. Succeeds exactly when no callback throws. */
  method AttachAverages(items: seq<Item>, medias: Json) returns (ok: bool)
    requires Parsed(items)
    modifies Objects(items)
    ensures ok <==> forall i :: 0 <= i < |items| ==> Attached(medias, old(Snapshot(items[i]))).Ok?
    ensures ok ==> forall i :: 0 <= i < |items| ==> Attached(medias, old(Snapshot(items[i]))) == Ok(Snapshot(items[i]))
  {
    var i := 0;
    while i < |items|
      invariant 0 <= i <= |items|
      invariant forall j :: 0 <= j < i ==> Attached(medias, old(Snapshot(items[j]))) == Ok(Snapshot(items[j]))
      invariant forall j :: i <= j < |items| ==> Snapshot(items[j]) == old(Snapshot(items[j]))
    {
      var it := items[i];
      var avg := AverageFor(medias, Snapshot(it));
      if avg.TypeError? || Snapshot(it).JNull? {
        return false;
      }
      if it.Obj? {
        it.receta.fields := it.receta.fields["average_rating" := avg.value];
      }
      i := i + 1;
    }
    return true;
  }

  /** `res.json(...)`: the serialized elements, in order. */
  method Serialize(items: seq<Item>) returns (out: seq<Json>)
    ensures |out| == |items| && forall i :: 0 <= i < |items| ==> out[i] == Snapshot(items[i])
  {
    out := [];
    var i := 0;
    while i < |items|
      invariant 0 <= i <= |items| && |out| == i
      invariant forall j :: 0 <= j < i ==> out[j] == Snapshot(items[j])
    {
      out := out + [Snapshot(items[i])];
      i := i + 1;
    }
  }

  /** GET /api/v1/recetas. */
  method ListRecipes(catalog: Upstream, ratings: Upstream) returns (res: Response)
    ensures res == ExpectedList(catalog, ratings)
  {
    if catalog.Failed? || ratings.Failed? || !catalog.data.JArr? {
      return Response(500, ErrorBody(ListMessage));
    }
    var data := catalog.data.items;
    var recetas := Materialize(data);
    label parsed:
    var ok := AttachAverages(recetas, ratings.data);
    assert forall i :: 0 <= i < |data| ==> old@parsed(Snapshot(recetas[i])) == data[i];
    var expected := AttachAll(data, ratings.data);
    if !ok {
      return Response(500, ErrorBody(ListMessage));
    }
    var items := Serialize(recetas);
    assert items == expected.value;
    res := Response(200, JArr(items));
  }

  /** All or nothing: the reply is 200 with one item per catalog recipe, in order, each the
      recipe with its rating attached, or else 500 with the fixed message. */
  lemma {:induction false} ListAllOrNothing(catalog: Upstream, ratings: Upstream)
    ensures var res := ExpectedList(catalog, ratings);
      res.status == 200 || res == Response(500, ErrorBody(ListMessage))
    ensures var res := ExpectedList(catalog, ratings);
      res.status == 200 <==>
        catalog.Replied? && ratings.Replied? && catalog.data.JArr?
        && forall i :: 0 <= i < |catalog.data.items| ==> Attached(ratings.data, catalog.data.items[i]).Ok?
    ensures var res := ExpectedList(catalog, ratings);
      res.status == 200 ==>
        res.body.JArr? && |res.body.items| == |catalog.data.items|
        && forall i :: 0 <= i < |catalog.data.items| ==>
             Attached(ratings.data, catalog.data.items[i]) == Ok(res.body.items[i])
  {
    if catalog.Replied? && ratings.Replied? && catalog.data.JArr? {
      var r := AttachAll(catalog.data.items, ratings.data);
      if r.TypeError? {
        var i :| 0 <= i < |catalog.data.items| && Attached(ratings.data, catalog.data.items[i]).TypeError?;
      }
    }
  }

  /** `average_rating` is `null` exactly when no entry of the averages list has the
      recipe's `receta_id`, or the entry found is itself falsy. */
  lemma AverageNullIff(medias: Json, receta: Json)
    requires AverageFor(medias, receta).Ok?
    ensures medias.JArr?
    ensures var found := FindFirst(medias.items, "receta_id", receta, "receta_id");
      && found.Ok?
      && (AverageFor(medias, receta).value.JNull? <==> found.value.None? || !Truthy(found.value))
      && (found.value.None? <==>
            forall i :: 0 <= i < |medias.items| ==> !FieldsMatch(medias.items[i], "receta_id", receta, "receta_id"))
  {
    var found := FindFirst(medias.items, "receta_id", receta, "receta_id");
    if found.value.Some? {
      var i :| 0 <= i < |medias.items| && medias.items[i] == found.value.value
        && FieldsMatch(medias.items[i], "receta_id", receta, "receta_id");
    }
  }

  /** A non-null `average_rating` is the matched entry's `average_rating` rounded to one
      decimal: within 0.05 of it. */
  lemma AverageRounded(medias: Json, receta: Json)
    requires AverageFor(medias, receta).Ok? && !AverageFor(medias, receta).value.JNull?
    ensures medias.JArr?
    ensures var found := FindFirst(medias.items, "receta_id", receta, "receta_id");
      found.Ok? && found.value.Some? && Truthy(found.value)
      && var given := Get(found.value.value, "average_rating");
      var avg := AverageFor(medias, receta).value;
      && given.Some? && given.value.JNum? && avg.JNum? && avg.n.places == 1
      && NumValue(given.value.n) - 0.05 <= NumValue(avg.n) <= NumValue(given.value.n) + 0.05
  {
    assert Pow10(1) == 10;
  }

  /** The routes that only forward a request and relay the reply. */
  datatype Route =
    | CreateRecipe(recipeBody: Json)
    | CreateRating(recetaId: string, ratingBody: Json)
    | RatingsOf(recetaId: string)
    | RecipeDetail(recetaId: string)
    | Ingest

  /** The upstream call each proxy route makes; the creating routes send the request body
      unchanged. */
  function UpstreamCall(r: Route): (c: Call)
    ensures c.body.Some? <==> (r.CreateRecipe? || r.CreateRating?)
    ensures r.CreateRecipe? ==> c == Call(CatalogService, POST, "/recetas", Some(r.recipeBody))
    ensures r.CreateRating? ==> c == Call(RatingsService, POST, "/valoraciones/" + r.recetaId, Some(r.ratingBody))
    ensures c.service == CatalogService <==> (r.CreateRecipe? || r.RecipeDetail? || r.Ingest?)
  {
    match r
    case CreateRecipe(b) => Call(CatalogService, POST, "/recetas", Some(b))
    case CreateRating(id, b) => Call(RatingsService, POST, "/valoraciones/" + id, Some(b))
    case RatingsOf(id) => Call(RatingsService, GET, "/valoraciones/" + id, None)
    case RecipeDetail(id) => Call(CatalogService, GET, "/recetas/" + id, None)
    case Ingest => Call(CatalogService, POST, "/admin/cargar_datos", None)
  }

  function FailureMessage(r: Route): string {
    match r
    case CreateRecipe(_) => "Error al intentar contactar al Microservicio de Catálogo."
    case CreateRating(_, _) => "Error al intentar contactar al Microservicio de Valoraciones."
    case RatingsOf(_) => "Error al intentar contactar al Microservicio de Valoraciones."
    case RecipeDetail(_) => "No se pudo contactar al Microservicio de Catálogo o la receta no existe."
    case Ingest => "Error al intentar contactar al Microservicio de Catálogo para la ingesta."
  }

  /** A proxy route's reply: the upstream status and data when the call resolved, and the
      relay rule otherwise. */
  function Proxy(r: Route, u: Upstream): (res: Response)
    ensures u.Replied? ==> res == Response(u.status, u.data)
    ensures u.Failed? ==> res.status == (if u.response.Some? then u.response.value.status else 500)
    ensures u.Failed? ==> Truthy(Some(res.body))
    ensures Conforms(u) ==> (IsSuccess(res.status) <==> u.Replied?)
  {
    RelayFailureFacts(u, FailureMessage(r));
    Relay(u, FailureMessage(r))
  }
}
