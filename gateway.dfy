/** The first API gateway (api-gateway/server.js): the recipe list merged with the ratings
    summary and sanitised for the page, the detail merge with its own fallback, and the
    proxy routes that relay a microservice's reply. */
module Gateway {
  import opened Text
  import opened Js
  import opened Http

  const ListMessage := "Fallo de conexión al Catálogo o error interno."
  const DetailMessage := "Error al intentar contactar al Microservicio de Catálogo."

  /** `v.recetaId === receta.receta_id` for elements that can be read. */
  predicate Matches(v: Json, receta: Json) {
    FieldsMatch(v, "recetaId", receta, "receta_id")
  }

  /** `valoraciones.find(v => v.recetaId === receta.receta_id)`: a TypeError unless
      `valoraciones` is an array. */
  function FindRating(valoraciones: Json, receta: Json): Eval<Value> {
    if valoraciones.JArr? then FindFirst(valoraciones.items, "recetaId", receta, "receta_id") else TypeError
  }

  /** The sanitised value of a text field: kept when truthy, `''` otherwise. */
  function OrEmpty(v: Value): (j: Json)
    ensures Truthy(v) ==> Some(j) == v
    ensures !Truthy(v) ==> j == JStr("")
  {
    Or(v, JStr("")).value
  }

  /** The names the list handler sets on every recipe. */
  predicate IsListKey(k: string) {
    k == "nombre" || k == "ingredientes" || k == "instrucciones" || k == "categoria"
    || k == "promedio" || k == "total_votos"
  }

  /** The `safe_receta` object built for one recipe and the rating found for it. */
  function SafeRecipe(receta: Json, rating: Value): (r: Eval<Json>)
    ensures r.TypeError? <==> receta.JNull?
    ensures r.Ok? ==> r.value.JObj?
    ensures r.Ok? ==> forall k :: !IsListKey(k) ==>
              (k in r.value.fields <==> k in Spread(receta))
              && (k in r.value.fields ==> r.value.fields[k] == Spread(receta)[k])
    ensures r.Ok? ==> TextFieldsSanitised(r.value.fields, receta)
    ensures r.Ok? && !Truthy(rating) ==>
              "promedio" in r.value.fields && r.value.fields["promedio"] == Int(0)
              && "total_votos" in r.value.fields && r.value.fields["total_votos"] == Int(0)
    ensures r.Ok? && Truthy(rating) ==>
              CopiedFrom(r.value.fields, rating.value, "promedio")
              && CopiedFrom(r.value.fields, rating.value, "total_votos")
  {
    if receta.JNull? then TypeError
    else
      var m := SanitisedCopy(receta);
      var promedio := if Truthy(rating) then Get(rating.value, "promedio") else Some(Int(0));
      var votos := if Truthy(rating) then Get(rating.value, "total_votos") else Some(Int(0));
      var f := Put(Put(m, "promedio", promedio), "total_votos", votos);
      RatingPut(m, promedio, votos, f);
      Ok(JObj(f))
  }

  /** Putting the two rating fields leaves every other field as it was. */
  lemma RatingPut(m: map<string, Json>, promedio: Value, votos: Value, f: map<string, Json>)
    requires f == Put(Put(m, "promedio", promedio), "total_votos", votos)
    ensures forall k :: k != "promedio" && k != "total_votos" ==> (k in f <==> k in m) && (k in f ==> f[k] == m[k])
    ensures ("promedio" in f <==> promedio.Some?) && ("promedio" in f ==> f["promedio"] == promedio.value)
    ensures ("total_votos" in f <==> votos.Some?) && ("total_votos" in f ==> f["total_votos"] == votos.value)
  {
  }

  /** `{...receta, nombre: ..., ingredientes: ..., instrucciones: ..., categoria: ...}`. */
  function SanitisedCopy(receta: Json): (m: map<string, Json>)
    ensures forall k :: !IsListKey(k) ==>
              (k in m <==> k in Spread(receta)) && (k in m ==> m[k] == Spread(receta)[k])
    ensures TextFieldsSanitised(m, receta)
  {
    Spread(receta)["nombre" := OrEmpty(Get(receta, "nombre"))]
      ["ingredientes" := OrEmpty(Get(receta, "ingredientes"))]
      ["instrucciones" := OrEmpty(Get(receta, "instrucciones"))]
      ["categoria" := OrEmpty(Get(receta, "categoria"))]
  }

  /** The four text fields hold the recipe's value when truthy and `''` otherwise. */
  predicate TextFieldsSanitised(f: map<string, Json>, receta: Json) {
    && "nombre" in f && f["nombre"] == OrEmpty(Get(receta, "nombre"))
    && "ingredientes" in f && f["ingredientes"] == OrEmpty(Get(receta, "ingredientes"))
    && "instrucciones" in f && f["instrucciones"] == OrEmpty(Get(receta, "instrucciones"))
    && "categoria" in f && f["categoria"] == OrEmpty(Get(receta, "categoria"))
  }

  /** Field `k` of `f` is `rating[k]`, absent when the rating has no such field (an
      `undefined` value is left out of the JSON reply). */
  predicate CopiedFrom(f: map<string, Json>, rating: Json, k: string) {
    (k in f <==> Get(rating, k).Some?) && (k in f ==> f[k] == Get(rating, k).value)
  }

  /** The callback of `recetas.map(...)` for one recipe. */
  function AggregateItem(valoraciones: Json, receta: Json): Eval<Json> {
    match FindRating(valoraciones, receta)
    case TypeError => TypeError
    case Ok(rating) => SafeRecipe(receta, rating)
  }

  /** `recetas.map(...)`: one item per recipe, in order; the whole map throws when the
      callback throws for any recipe. */
  function AggregateList(recetas: seq<Json>, valoraciones: Json): (r: Eval<seq<Json>>)
    ensures r.TypeError? <==> exists i :: 0 <= i < |recetas| && AggregateItem(valoraciones, recetas[i]).TypeError?
    ensures r.Ok? ==> |r.value| == |recetas|
    ensures r.Ok? ==> forall i :: 0 <= i < |recetas| ==> AggregateItem(valoraciones, recetas[i]) == Ok(r.value[i])
  {
    MapEach(recetas, receta => AggregateItem(valoraciones, receta))
  }

  /** GET /api/v1/recetas, given what the catalog call and the ratings call returned. A
      failed ratings call leaves the ratings list empty; anything thrown afterwards, or a
      failed catalog call, ends in the catch block. */
  function ListRecipes(catalog: Upstream, ratings: Upstream): Response {
    match catalog
    case Failed(_) => Relay(catalog, ListMessage)
    case Replied(_, recetas) =>
      if !recetas.JArr? then Relay(Failed(None), ListMessage)
      else
        match AggregateList(recetas.items, RatingsOrEmpty(ratings))
        case TypeError => Relay(Failed(None), ListMessage)
        case Ok(items) => Response(200, JArr(items))
  }

  /** The ratings list the list handler works with. */
  function RatingsOrEmpty(ratings: Upstream): Json {
    if ratings.Replied? then ratings.data else JArr([])
  }

  /** The list reply is 200 exactly when the catalog answered with an array and every
      recipe could be merged; then it holds one merged item per recipe, in catalog order.
      Otherwise the reply is the catch block's relay. */
  lemma {:induction false} ListRecipesShape(catalog: Upstream, ratings: Upstream)
    ensures var res := ListRecipes(catalog, ratings);
      res.status == 200 && catalog.Replied? && catalog.data.JArr? ==>
        res.body.JArr? && |res.body.items| == |catalog.data.items|
        && forall i :: 0 <= i < |catalog.data.items| ==>
             AggregateItem(RatingsOrEmpty(ratings), catalog.data.items[i]) == Ok(res.body.items[i])
    ensures catalog.Failed? ==> ListRecipes(catalog, ratings) == Relay(catalog, ListMessage)
    ensures catalog.Replied? ==>
      (ListRecipes(catalog, ratings).status == 200 <==>
        catalog.data.JArr? && forall i :: 0 <= i < |catalog.data.items| ==>
          AggregateItem(RatingsOrEmpty(ratings), catalog.data.items[i]).Ok?)
    ensures catalog.Replied? && ListRecipes(catalog, ratings).status != 200 ==>
      ListRecipes(catalog, ratings) == Response(500, ErrorBody(ListMessage))
  {
    if catalog.Replied? && catalog.data.JArr? {
      var r := AggregateList(catalog.data.items, RatingsOrEmpty(ratings));
      if r.TypeError? {
        var i :| 0 <= i < |catalog.data.items| && AggregateItem(RatingsOrEmpty(ratings), catalog.data.items[i]).TypeError?;
      }
    }
  }

  /** When the ratings call fails, the list is still served with status 200, and every
      recipe carries `promedio` 0 and `total_votos` 0 (given the catalog returned an array
      of recipes, none of them `null`). */
  lemma {:induction false} ListWithoutRatings(catalog: Upstream, ratings: Upstream)
    requires catalog.Replied? && catalog.data.JArr?
    requires forall i :: 0 <= i < |catalog.data.items| ==> !catalog.data.items[i].JNull?
    requires ratings.Failed?
    ensures ListRecipes(catalog, ratings).status == 200
    ensures var items := ListRecipes(catalog, ratings).body.items;
      |items| == |catalog.data.items|
      && forall i :: 0 <= i < |items| ==>
           items[i].JObj? && "promedio" in items[i].fields && items[i].fields["promedio"] == Int(0)
           && "total_votos" in items[i].fields && items[i].fields["total_votos"] == Int(0)
  {
    var recetas := catalog.data.items;
    forall i | 0 <= i < |recetas|
      ensures AggregateItem(JArr([]), recetas[i]) == SafeRecipe(recetas[i], None)
      ensures SafeRecipe(recetas[i], None).Ok?
    {
    }
    ListRecipesShape(catalog, ratings);
  }

  /** Every item of a 200 list reply is the recipe with its four text fields sanitised and
      all its other fields (other than the two rating fields) copied unchanged; the rating
      fields come from the first ratings entry whose `recetaId` is the recipe's
      `receta_id`, and are 0 when there is none. */
  lemma ListItemContents(catalog: Upstream, ratings: Upstream, i: nat)
    requires ListRecipes(catalog, ratings).status == 200
    requires catalog.Replied? && i < |catalog.data.items|
    ensures catalog.data.JArr?
    ensures var item := ListRecipes(catalog, ratings).body.items[i];
      var receta := catalog.data.items[i];
      var rating := FindRating(RatingsOrEmpty(ratings), receta);
      && rating.Ok?
      && item.JObj?
      && TextFieldsSanitised(item.fields, receta)
      && (forall k :: !IsListKey(k) ==>
            (k in item.fields <==> k in Spread(receta))
            && (k in item.fields ==> item.fields[k] == Spread(receta)[k]))
      && (Truthy(rating.value) ==>
            CopiedFrom(item.fields, rating.value.value, "promedio")
            && CopiedFrom(item.fields, rating.value.value, "total_votos"))
      && (!Truthy(rating.value) ==> item.fields["promedio"] == Int(0) && item.fields["total_votos"] == Int(0))
  {
    ListRecipesShape(catalog, ratings);
  }

  /** Whether the detail handler's ratings block completes: the call resolved and its data
      is not `null` (reading `rating.promedio` on `null` throws into the inner catch). */
  predicate RatingReadable(ratings: Upstream) {
    ratings.Replied? && !ratings.data.JNull?
  }

  /** GET /api/v1/recetas/:id. `receta` is rebuilt by a spread in either branch of the
      ratings block and then three of its fields are assigned in place; `instrucciones` is
      not sanitised here. */
  method Detail(catalog: Upstream, ratings: Upstream) returns (res: Response)
    ensures catalog.Failed? ==> res == Relay(catalog, DetailMessage)
    ensures catalog.Replied? ==> res.status == 200 && res.body.JObj?
    ensures catalog.Replied? ==> DetailSanitised(res.body.fields, catalog.data)
    ensures catalog.Replied? ==> forall k :: !IsDetailKey(k) ==>
              (k in res.body.fields <==> k in Spread(catalog.data))
              && (k in res.body.fields ==> res.body.fields[k] == Spread(catalog.data)[k])
    ensures catalog.Replied? && RatingReadable(ratings) ==>
              CopiedFrom(res.body.fields, ratings.data, "promedio")
              && CopiedFrom(res.body.fields, ratings.data, "total_votos")
    ensures catalog.Replied? && !RatingReadable(ratings) ==>
              "promedio" in res.body.fields && res.body.fields["promedio"] == Int(0)
              && "total_votos" in res.body.fields && res.body.fields["total_votos"] == Int(0)
  {
    if catalog.Failed? {
      return Relay(catalog, DetailMessage);
    }
    var receta := catalog.data;
    var fields: map<string, Json>;
    if RatingReadable(ratings) {
      var rating := ratings.data;
      fields := Put(Put(Spread(receta), "promedio", Get(rating, "promedio")), "total_votos", Get(rating, "total_votos"));
    } else {
      fields := Spread(receta)["promedio" := Int(0)]["total_votos" := Int(0)];
    }
    RatedFields(receta, ratings, fields);
    var rated := fields;
    fields := fields["nombre" := OrEmpty(if "nombre" in fields then Some(fields["nombre"]) else None)];
    fields := fields["categoria" := OrEmpty(if "categoria" in fields then Some(fields["categoria"]) else None)];
    fields := fields["ingredientes" := OrEmpty(if "ingredientes" in fields then Some(fields["ingredientes"]) else None)];
    SanitisedFields(receta, ratings, rated, fields);
    res := Response(200, JObj(fields));
  }

  /** Every field of the spread recipe other than the two rating fields, unchanged. */
  ghost predicate KeepsRecipe(f: map<string, Json>, receta: Json) {
    forall k :: k != "promedio" && k != "total_votos" ==>
      (k in f <==> k in Spread(receta)) && (k in f ==> f[k] == Spread(receta)[k])
  }

  /** The two rating fields the detail handler sets. */
  predicate RatingFields(f: map<string, Json>, ratings: Upstream) {
    if RatingReadable(ratings) then
      CopiedFrom(f, ratings.data, "promedio") && CopiedFrom(f, ratings.data, "total_votos")
    else
      "promedio" in f && f["promedio"] == Int(0) && "total_votos" in f && f["total_votos"] == Int(0)
  }

  /** The object the detail handler's ratings block builds. */
  lemma RatedFields(receta: Json, ratings: Upstream, f: map<string, Json>)
    requires RatingReadable(ratings) ==>
      f == Put(Put(Spread(receta), "promedio", Get(ratings.data, "promedio")), "total_votos",
               Get(ratings.data, "total_votos"))
    requires !RatingReadable(ratings) ==> f == Spread(receta)["promedio" := Int(0)]["total_votos" := Int(0)]
    ensures KeepsRecipe(f, receta) && RatingFields(f, ratings)
  {
  }

  /** The three fields assigned in place after the ratings block. */
  lemma SanitisedFields(receta: Json, ratings: Upstream, rated: map<string, Json>, f: map<string, Json>)
    requires KeepsRecipe(rated, receta) && RatingFields(rated, ratings)
    requires f == rated["nombre" := OrEmpty(if "nombre" in rated then Some(rated["nombre"]) else None)]
                       ["categoria" := OrEmpty(if "categoria" in rated then Some(rated["categoria"]) else None)]
                       ["ingredientes" := OrEmpty(if "ingredientes" in rated then Some(rated["ingredientes"]) else None)]
    ensures DetailSanitised(f, receta)
    ensures forall k :: !IsDetailKey(k) ==>
              (k in f <==> k in Spread(receta)) && (k in f ==> f[k] == Spread(receta)[k])
    ensures RatingFields(f, ratings)
  {
    NamedKeys();
    SpreadGet(receta, "nombre");
    SpreadGet(receta, "categoria");
    SpreadGet(receta, "ingredientes");
  }

  /** The names the detail handler sets. */
  predicate IsDetailKey(k: string) {
    k == "nombre" || k == "categoria" || k == "ingredientes" || k == "promedio" || k == "total_votos"
  }

  /** `nombre`, `categoria` and `ingredientes` hold the recipe's value when truthy and
      `''` otherwise. */
  predicate DetailSanitised(f: map<string, Json>, receta: Json) {
    && "nombre" in f && f["nombre"] == OrEmpty(Get(receta, "nombre"))
    && "categoria" in f && f["categoria"] == OrEmpty(Get(receta, "categoria"))
    && "ingredientes" in f && f["ingredientes"] == OrEmpty(Get(receta, "ingredientes"))
  }

  /** None of the names the handlers set is an array index. */
  lemma NamedKeys()
    ensures !IsIndexKey("nombre") && !IsIndexKey("categoria") && !IsIndexKey("ingredientes")
    ensures !IsIndexKey("instrucciones")
  {
    assert !IsDigit("nombre"[0]) && !IsDigit("categoria"[0]) && !IsDigit("ingredientes"[0]);
    assert !IsDigit("instrucciones"[0]);
  }

  /** Detail keeps `instrucciones` exactly as the catalog sent it, falsy or absent included,
      unlike the list handler. */
  lemma DetailKeepsInstructions(catalog: Upstream, ratings: Upstream, res: Response)
    requires catalog.Replied? && catalog.data.JObj?
    requires res.status == 200 && res.body.JObj?
    requires forall k :: !IsDetailKey(k) ==>
               (k in res.body.fields <==> k in Spread(catalog.data))
               && (k in res.body.fields ==> res.body.fields[k] == Spread(catalog.data)[k])
    ensures ("instrucciones" in res.body.fields) == ("instrucciones" in catalog.data.fields)
    ensures "instrucciones" in res.body.fields ==>
              res.body.fields["instrucciones"] == catalog.data.fields["instrucciones"]
  {
    assert !IsDetailKey("instrucciones");
  }

  /** The routes that only forward a request and relay the reply. */
  datatype Route =
    | Ingest
    | RatingsOf(recetaId: string)
    | RatingAverage(recetaId: string)
    | CreateRating(ratingBody: Json)
    | CreateRecipe(recipeBody: Json)

  /** The upstream call each proxy route makes. The creating routes send the request body
      they received, unchanged; the others send no body. */
  function UpstreamCall(r: Route): (c: Call)
    ensures c.body.Some? <==> (r.CreateRating? || r.CreateRecipe?)
    ensures r.CreateRating? ==> c == Call(RatingsService, POST, "/valoraciones", Some(r.ratingBody))
    ensures r.CreateRecipe? ==> c == Call(CatalogService, POST, "/recetas", Some(r.recipeBody))
    ensures c.service == CatalogService <==> (r.Ingest? || r.CreateRecipe?)
  {
    match r
    case Ingest => Call(CatalogService, POST, "/admin/cargar_datos", None)
    case RatingsOf(id) => Call(RatingsService, GET, "/valoraciones/" + id, None)
    case RatingAverage(id) => Call(RatingsService, GET, "/valoraciones/" + id + "/media", None)
    case CreateRating(b) => Call(RatingsService, POST, "/valoraciones", Some(b))
    case CreateRecipe(b) => Call(CatalogService, POST, "/recetas", Some(b))
  }

  /** The message each proxy route answers with when its service gave no usable reply. */
  function FailureMessage(r: Route): string {
    match r
    case Ingest => "Error al intentar contactar al Microservicio de Catálogo para la ingesta."
    case RatingsOf(_) => "Error al intentar contactar al Microservicio de Valoraciones para obtener comentarios."
    case RatingAverage(_) => "Error al intentar contactar al Microservicio de Valoraciones para obtener la media."
    case CreateRating(_) => "Error al intentar contactar al Microservicio de Valoraciones para la creación."
    case CreateRecipe(_) => "Error al intentar contactar al Microservicio de Catálogo para la creación."
  }

  /** A proxy route's reply: the upstream status and data when the call resolved, and the
      relay rule otherwise. */
  function Proxy(r: Route, u: Upstream): (res: Response)
    ensures u.Replied? ==> res == Response(u.status, u.data)
    ensures u.Failed? ==> res.status == (if u.response.Some? then u.response.value.status else 500)
    ensures u.Failed? ==> Truthy(Some(res.body))
    ensures Conforms(u) ==> (IsSuccess(res.status) <==> u.Replied?)
  {
    RelayFailureFacts(u, FailureMessage(r));
    Relay(u, FailureMessage(r))
  }
}
