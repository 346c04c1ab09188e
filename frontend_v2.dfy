/** The single-page client of the second layout (RecetasProyecto/frontend/app.js): the
    list load with its status line, the title-only search, the rating badge on a card, the
    rating form's guard and the parsing of the ingredients field. */
module FrontendV2 {
  import opened Text
  import opened Js
  import opened Frontend
  import GatewayV2

  // ---------------------------------------------------------------- search

  /** The callback of this client's search: the lower-cased title holds the term. */
  function TitleKeeps(receta: Json, term: string): (r: Eval<bool>)
    ensures r.TypeError? <==> !HasTitle(receta)
    ensures r.Ok? ==> (r.value <==> Contains(Lower(Get(receta, "titulo").value.s), term))
  {
    match Prop(Some(receta), "titulo")
    case TypeError => TypeError
    case Ok(t) =>
      match LowerOf(t)
      case TypeError => TypeError
      case Ok(title) => Ok(Contains(title, term))
  }

  /** `filterRecetas`' filter: the recipes whose title holds the lower-cased search text,
      in their loaded order; ingredients play no part. */
  function TitleSearch(all: Json, input: string): (r: Eval<seq<Json>>)
    ensures !all.JArr? ==> r.TypeError?
    ensures all.JArr? && r.Ok? ==> Subseq(r.value, all.items)
    ensures all.JArr? && r.Ok? ==>
              forall x :: x in r.value <==> x in all.items && TitleKeeps(x, Lower(input)) == Ok(true)
    ensures all.JArr? && r.Ok? ==>
              forall x :: multiset(r.value)[x] ==
                            if TitleKeeps(x, Lower(input)) == Ok(true) then multiset(all.items)[x] else 0
    ensures all.JArr? ==>
              (r.TypeError? <==> exists i :: 0 <= i < |all.items| && !HasTitle(all.items[i]))
  {
    if all.JArr? then Filter(all.items, receta => TitleKeeps(receta, Lower(input))) else TypeError
  }

  /** Against the first client's search: wherever that one succeeds this one does too,
      and it keeps only recipes the first one keeps. */
  lemma TitleSearchNarrower(items: seq<Json>, input: string)
    requires Search(JArr(items), input).Ok?
    ensures TitleSearch(JArr(items), input).Ok?
    ensures forall x :: x in TitleSearch(JArr(items), input).value ==> x in Search(JArr(items), input).value
  {
    var term := Lower(input);
    SearchThrows(items, input);
    forall i | 0 <= i < |items|
      ensures HasTitle(items[i])
    {
      assert !Keeps(items[i], term).TypeError?;
    }
    SearchKeeps(items, input);
  }

  // ---------------------------------------------------------------- a recipe card

  const Unrated := "<span class=\"text-gray-400\">Sin valorar</span>"

  /** The rating badge: `Sin valorar` exactly when the average is `null`; otherwise the
      average as text followed by a star. An absent average is not `null` and prints as
      `undefined`. */
  function RatingBadge(avg: Value): (r: string)
    ensures r == Unrated <==> avg == Some(JNull)
    ensures avg != Some(JNull) ==>
              r == "<span class=\"text-yellow-500 font-bold\">" + Template(avg) + " ⭐</span>"
  {
    if !StrictEq(avg, Some(JNull)) then
      var r := "<span class=\"text-yellow-500 font-bold\">" + Template(avg) + " ⭐</span>";
      assert r[18] != Unrated[18];
      r
    else Unrated
  }

  /** On the averages the second gateway attaches, the badge says `Sin valorar` exactly
      when no ratings entry matched the recipe or the entry found is falsy. */
  lemma BadgeOfGatewayAverage(medias: Json, receta: Json)
    requires GatewayV2.AverageFor(medias, receta).Ok?
    ensures medias.JArr?
    ensures var found := FindFirst(medias.items, "receta_id", receta, "receta_id");
            found.Ok?
            && (RatingBadge(Some(GatewayV2.AverageFor(medias, receta).value)) == Unrated
                <==> found.value.None? || !Truthy(found.value))
  {
    GatewayV2.AverageNullIff(medias, receta);
  }

  // ---------------------------------------------------------------- list load

  const GatewayFailure := "El Gateway no pudo obtener la lista de recetas."
  const EmptyMessage := "No se encontraron recetas. Intenta cargar datos con el botón de administración."

  /** The status line when `loadRecetas` catches an error with the given message. */
  function LoadFailure(message: string): string {
    "❌ Error al cargar recetas: " + message + ". Asegúrate de que todos los microservicios están activos."
  }

  function ShowingMessage(n: nat): string {
    "Mostrando " + NatToString(n) + " recetas."
  }

  /** What the page shows: the status line and the recipes with a card. */
  datatype View = View(status: string, shown: seq<Json>)

  /** `filterRecetas` when it completes: the kept recipes get cards and are counted. */
  function Listing(kept: seq<Json>): View {
    View(ShowingMessage(|kept|), kept)
  }

  /** The page after a good response whose body parsed to `list`. `thrown` is the message
      of a TypeError the engine raises, which the catch block prints. */
  function LoadView(list: Json, input: string, thrown: string): (v: View)
    ensures list.JNull? ==> v == View(LoadFailure(thrown), [])
    ensures list == JArr([]) ==> v == View(EmptyMessage, [])
  {
    match LengthOf(Some(list))
    case TypeError => View(LoadFailure(thrown), [])
    case Ok(len) =>
      if StrictEq(len, Some(Int(0))) then View(EmptyMessage, [])
      else
        match TitleSearch(list, input)
        case TypeError => View(LoadFailure(thrown), [])
        case Ok(kept) => Listing(kept)
  }

  /** For a non-empty array of titled recipes the page lists the matching ones in order
      and the status line counts exactly those. */
  lemma LoadCounts(items: seq<Json>, input: string, thrown: string)
    requires |items| > 0 && forall i :: 0 <= i < |items| ==> HasTitle(items[i])
    ensures var v := LoadView(JArr(items), input, thrown);
            Subseq(v.shown, items) && v.status == ShowingMessage(|v.shown|)
            && (forall x :: x in v.shown <==> x in items && TitleKeeps(x, Lower(input)) == Ok(true))
            && forall x :: multiset(v.shown)[x] ==
                             if TitleKeeps(x, Lower(input)) == Ok(true) then multiset(items)[x] else 0
  {
    assert LengthOf(Some(JArr(items))) == Ok(Some(Int(|items|)));
    assert !StrictEq(Some(Int(|items|)), Some(Int(0)));
  }

  // ---------------------------------------------------------------- rating form

  const MissingIdMessage := "❌ Error: ID de receta no encontrado."

  datatype RatingPost = Refused | Post(path: string, body: Json)

  /** `handleRatingSubmit`: only a missing recipe stops the request; the recipe goes in
      the path and the body carries the parsed score and the comment. */
  function SubmitV2(currentRecipeId: Value, score: string, comment: string): (p: RatingPost)
    ensures p.Refused? <==> !Truthy(currentRecipeId)
    ensures p.Post? ==>
              p.path == "/api/v1/valoraciones/" + Template(currentRecipeId)
              && p.body.JObj? && p.body.fields.Keys == {"puntuacion", "comentario"}
              && p.body.fields["comentario"] == JStr(comment)
  {
    if !Truthy(currentRecipeId) then Refused
    else
      Post("/api/v1/valoraciones/" + ToJsString(currentRecipeId.value),
           JObj(map["puntuacion" := ParsedScore(score), "comentario" := JStr(comment)]))
  }

  /** Unlike the first client, an empty score is sent, as `null`. */
  lemma EmptyScoreSent(currentRecipeId: Value, comment: string)
    requires Truthy(currentRecipeId)
    ensures SubmitV2(currentRecipeId, "", comment).Post?
    ensures SubmitV2(currentRecipeId, "", comment).body.fields["puntuacion"] == JNull
    ensures Submit(currentRecipeId, "", comment) == NoScore
  {
    assert ParseInt("") == None;
  }

  // ---------------------------------------------------------------- ingredient parsing

  /** The ingredients field: the whole text trimmed, split on commas, each piece trimmed,
      the empty ones dropped. */
  function ParseIngredientsV2(s: string): (r: seq<string>)
    ensures r == ParseIngredients(s)
    ensures forall i :: 0 <= i < |r| ==> IsIngredient(r[i])
  {
    TrimFirstSamePieces(s);
    DropEmpty(TrimAll(Split(JsTrim(s), ',')))
  }

  /** Comma-free text around `core` only joins its first and its last piece: piece `i`
      of the whole is piece `i` of `core`, with `w1` in front of the first and `w2`
      behind the last. */
  lemma PiecesAround(w1: string, core: string, w2: string)
    requires ',' !in w1 && ',' !in w2
    ensures var q, whole := Split(core, ','), Split(w1 + (core + w2), ',');
            |whole| == |q| &&
            forall i :: 0 <= i < |q| ==>
              whole[i] == (if i == 0 then w1 else "") + q[i] + (if i == |q| - 1 then w2 else "")
  {
    SplitSuffix(core, w2, ',');
    SplitPrefix(w1, core + w2, ',');
    PiecesFrom(w1, Split(core, ','), w2, Split(core + w2, ','), Split(w1 + (core + w2), ','));
  }

  /** The same, over the lists of pieces: `p` has `w2` behind the last piece of `q`, and
      `whole` has `w1` in front of the first piece of `p`. */
  lemma PiecesFrom(w1: string, q: seq<string>, w2: string, p: seq<string>, whole: seq<string>)
    requires |q| >= 1 && p == q[..|q| - 1] + [q[|q| - 1] + w2]
    requires whole == [w1 + p[0]] + p[1..]
    ensures |whole| == |q|
    ensures forall i :: 0 <= i < |q| ==>
              whole[i] == (if i == 0 then w1 else "") + q[i] + (if i == |q| - 1 then w2 else "")
  {
    forall i | 0 <= i < |q|
      ensures whole[i] == (if i == 0 then w1 else "") + q[i] + (if i == |q| - 1 then w2 else "")
    {
      PieceAround(w1, q, w2, p, whole, i);
    }
  }

  /** Piece `i` after the first piece took `w1` in front and the last took `w2` behind. */
  lemma PieceAround(w1: string, q: seq<string>, w2: string, p: seq<string>,
                    whole: seq<string>, i: nat)
    requires i < |q| && p == q[..|q| - 1] + [q[|q| - 1] + w2]
    requires whole == [w1 + p[0]] + p[1..]
    ensures whole[i] == (if i == 0 then w1 else "") + q[i] + (if i == |q| - 1 then w2 else "")
  {
    var b := if i == |q| - 1 then w2 else "";
    assert p[i] == q[i] + b;
    if i == 0 {
      assert whole[i] == w1 + (q[i] + b);
    } else {
      assert whole[i] == p[i];
    }
  }

  /** Trimming the text before splitting changes no trimmed piece: the whitespace cut
      from the ends only ever sat around the first and the last piece. */
  lemma TrimFirstSamePieces(s: string)
    ensures TrimAll(Split(JsTrim(s), ',')) == TrimAll(Split(s, ','))
  {
    var core := JsTrim(s);
    var w1, w2 := TrimSplit(s, IsJsSpace);
    assert ',' !in w1 && ',' !in w2;
    PiecesAround(w1, core, w2);
    var q := Split(core, ',');
    var whole := Split(s, ',');
    forall i | 0 <= i < |q|
      ensures JsTrim(whole[i]) == JsTrim(q[i])
    {
      var a, b := if i == 0 then w1 else "", if i == |q| - 1 then w2 else "";
      TrimAround(a, q[i], b, IsJsSpace);
    }
  }

  // ---------------------------------------------------------------- page state

  /** The page's module-level state. */
  class PageV2 {
    var allRecetas: Json
    var currentRecipeId: Value
    var shown: seq<Json>
    var status: string

    constructor()
      ensures allRecetas == JArr([]) && currentRecipeId == Some(JNull) && shown == [] && status == ""
    {
      allRecetas := JArr([]);
      currentRecipeId := Some(JNull);
      shown := [];
      status := "";
    }

    /** `filterRecetas`, run by the search box and by a load: a throw leaves the page as
        it was. */
    method Refilter(input: string) returns (r: Eval<seq<Json>>)
      modifies this
      ensures r == TitleSearch(allRecetas, input)
      ensures r.Ok? ==> View(status, shown) == Listing(r.value)
      ensures r.TypeError? ==> status == old(status) && shown == old(shown)
      ensures allRecetas == old(allRecetas) && currentRecipeId == old(currentRecipeId)
    {
      r := TitleSearch(allRecetas, input);
      if r.Ok? {
        shown := r.value;
        status := ShowingMessage(|r.value|);
      }
    }

    /** `loadRecetas`: `body` is the parsed response, `None` when fetching or parsing it
        threw with the message `thrown`. A response that is not ok is an error before its
        body is read; otherwise the body becomes the list, whatever follows. */
    method Load(ok: bool, body: Option<Json>, input: string, thrown: string)
      modifies this
      ensures currentRecipeId == old(currentRecipeId)
      ensures !ok ==> allRecetas == old(allRecetas) && View(status, shown) == View(LoadFailure(GatewayFailure), [])
      ensures ok && body.None? ==> allRecetas == old(allRecetas) && View(status, shown) == View(LoadFailure(thrown), [])
      ensures ok && body.Some? ==> allRecetas == body.value && View(status, shown) == LoadView(body.value, input, thrown)
    {
      shown := [];
      if !ok {
        status := LoadFailure(GatewayFailure);
        return;
      }
      if body.None? {
        status := LoadFailure(thrown);
        return;
      }
      allRecetas := body.value;
      var len := LengthOf(Some(allRecetas));
      if len.TypeError? {
        status := LoadFailure(thrown);
        return;
      }
      if StrictEq(len.value, Some(Int(0))) {
        status := EmptyMessage;
        return;
      }
      var r := Refilter(input);
      if r.TypeError? {
        status := LoadFailure(thrown);
      }
    }

    /** `openModal(recetaId)` remembers the recipe the rating form is for; closing the modal
        in this client does not forget it. */
    method OpenModal(recetaId: Value)
      modifies this
      ensures currentRecipeId == recetaId
      ensures allRecetas == old(allRecetas) && shown == old(shown) && status == old(status)
    {
      currentRecipeId := recetaId;
    }

    /** Submitting the rating form changes no page state here. */
    method SubmitRating(score: string, comment: string) returns (p: RatingPost)
      ensures p == SubmitV2(currentRecipeId, score, comment)
    {
      p := SubmitV2(currentRecipeId, score, comment);
    }
  }
}
