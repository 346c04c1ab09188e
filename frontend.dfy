/** The single-page client of the first layout, whose helper logic is the same in
    src/frontend/app.js and frontend/app.js: the client-side search, the ingredient preview
    and image fallback on a card, the star rendering, the rating form's guards and the
    parsing of the ingredients field, plus the page state the handlers reassign (the loaded
    recipe list and the recipe whose modal is open). */
module Frontend {
  import opened Text
  import opened Js

  // ---------------------------------------------------------------- search

  /** `v.toLowerCase()`: only strings have it, anything else throws. */
  function LowerOf(v: Value): (r: Eval<string>)
    ensures r.Ok? <==> v.Some? && v.value.JStr?
  {
    if v.Some? && v.value.JStr? then Ok(Lower(v.value.s)) else TypeError
  }

  /** An ingredient matches the term when it is a string whose lower-cased form holds it. */
  predicate IngredientMatches(ing: Json, term: string) {
    ing.JStr? && Contains(Lower(ing.s), term)
  }

  /** `items.some(ing => ing.toLowerCase().includes(term))`: stops at the first match, and a
      non-string reached before any match throws. */
  function SomeIngredient(items: seq<Json>, term: string): (r: Eval<bool>)
    ensures r == Ok(true) <==>
              exists i :: 0 <= i < |items| && IngredientMatches(items[i], term)
                && forall j :: 0 <= j < i ==> items[j].JStr?
    ensures r == Ok(false) <==>
              forall i :: 0 <= i < |items| ==> items[i].JStr? && !IngredientMatches(items[i], term)
  {
    if |items| == 0 then Ok(false)
    else
      var rest := SomeIngredient(items[1..], term);
      assert forall i :: 1 <= i < |items| ==> items[i] == items[1..][i - 1];
      match LowerOf(Some(items[0]))
      case TypeError => TypeError
      case Ok(low) => if Contains(low, term) then Ok(true) else rest
  }

  /** The title a recipe card is searched by, when it has one. */
  predicate HasTitle(receta: Json) {
    var t := Get(receta, "titulo"); t.Some? && t.value.JStr?
  }

  /** The callback of the search filter. Both the title test and the ingredient test are
      evaluated before they are combined, so a non-string ingredient throws even when the
      title already matched. */
  function Keeps(receta: Json, term: string): (r: Eval<bool>)
    ensures r.TypeError? <==>
              !HasTitle(receta)
              || (IsArray(Get(receta, "ingredientes"))
                  && SomeIngredient(Get(receta, "ingredientes").value.items, term).TypeError?)
    ensures r.Ok? ==>
              (r.value <==>
                 Contains(Lower(Get(receta, "titulo").value.s), term)
                 || (IsArray(Get(receta, "ingredientes"))
                     && exists i :: 0 <= i < |Get(receta, "ingredientes").value.items|
                          && IngredientMatches(Get(receta, "ingredientes").value.items[i], term)))
  {
    match Prop(Some(receta), "titulo")
    case TypeError => TypeError
    case Ok(t) =>
      match LowerOf(t)
      case TypeError => TypeError
      case Ok(title) =>
        var titleMatch := Contains(title, term);
        var ings := Get(receta, "ingredientes");
        if IsArray(ings) then
          match SomeIngredient(ings.value.items, term)
          case TypeError => TypeError
          case Ok(ingredientsMatch) => Ok(titleMatch || ingredientsMatch)
        else Ok(titleMatch)
  }

  /** `filterRecetas`: the recipes whose title or ingredients hold the lower-cased search
      text, in their loaded order; a list that is not an array throws. */
  function Search(all: Json, input: string): (r: Eval<seq<Json>>)
    ensures !all.JArr? ==> r.TypeError?
  {
    if all.JArr? then Filter(all.items, receta => Keeps(receta, Lower(input))) else TypeError
  }

  /** A successful search keeps exactly the loaded recipes that match, in their order. */
  lemma SearchKeeps(items: seq<Json>, input: string)
    requires Search(JArr(items), input).Ok?
    ensures Subseq(Search(JArr(items), input).value, items)
    ensures forall x :: x in Search(JArr(items), input).value <==>
                          x in items && Keeps(x, Lower(input)) == Ok(true)
    ensures forall x :: multiset(Search(JArr(items), input).value)[x] ==
                          if Keeps(x, Lower(input)) == Ok(true) then multiset(items)[x] else 0
  {
  }

  /** The search throws exactly when some loaded recipe has no string title, or has an
      ingredient array with a non-string before its first match. */
  lemma SearchThrows(items: seq<Json>, input: string)
    ensures Search(JArr(items), input).TypeError? <==>
              exists i :: 0 <= i < |items| && Keeps(items[i], Lower(input)).TypeError?
  {
  }

  // ---------------------------------------------------------------- a recipe card

  /** The preview of the ingredients on a card: the first three joined by `, `, and `...`
      when there are more; `N/A` when the ingredients are not an array. */
  function Preview(ings: Value): (r: string)
    ensures !IsArray(ings) ==> r == "N/A"
  {
    if IsArray(ings) then
      var items := ings.value.items;
      JoinItems(items[..if |items| < 3 then |items| else 3], ", ")
      + (if |items| > 3 then "..." else "")
    else "N/A"
  }

  /** `arr.join(sep)` on an array of strings is joining the strings. */
  lemma {:induction false} JoinStrings(items: seq<string>, sep: string)
    ensures JoinItems(StrList(items).items, sep) == Join(items, sep)
  {
    if |items| > 1 {
      JoinStrings(items[1..], sep);
      assert StrList(items).items[1..] == StrList(items[1..]).items;
    }
  }

  /** The preview of a list of strings is the first three strings joined by `, `. */
  lemma PreviewText(items: seq<string>)
    ensures |items| <= 3 ==> Preview(Some(StrList(items))) == Join(items, ", ")
    ensures |items| > 3 ==> Preview(Some(StrList(items))) == Join(items[..3], ", ") + "..."
  {
    if |items| <= 3 {
      PreviewShort(items);
    } else {
      PreviewLong(items);
    }
  }

  lemma PreviewShort(items: seq<string>)
    requires |items| <= 3
    ensures Preview(Some(StrList(items))) == Join(items, ", ")
  {
    var list := StrList(items);
    assert list.items[..|items|] == list.items;
    JoinStrings(items, ", ");
    assert Preview(Some(list)) == JoinItems(list.items, ", ") + "";
  }

  lemma PreviewLong(items: seq<string>)
    requires |items| > 3
    ensures Preview(Some(StrList(items))) == Join(items[..3], ", ") + "..."
  {
    var list := StrList(items);
    assert list.items[..3] == StrList(items[..3]).items;
    JoinStrings(items[..3], ", ");
  }

  /** The third ingredient with `...` stuck to it is still an ingredient. */
  lemma DotsIngredient(item: string)
    requires IsIngredient(item)
    ensures IsIngredient(item + "...")
  {
    var t := item + "...";
    assert t[|t| - 1] == '.';
    assert forall c :: c in t ==> c in item || c == '.';
  }

  /** Parsing a preview back, for ingredient lists the form itself produces: up to three
      ingredients come back whole, and beyond three the first three come back with `...`
      stuck to the third. */
  lemma PreviewRoundTrip(items: seq<string>)
    requires forall i :: 0 <= i < |items| ==> IsIngredient(items[i])
    ensures |items| <= 3 ==> ParseIngredients(Preview(Some(StrList(items)))) == items
    ensures |items| > 3 ==>
              ParseIngredients(Preview(Some(StrList(items)))) == items[..2] + [items[2] + "..."]
  {
    PreviewText(items);
    if |items| <= 3 {
      ParseJoin(items);
    } else {
      var shown := items[..2] + [items[2] + "..."];
      JoinAppend(items[..2], items[2], "...");
      assert items[..2] + [items[2]] == items[..3];
      DotsIngredient(items[2]);
      ParseJoin(shown);
    }
  }

  /** Adding text at the end of a join adds it to the last part. */
  lemma {:induction false} JoinAppend(parts: seq<string>, last: string, tail: string)
    ensures Join(parts + [last], ", ") + tail == Join(parts + [last + tail], ", ")
  {
    if |parts| > 0 {
      JoinAppend(parts[1..], last, tail);
      assert (parts + [last])[1..] == parts[1..] + [last];
      assert (parts + [last + tail])[1..] == parts[1..] + [last + tail];
    }
  }

  const DefaultImage := "https://images.unsplash.com/photo-1495195129352-aec325a55b65?q=80&w=400&auto=format&fit=crop"

  /** The image a card starts with: the stored URL when truthy, the default picture
      otherwise. */
  function ImageSrc(imagen: Value): (r: string)
    ensures !Truthy(imagen) ==> r == DefaultImage
    ensures Truthy(imagen) ==> r == Template(imagen)
  {
    if Truthy(imagen) then Template(imagen) else DefaultImage
  }

  // ---------------------------------------------------------------- stars

  const FullStar := "<span class=\"text-yellow-500\">★</span>"
  const EmptyStar := "<span class=\"text-gray-300\">☆</span>"

  /** The five spans for a rounded score: star `i + 1` is full exactly when it is at most
      the score. */
  function StarSpans(rounded: int): (spans: seq<string>)
    ensures |spans| == 5
    ensures forall i :: 0 <= i < 5 ==> (spans[i] == FullStar <==> i + 1 <= rounded)
    ensures forall i :: 0 <= i < 5 ==> spans[i] == FullStar || spans[i] == EmptyStar
  {
    seq(5, i requires 0 <= i < 5 => if i + 1 <= rounded then FullStar else EmptyStar)
  }

  /** The spans written one after another. */
  function Concat(parts: seq<string>): string {
    if |parts| == 0 then "" else Concat(parts[..|parts| - 1]) + parts[|parts| - 1]
  }

  /** `renderStars(score)`: builds the five spans in a loop. */
  method RenderStars(score: real) returns (stars: string)
    ensures stars == Concat(StarSpans(JsRound(score)))
  {
    var rounded := JsRound(score);
    var spans := StarSpans(rounded);
    stars := "";
    var i := 1;
    while i <= 5
      invariant 1 <= i <= 6
      invariant stars == Concat(spans[..i - 1])
    {
      assert spans[..i][..i - 1] == spans[..i - 1];
      stars := stars + (if i <= rounded then FullStar else EmptyStar);
      i := i + 1;
    }
    assert spans[..5] == spans;
  }

  /** How many of the spans are full stars. */
  function FullCount(spans: seq<string>): nat {
    if |spans| == 0 then 0
    else FullCount(spans[..|spans| - 1]) + (if spans[|spans| - 1] == FullStar then 1 else 0)
  }

  /** Every full star comes before every empty one. */
  lemma FullStarsFirst(rounded: int, i: nat, j: nat)
    requires i < j < 5 && StarSpans(rounded)[j] == FullStar
    ensures StarSpans(rounded)[i] == FullStar
  {
  }

  /** The first `n` spans hold the rounded score's full stars, clamped to `[0, n]`. */
  lemma {:induction false} FullCountPrefix(rounded: int, n: nat)
    requires n <= 5
    ensures FullCount(StarSpans(rounded)[..n]) == if rounded < 0 then 0 else if rounded > n then n else rounded
  {
    var spans := StarSpans(rounded);
    if n > 0 {
      assert spans[..n][..n - 1] == spans[..n - 1];
      FullCountPrefix(rounded, n - 1);
      assert FullStar != EmptyStar by { assert FullStar[20] != EmptyStar[20]; }
    }
  }

  /** For a score between 0 and 5 the number of full stars is within half a star of it. */
  lemma StarsApproximate(score: real)
    requires 0.0 <= score <= 5.0
    ensures var full := FullCount(StarSpans(JsRound(score)));
            score - 0.5 < full as real <= score + 0.5
  {
    FullCountPrefix(JsRound(score), 5);
    assert StarSpans(JsRound(score))[..5] == StarSpans(JsRound(score));
  }

  // ---------------------------------------------------------------- rating form

  datatype Submission = NoRecipe | NoScore | Send(body: Json)

  const NoRecipeMessage := "❌ Error: ID de receta no definido."
  const NoScoreMessage := "❌ Por favor, selecciona una puntuación (1-5 estrellas)."

  /** `parseInt(x)` as `JSON.stringify` writes it: NaN becomes `null`. */
  function ParsedScore(score: string): Json {
    match ParseInt(score)
    case Some(n) => Int(n)
    case None => JNull
  }

  /** `handleRatingSubmit`: no request without a recipe open or without a score; otherwise
      the body names the recipe by its id as a string, with the parsed score and the
      comment. */
  function Submit(currentRecipeId: Value, score: string, comment: string): (s: Submission)
    ensures s == NoRecipe <==> !Truthy(currentRecipeId)
    ensures s == NoScore <==> Truthy(currentRecipeId) && score == ""
    ensures s.Send? ==>
              s.body.JObj? && s.body.fields.Keys == {"receta_id", "puntuacion", "comentario"}
              && s.body.fields["receta_id"] == JStr(Template(currentRecipeId))
              && s.body.fields["comentario"] == JStr(comment)
  {
    if !Truthy(currentRecipeId) then NoRecipe
    else if score == "" then NoScore
    else
      Send(JObj(map["receta_id" := JStr(ToJsString(currentRecipeId.value)),
                    "puntuacion" := ParsedScore(score),
                    "comentario" := JStr(comment)]))
  }

  /** The message the form shows when it sends nothing. */
  function SubmitStatus(s: Submission): (m: string)
    requires !s.Send?
  {
    if s.NoRecipe? then NoRecipeMessage else NoScoreMessage
  }

  /** For a recipe with a non-zero numeric id and a score the radio buttons offer, the
      request carries the id's decimal text and the score itself. */
  lemma SubmitNumericId(id: int, score: int, comment: string)
    requires id != 0
    ensures Submit(Some(Int(id)), IntToString(score), comment)
              == Send(JObj(map["receta_id" := JStr(IntToString(id)),
                               "puntuacion" := Int(score),
                               "comentario" := JStr(comment)]))
  {
    IntString(id);
    ParseIntOfIntToString(score);
    assert IntToString(score) != "" by {
      if score < 0 {
      } else {
        assert |NatToString(score)| >= 1;
      }
    }
  }

  // ---------------------------------------------------------------- ingredient parsing

  /** A string as the parser hands it out: non-empty, no comma, no surrounding
      whitespace. */
  predicate IsIngredient(s: string) {
    s != [] && ',' !in s && !IsJsSpace(s[0]) && !IsJsSpace(s[|s| - 1])
  }

  /** `.map(item => item.trim())`. */
  function TrimAll(parts: seq<string>): (r: seq<string>)
    ensures |r| == |parts| && forall i :: 0 <= i < |parts| ==> r[i] == JsTrim(parts[i])
  {
    seq(|parts|, i requires 0 <= i < |parts| => JsTrim(parts[i]))
  }

  /** `.filter(item => item !== '')`. */
  function DropEmpty(xs: seq<string>): (r: seq<string>)
    ensures Subseq(r, xs)
    ensures forall x :: x in r <==> x in xs && x != ""
    ensures forall x :: multiset(r)[x] == if x != "" then multiset(xs)[x] else 0
  {
    if |xs| == 0 then []
    else
      var rest := DropEmpty(xs[1..]);
      assert forall x :: x in xs <==> x == xs[0] || x in xs[1..];
      assert xs == [xs[0]] + xs[1..];
      if xs[0] == "" then rest else [xs[0]] + rest
  }

  /** A piece between commas, once trimmed and when not empty, is an ingredient. */
  lemma TrimmedPiece(p: string)
    requires ',' !in p && JsTrim(p) != ""
    ensures IsIngredient(JsTrim(p))
  {
    TrimKeepsOut(p, IsJsSpace, ',');
  }

  /** Trimming comma-free pieces and dropping the empty ones leaves only ingredients. */
  lemma PiecesAreIngredients(parts: seq<string>)
    requires forall i :: 0 <= i < |parts| ==> ',' !in parts[i]
    ensures forall x :: x in DropEmpty(TrimAll(parts)) ==> IsIngredient(x)
  {
    var trimmed := TrimAll(parts);
    forall x | x in DropEmpty(trimmed)
      ensures IsIngredient(x)
    {
      var k :| 0 <= k < |trimmed| && trimmed[k] == x;
      TrimmedPiece(parts[k]);
    }
  }

  /** The ingredients field of the creation form: split on commas, trim each piece, drop
      the empty ones. */
  function ParseIngredients(s: string): (r: seq<string>)
    ensures forall i :: 0 <= i < |r| ==> IsIngredient(r[i])
    ensures Subseq(r, TrimAll(Split(s, ',')))
    ensures forall x :: x in r <==> x != "" && x in TrimAll(Split(s, ','))
    ensures forall x :: multiset(r)[x] == if x != "" then multiset(TrimAll(Split(s, ',')))[x] else 0
  {
    var parts := Split(s, ',');
    PiecesAreIngredients(parts);
    DropEmpty(TrimAll(parts))
  }

  /** Each of `xs` with a space in front. */
  function Prefixed(xs: seq<string>): (r: seq<string>)
    ensures |r| == |xs| && forall i :: 0 <= i < |xs| ==> r[i] == " " + xs[i]
  {
    seq(|xs|, i requires 0 <= i < |xs| => " " + xs[i])
  }

  /** The parts written with `, ` between them: every part but the first gains a leading
      space once split on commas. */
  function Spaced(items: seq<string>): (r: seq<string>)
    ensures |r| == |items|
  {
    if |items| == 0 then [] else [items[0]] + Prefixed(items[1..])
  }

  lemma {:induction false} JoinPrefixed(xs: seq<string>)
    requires |xs| >= 1
    ensures Join(Prefixed(xs), ",") == " " + Join(xs, ", ")
  {
    if |xs| > 1 {
      JoinPrefixed(xs[1..]);
      assert Prefixed(xs)[1..] == Prefixed(xs[1..]);
      calc {
        Join(Prefixed(xs), ",");
        (" " + xs[0]) + "," + Join(Prefixed(xs[1..]), ",");
        (" " + xs[0]) + "," + (" " + Join(xs[1..], ", "));
        " " + (xs[0] + ", " + Join(xs[1..], ", "));
      }
    }
  }

  lemma JoinSpaced(items: seq<string>)
    ensures Join(Spaced(items), ",") == Join(items, ", ")
  {
    if |items| > 1 {
      JoinPrefixed(items[1..]);
      assert Spaced(items)[1..] == Prefixed(items[1..]);
    }
  }

  lemma {:induction false} DropNone(xs: seq<string>)
    requires forall i :: 0 <= i < |xs| ==> xs[i] != ""
    ensures DropEmpty(xs) == xs
  {
    if |xs| > 0 {
      DropNone(xs[1..]);
    }
  }

  /** The comma-split pieces of a `, `-joined list trim back to the list. */
  lemma SpacedPieces(items: seq<string>)
    requires forall i :: 0 <= i < |items| ==> IsIngredient(items[i])
    ensures forall i :: 0 <= i < |items| ==> ',' !in Spaced(items)[i]
    ensures TrimAll(Spaced(items)) == items
  {
    var parts := Spaced(items);
    forall i | 0 <= i < |parts|
      ensures ',' !in parts[i] && JsTrim(parts[i]) == items[i]
    {
      TrimTrimmed(items[i], IsJsSpace);
      if i > 0 {
        assert parts[i] == " " + items[i] + "";
        TrimAround(" ", items[i], "", IsJsSpace);
      }
    }
  }

  /** Parsing undoes writing a list out with `, `: the form gets back exactly the
      ingredients it was given. */
  lemma ParseJoin(items: seq<string>)
    requires forall i :: 0 <= i < |items| ==> IsIngredient(items[i])
    ensures ParseIngredients(Join(items, ", ")) == items
  {
    if |items| == 0 {
      assert Split("", ',') == [""];
      assert JsTrim("") == "";
    } else {
      var parts := Spaced(items);
      JoinSpaced(items);
      SpacedPieces(items);
      SplitJoin(parts, ',');
      assert Split(Join(items, ", "), ',') == parts;
      DropNone(items);
    }
  }

  // ---------------------------------------------------------------- page state

  const NetworkErrorMessage := "❌ Error de red: No se pudo conectar al Microservicio de Catálogo."

  /** What `renderRecetas(list)` leaves: the cards it appended, and whether it threw. */
  datatype Rendered = Rendered(cards: seq<Json>, threw: bool)

  /** The longest prefix without `null`: the cards appended before a `null` recipe makes
      the loop throw. */
  function Cards(items: seq<Json>): (cards: seq<Json>)
    ensures |cards| <= |items| && cards == items[..|cards|]
    ensures forall i :: 0 <= i < |cards| ==> !cards[i].JNull?
    ensures |cards| < |items| ==> items[|cards|].JNull?
  {
    if |items| == 0 || items[0].JNull? then [] else [items[0]] + Cards(items[1..])
  }

  /** `renderRecetas(list)`: nothing for an empty list, one card per recipe of an array,
      and a throw for `null`, for a non-empty value that is not an array, and at the
      first `null` in an array. */
  function Render(list: Json): (r: Rendered)
    ensures !r.threw ==> (list.JArr? && r.cards == list.items) || r.cards == []
    ensures list.JNull? ==> r.threw
    ensures list.JArr? ==> (r.threw <==> exists i :: 0 <= i < |list.items| && list.items[i].JNull?)
  {
    match LengthOf(Some(list))
    case TypeError => Rendered([], true)
    case Ok(len) =>
      if StrictEq(len, Some(Int(0))) then Rendered([], false)
      else if list.JArr? then
        var cards := Cards(list.items);
        Rendered(cards, |cards| < |list.items|)
      else Rendered([], true)
  }

  /** The status line after a good response whose list rendered: its `length`, printed. */
  function LoadedMessage(list: Json): string
    requires !list.JNull?
  {
    CountLine(Template(LengthOf(Some(list)).value))
  }

  function CountLine(count: string): string {
    "Se han cargado " + count + " recetas."
  }

  /** For an array the status line counts its recipes. */
  lemma LoadedCount(items: seq<Json>)
    ensures LoadedMessage(JArr(items)) == CountLine(NatToString(|items|))
  {
    LengthOfArray(items);
    TemplateCount(|items|);
  }

  lemma LengthOfArray(items: seq<Json>)
    ensures LengthOf(Some(JArr(items))) == Ok(Some(Int(|items|)))
  {
  }

  /** The status line after an error response: the body's `message`, or a fixed text. */
  function ErrorMessage(body: Json): Eval<string> {
    match Prop(Some(body), "message")
    case TypeError => TypeError
    case Ok(m) => Ok("❌ Error al cargar recetas: " + Template(Or(m, Str("Fallo desconocido."))))
  }

  /** The page's module-level state. */
  class Page {
    var allRecetas: Json
    var currentRecipeId: Value
    var shown: seq<Json>
    var status: string

    constructor()
      ensures allRecetas == JArr([]) && currentRecipeId == Some(JNull) && shown == [] && status == ""
    {
      allRecetas := JArr([]);
      currentRecipeId := Some(JNull);
      shown := [];
      status := "";
    }

    /** `loadRecetas`: `body` is the parsed response, `None` when fetching or parsing it
        failed. A good response replaces the list and renders it; any throw ends in the
        network error message. */
    method Load(ok: bool, body: Option<Json>)
      modifies this
      ensures currentRecipeId == old(currentRecipeId)
      ensures body.None? ==>
                status == NetworkErrorMessage && allRecetas == old(allRecetas) && shown == old(shown)
      ensures body.Some? && ok ==>
                allRecetas == body.value && shown == Render(body.value).cards
                && status == if Render(body.value).threw then NetworkErrorMessage else LoadedMessage(body.value)
      ensures body.Some? && !ok ==>
                allRecetas == old(allRecetas) && shown == old(shown)
                && status == match ErrorMessage(body.value)
                             case Ok(m) => m
                             case TypeError => NetworkErrorMessage
    {
      if body.None? {
        status := NetworkErrorMessage;
        return;
      }
      var data := body.value;
      if ok {
        allRecetas := data;
        var rendered := Render(allRecetas);
        shown := rendered.cards;
        if rendered.threw {
          status := NetworkErrorMessage;
        } else {
          status := LoadedMessage(allRecetas);
        }
      } else {
        match ErrorMessage(data)
        case Ok(m) =>
          status := m;
        case TypeError =>
          status := NetworkErrorMessage;
      }
    }

    /** Typing in the search box: the matching recipes are shown; a throw leaves the page
        as it was. */
    method SearchInput(input: string) returns (r: Eval<seq<Json>>)
      modifies this
      ensures r == Search(allRecetas, input)
      ensures allRecetas == old(allRecetas) && currentRecipeId == old(currentRecipeId)
      ensures status == old(status)
      ensures shown == if r.Ok? then r.value else old(shown)
    {
      r := Search(allRecetas, input);
      if r.Ok? {
        shown := r.value;
      }
    }

    /** `openModal(recetaId)` remembers the recipe the rating form is for. */
    method OpenModal(recetaId: Value)
      modifies this
      ensures currentRecipeId == recetaId
      ensures allRecetas == old(allRecetas) && shown == old(shown) && status == old(status)
    {
      currentRecipeId := recetaId;
    }

    /** `closeModal` forgets it. Only frontend/app.js calls it (from its close button);
        src/frontend/app.js hides the dialog without calling it, so there the open recipe
        survives a close. */
    method CloseModal()
      modifies this
      ensures currentRecipeId == Some(JNull)
      ensures allRecetas == old(allRecetas) && shown == old(shown) && status == old(status)
    {
      currentRecipeId := Some(JNull);
    }

    /** Submitting the rating form changes no page state here; its outcome depends on the
        open recipe. */
    method SubmitRating(score: string, comment: string) returns (s: Submission)
      ensures s == Submit(currentRecipeId, score, comment)
    {
      s := Submit(currentRecipeId, score, comment);
    }
  }

  /** Once `closeModal` has run, the form refuses to send. */
  lemma ClosedRefuses(score: string, comment: string)
    ensures Submit(Some(JNull), score, comment) == NoRecipe
  {
  }
}
