/** The ratings microservice (ms-valoraciones-nodejs/server.js): validation and
    normalisation of a new rating against the `Valoracion` schema, the collection of stored
    ratings, the per-recipe list newest first, and the per-recipe average. */
module Ratings {
  import opened Text
  import opened Js

  /** A stored `Valoracion` document; `fecha` is a timestamp in milliseconds. */
  datatype Rating = Rating(recetaId: string, puntuacion: int, comentario: string, fecha: int)

  /** What the schema guarantees of every stored document: a non-empty `receta_id` and a
      score within the bounds `min: 1`, `max: 5`. */
  predicate WellFormed(r: Rating) {
    r.recetaId != "" && 1 <= r.puntuacion <= 5
  }

  /** The schema validators a new document can fail. */
  datatype Violation =
    | EmptyRecipeId     // `required` on a String fails for ''
    | ScoreNotANumber   // casting NaN to Number fails
    | ScoreOutOfRange   // `min: 1` / `max: 5`
    | CommentNotString  // an object or array cannot be cast to String

  /** The outcome of POST /valoraciones. */
  datatype CreateOutcome =
    | Created(rating: Rating)
    | MissingFields
    | Invalid(violations: set<Violation>)
    | BodyUnreadable

  const MissingMessage := "receta_id y puntuacion son campos requeridos."
  const ValidationPrefix := "Error de Validación: "

  /** The status code each outcome is answered with. */
  function CreateStatus(o: CreateOutcome): (status: int)
    ensures status == 201 <==> o.Created?
    ensures status == 400 <==> (o.MissingFields? || o.Invalid?)
  {
    match o
    case Created(_) => 201
    case MissingFields => 400
    case Invalid(_) => 400
    case BodyUnreadable => 500
  }

  /** Mongoose's cast of a value to a String path: strings as they are, numbers and
      booleans through `toString`, objects and arrays refused. */
  function CastString(v: Json): (r: Option<string>)
    ensures r.None? <==> (v.JArr? || v.JObj?)
    ensures v.JStr? ==> r == Some(v.s)
  {
    match v
    case JArr(_) => None
    case JObj(_) => None
    case _ => Some(ToJsString(v))
  }

  /** `puntuacion === undefined || puntuacion === null`. */
  predicate Absent(v: Value) {
    v.None? || v.value.JNull?
  }

  /** Destructuring `req.body`, the required-field check, the document built from the
      request and the schema validation, for a request arriving at time `now`. */
  function Validate(body: Json, now: int): (o: CreateOutcome)
    ensures o.BodyUnreadable? <==> body.JNull?
    ensures o.MissingFields? <==>
              !body.JNull? && (!Truthy(Get(body, "receta_id")) || Absent(Get(body, "puntuacion")))
    ensures o.Created? ==> WellFormed(o.rating) && o.rating.fecha == now
    ensures o.Created? ==> o.rating.recetaId == ToJsString(Get(body, "receta_id").value)
    ensures o.Created? ==> Some(o.rating.puntuacion) == ParseInt(ToJsString(Get(body, "puntuacion").value))
    ensures o.Created? ==> !Truthy(Get(body, "comentario")) ==> o.rating.comentario == ""
    ensures o.Created? ==> Truthy(Get(body, "comentario")) ==>
              Some(o.rating.comentario) == CastString(Get(body, "comentario").value)
    ensures o.Invalid? ==> o.violations != {}
  {
    if body.JNull? then BodyUnreadable
    else
      var recetaId := Get(body, "receta_id");
      var puntuacion := Get(body, "puntuacion");
      var comentario := Get(body, "comentario");
      if !Truthy(recetaId) || Absent(puntuacion) then MissingFields
      else
        var id := ToJsString(recetaId.value);
        var score := ParseInt(ToJsString(puntuacion.value));
        var comment := if Truthy(comentario) then CastString(comentario.value) else Some("");
        var violations :=
          (if id == "" then {EmptyRecipeId} else {})
          + (if score.None? then {ScoreNotANumber} else {})
          + (if score.Some? && !(1 <= score.value <= 5) then {ScoreOutOfRange} else {})
          + (if comment.None? then {CommentNotString} else {});
        if violations != {} then Invalid(violations)
        else
          assert score.Some? && comment.Some?;
          Created(Rating(id, score.value, comment.value, now))
  }

  /** A score of `puntuacion` outside 1..5 is refused with 400, and so is one that does not
      parse as an integer; a score that parses to 1..5 is accepted when the other fields are
      valid. */
  lemma ScoreBounds(body: Json, now: int)
    requires !body.JNull? && Truthy(Get(body, "receta_id")) && !Absent(Get(body, "puntuacion"))
    ensures var score := ParseInt(ToJsString(Get(body, "puntuacion").value));
      (score.None? || !(1 <= score.value <= 5)) ==>
        Validate(body, now).Invalid? && CreateStatus(Validate(body, now)) == 400
    ensures var score := ParseInt(ToJsString(Get(body, "puntuacion").value));
      var c := Get(body, "comentario");
      score.Some? && 1 <= score.value <= 5 && ToJsString(Get(body, "receta_id").value) != ""
      && (!Truthy(c) || (!c.value.JArr? && !c.value.JObj?)) ==>
        Validate(body, now).Created?
  {
  }

  /** The ratings of recipe `id`, in stored order. */
  function Matching(rs: seq<Rating>, id: string): (m: seq<Rating>)
    ensures forall r :: r in m <==> r in rs && r.recetaId == id
    ensures |m| <= |rs|
    ensures (forall i :: 0 <= i < |rs| ==> rs[i].recetaId != id) ==> m == []
  {
    if |rs| == 0 then []
    else if rs[|rs| - 1].recetaId == id then Matching(rs[..|rs| - 1], id) + [rs[|rs| - 1]]
    else Matching(rs[..|rs| - 1], id)
  }

  /** No rating of the recipe is lost or duplicated: each occurs in its recipe's ratings
      as often as it is stored, and ratings of other recipes do not occur. */
  lemma {:induction false} MatchingCounts(rs: seq<Rating>, id: string)
    ensures forall r :: multiset(Matching(rs, id))[r] ==
                          if r.recetaId == id then multiset(rs)[r] else 0
  {
    if |rs| > 0 {
      var init := rs[..|rs| - 1];
      MatchingCounts(init, id);
      assert rs == init + [rs[|rs| - 1]];
    }
  }

  /** One more stored rating extends the recipe's ratings by it, if it is the recipe's. */
  lemma MatchingStep(rs: seq<Rating>, i: nat, id: string)
    requires i < |rs|
    ensures rs[i].recetaId == id ==> Matching(rs[..i + 1], id) == Matching(rs[..i], id) + [rs[i]]
    ensures rs[i].recetaId != id ==> Matching(rs[..i + 1], id) == Matching(rs[..i], id)
  {
    assert rs[..i + 1][..i] == rs[..i];
  }

  /** Newest first: `fecha` never increases along the sequence. */
  predicate NewestFirst(rs: seq<Rating>) {
    forall i, j :: 0 <= i < j < |rs| ==> rs[i].fecha >= rs[j].fecha
  }

  /** `r` inserted into a newest-first sequence after every rating at least as new. */
  function InsertByDate(rs: seq<Rating>, r: Rating): (out: seq<Rating>)
    requires NewestFirst(rs)
    ensures NewestFirst(out)
    ensures multiset(out) == multiset(rs) + multiset{r}
  {
    if |rs| == 0 then [r]
    else if rs[0].fecha < r.fecha then [r] + rs
    else
      var rest := InsertByDate(rs[1..], r);
      assert rs == [rs[0]] + rs[1..];
      forall k | 0 <= k < |rest|
        ensures rest[k].fecha <= rs[0].fecha
      {
        assert rest[k] in multiset(rest);
        if rest[k] != r {
          assert rest[k] in multiset(rs[1..]);
          var j :| 0 <= j < |rs[1..]| && rs[1..][j] == rest[k];
          assert rs[j + 1] == rest[k];
        }
      }
      [rs[0]] + rest
  }

  /** Sum of the scores. */
  function ScoreSum(rs: seq<Rating>): int {
    if |rs| == 0 then 0 else ScoreSum(rs[..|rs| - 1]) + rs[|rs| - 1].puntuacion
  }

  lemma ScoreSumAppend(rs: seq<Rating>, r: Rating)
    ensures ScoreSum(rs + [r]) == ScoreSum(rs) + r.puntuacion
  {
    assert (rs + [r])[..|rs|] == rs;
  }

  /** `$avg` of `puntuacion` over the ratings of recipe `id`; `None` when it has none (the
      aggregation then yields no group). */
  function Mean(rs: seq<Rating>, id: string): Option<real> {
    var m := Matching(rs, id);
    if |m| == 0 then None else Some(ScoreSum(m) as real / |m| as real)
  }

  /** The `average_rating` GET /valoraciones/:recetaId/media answers with. */
  function AverageReply(rs: seq<Rating>, id: string): Number {
    match Mean(rs, id)
    case None => Number(0, 0)
    case Some(mean) => ToFixed(mean, 2)
  }

  predicate AllWellFormed(rs: seq<Rating>) {
    forall i :: 0 <= i < |rs| ==> WellFormed(rs[i])
  }

  /** Scores between 1 and 5 sum to between `n` and `5n`. */
  lemma {:induction false} ScoreSumBounds(rs: seq<Rating>)
    requires AllWellFormed(rs)
    ensures |rs| <= ScoreSum(rs) <= 5 * |rs|
  {
    if |rs| > 0 {
      ScoreSumBounds(rs[..|rs| - 1]);
    }
  }

  lemma {:induction false} MatchingWellFormed(rs: seq<Rating>, id: string)
    requires AllWellFormed(rs)
    ensures AllWellFormed(Matching(rs, id))
  {
    var m := Matching(rs, id);
    forall i | 0 <= i < |m|
      ensures WellFormed(m[i])
    {
      assert m[i] in rs;
    }
  }

  /** Since stored scores lie in 1..5, so does the mean of a recipe's scores. */
  lemma MeanBounds(rs: seq<Rating>, id: string)
    requires AllWellFormed(rs)
    ensures Mean(rs, id).Some? ==> 1.0 <= Mean(rs, id).value <= 5.0
  {
    var m := Matching(rs, id);
    if |m| > 0 {
      MatchingWellFormed(rs, id);
      ScoreSumBounds(m);
      DivBounds(ScoreSum(m) as real, |m| as real);
    }
  }

  lemma DivBounds(a: real, n: real)
    requires n > 0.0 && n <= a <= 5.0 * n
    ensures 1.0 <= a / n <= 5.0
  {
    assert a / n * n == a;
  }

  /** Rounding to two decimals keeps a value in [1, 5] inside [1, 5]. */
  lemma RoundedBounds(x: real)
    requires 1.0 <= x <= 5.0
    ensures 1.0 <= NumValue(ToFixed(x, 2)) <= 5.0
  {
    var r := ToFixed(x, 2);
    assert Pow10(2) == 100;
    var scaled := x * 100.0;
    assert 100.0 <= scaled <= 500.0;
    assert r.digits == JsRound(scaled);
    assert 100 <= r.digits <= 500;
  }

  /** The average reply is 0 for a recipe without ratings and otherwise lies in [1, 5]. */
  lemma AverageReplyBounds(rs: seq<Rating>, id: string)
    requires AllWellFormed(rs)
    ensures (forall i :: 0 <= i < |rs| ==> rs[i].recetaId != id) ==> AverageReply(rs, id) == Number(0, 0)
    ensures (exists i :: 0 <= i < |rs| && rs[i].recetaId == id) ==> 1.0 <= NumValue(AverageReply(rs, id)) <= 5.0
  {
    var m := Matching(rs, id);
    if exists i :: 0 <= i < |rs| && rs[i].recetaId == id {
      var i :| 0 <= i < |rs| && rs[i].recetaId == id;
      assert rs[i] in m;
      MeanBounds(rs, id);
      RoundedBounds(Mean(rs, id).value);
    }
  }

  /** A rating just stored is in the list of its recipe. */
  lemma CreatedIsListed(rs: seq<Rating>, r: Rating)
    ensures r in Matching(rs + [r], r.recetaId)
  {
  }

  /** The reply computed from the running sum and count of the recipe's scores. */
  lemma AverageFromSums(rs: seq<Rating>, id: string, sum: int, count: nat)
    requires count == |Matching(rs, id)| && sum == ScoreSum(Matching(rs, id))
    ensures count == 0 ==> AverageReply(rs, id) == Number(0, 0)
    ensures count > 0 ==> AverageReply(rs, id) == ToFixed(sum as real / count as real, 2)
  {
  }

  /** The `valoraciones` collection. */
  class RatingStore {
    var ratings: seq<Rating>

    ghost predicate Valid()
      reads this
    {
      AllWellFormed(ratings)
    }

    constructor ()
      ensures Valid() && ratings == []
    {
      ratings := [];
    }

    /** POST /valoraciones: the rating is stored exactly when it validates. */
    method Create(body: Json, now: int) returns (o: CreateOutcome)
      requires Valid()
      modifies this
      ensures Valid()
      ensures o == Validate(body, now)
      ensures o.Created? ==> ratings == old(ratings) + [o.rating]
      ensures !o.Created? ==> ratings == old(ratings)
    {
      o := Validate(body, now);
      if o.Created? {
        ratings := ratings + [o.rating];
      }
    }

    /** GET /valoraciones/:recetaId: `find({ receta_id }).sort({ fecha: -1 })`. Exactly the
        ratings of the recipe, newest first; ratings with equal `fecha` may come in any
        order. */
    method ListFor(id: string) returns (result: seq<Rating>)
      ensures NewestFirst(result)
      ensures multiset(result) == multiset(Matching(ratings, id))
    {
      result := [];
      var i := 0;
      while i < |ratings|
        invariant 0 <= i <= |ratings|
        invariant NewestFirst(result)
        invariant multiset(result) == multiset(Matching(ratings[..i], id))
      {
        MatchingStep(ratings, i, id);
        if ratings[i].recetaId == id {
          result := InsertByDate(result, ratings[i]);
        }
        i := i + 1;
      }
      assert ratings[..i] == ratings;
    }

    /** GET /valoraciones/:recetaId/media: the mean score of the recipe's ratings rounded to
        two decimals, or 0 when it has none. */
    method Average(id: string) returns (avg: Number)
      ensures avg == AverageReply(ratings, id)
    {
      var rs := ratings;
      var sum := 0;
      var count := 0;
      ghost var seen: seq<Rating> := [];
      var i := 0;
      while i < |rs|
        invariant 0 <= i <= |rs|
        invariant seen == Matching(rs[..i], id)
        invariant count == |seen| && sum == ScoreSum(seen)
      {
        MatchingStep(rs, i, id);
        if rs[i].recetaId == id {
          ScoreSumAppend(seen, rs[i]);
          seen := seen + [rs[i]];
          sum := sum + rs[i].puntuacion;
          count := count + 1;
        }
        i := i + 1;
      }
      assert rs[..i] == rs;
      AverageFromSums(rs, id, sum, count);
      if count == 0 {
        avg := Number(0, 0);
      } else {
        avg := ToFixed(sum as real / count as real, 2);
      }
    }
  }
}
