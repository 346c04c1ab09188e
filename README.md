# ProyectoRecetas in Dafny

A verified model of the data-shaping core of ProyectoRecetas, a recipe application built
from microservices:

- **Catalog service** (`ms-catalogo-py/app.py`, Flask + PostgreSQL):
  - lists recipes and looks one up by `receta_id`;
  - validates and inserts a new recipe under a generated `REC-XXXXXXXX` id;
  - reloads the whole `recetas` table from a CSV file, splitting each ingredient cell on
    `;`.
  - The ingredient list is stored as `json.dumps` text and decoded with `json.loads`.
- **Ratings service** (`ms-valoraciones-nodejs/server.js`, Express + MongoDB):
  - validates and stores a rating (`receta_id`, `puntuacion` 1..5, `comentario`, `fecha`);
  - lists one recipe's ratings newest first;
  - answers a recipe's mean score rounded to two decimals, or 0.
- **Two API gateways:**
  - `api-gateway/server.js` merges the recipe list with a ratings summary, sanitises
    the text fields, and degrades to "no ratings" when the ratings call fails.
  - `RecetasProyecto/api-gateway/server.js` writes an `average_rating` (one decimal, or
    `null`) onto every recipe object in place, and fails the whole list with 500 when
    anything goes wrong.
  - In both gateways, every other route relays the microservice's reply by one rule.
- **Three single-page clients:**
  - `src/frontend/app.js` and its near-copy `frontend/app.js`. They search title and
    ingredients, preview three ingredients, render five stars, guard the rating form and
    parse the comma-separated ingredients field.
  - `RecetasProyecto/frontend/app.js`. It searches titles only, shows a rating badge, and
    has its own load and rating flow.

Modules:

- `Text` (text.dfy): whitespace sets of JavaScript's `trim` and Python's `strip`,
  trimming, splitting on one character, ASCII case mapping, decimal rendering.
- `Js` (js.dfy): JSON values as JavaScript sees them. Covers truthiness, `||`, `===`,
  property reads that throw on `null`, object spread, `find`, `map`, `filter`, `String()`,
  `parseInt`, `Math.round` and `toFixed`. A thrown `TypeError` is a result value.
- `Http` (http.dfy): an upstream exchange (resolved, or failed with or without a
  response) and the relay rule of every gateway catch block.
- `Gateway` (gateway.dfy): the first gateway.
- `GatewayV2` (gateway_v2.dfy): the second gateway. Recipe objects are a class whose
  fields the list handler updates in place.
- `Ratings` (ratings.dfy): the ratings service. The `valoraciones` collection is a class
  holding a sequence of ratings.
- `Catalog` (catalog.dfy): the catalog service. The `recetas` table is a class holding a
  sequence of rows.
- `PyJson` (pyjson.dfy): Python's `json.dumps` and `json.loads`. The round trip is proved
  for lists of strings, the shape the catalog stores.
- `Frontend` (frontend.dfy): the first client's logic and its page state (`allRecetas`,
  `currentRecipeId`) as a class.
- `FrontendV2` (frontend_v2.dfy): the third client.

Behaviour worth noting:

- The first gateway sanitises `nombre`, `ingredientes`, `instrucciones` and
  `categoria`.
- The second gateway does not degrade when the ratings call fails: its list answers 500.
- `average_rating` is `null` when no averages entry matches the recipe, and also when
  the matched entry is falsy.

## Model

| member | source | states |
|---|---|---|
| Text.Trim | src/frontend/app.js:492 | `trim()` leaves text that neither starts nor ends with a whitespace character of the given set (JavaScript's WhiteSpace/LineTerminator set, or Python's `isspace` set for `strip`). |
| Text.TrimIsSlice | src/frontend/app.js:492 | the trimmed text is one contiguous slice of the input, and every character cut off before or after it is whitespace |
| Text.TrimSplit | RecetasProyecto/frontend/app.js:283 | every string is its trim with all-whitespace text in front and behind |
| Text.TrimKeepsOut | ms-catalogo-py/app.py:172 | trimming never introduces a character: a separator absent from the piece is absent from the stripped piece |
| Text.TrimAround | RecetasProyecto/frontend/app.js:284 | whitespace added before or after a string does not change its trim |
| Text.TrimTrimmed | src/frontend/app.js:492 | text with no whitespace at either end is its own trim (trim is idempotent) |
| Text.Split | src/frontend/app.js:492 | `split(',')` gives at least one piece, no piece holds the separator, and joining the pieces with the separator gives back the input |
| Text.SplitJoin | src/frontend/app.js:492 | splitting the separator-join of separator-free pieces gives back exactly those pieces (split is the inverse of join) |
| Text.SplitPrefix | RecetasProyecto/frontend/app.js:283-284 | separator-free text in front of a string only extends the first piece of its split |
| Text.SplitSuffix | RecetasProyecto/frontend/app.js:283-284 | separator-free text behind a string only extends the last piece of its split |
| Text.Lower | src/frontend/app.js:166 | `toLowerCase` keeps the length and maps every character through ASCII lower-casing |
| Text.Upper | ms-catalogo-py/app.py:126 | `upper()` keeps the length and maps every character through ASCII upper-casing |
| Text.NatToString | src/frontend/app.js:87 | a count prints as at least one decimal digit, with no leading zero |
| Text.NatToStringInjective | src/frontend/app.js:87 | different counts print differently |
| Js.Or | api-gateway/server.js:62 | `a \|\| b` is `a` when `a` is truthy and `b` otherwise |
| Js.FindFirst | api-gateway/server.js:56 | `find` returns the first element whose field strictly equals the target's field, and `undefined` exactly when no element matches. It throws exactly when a `null` is read before any match. |
| Js.Spread | api-gateway/server.js:61 | spreading an object copies its fields; spreading an array or string gives only index keys; spreading anything else gives nothing |
| Js.SpreadGet | api-gateway/server.js:99-103 | for a non-index name, the spread holds the name exactly when the property read finds it, with the same value |
| Js.IndexMap | api-gateway/server.js:61 | an array spreads to the keys "0".."n-1", each mapped to its element |
| Js.MapEach | api-gateway/server.js:55-72 | `map` throws exactly when the callback throws on some element. Otherwise it has one result per element, in order, and each is the callback's result. |
| Js.Filter | src/frontend/app.js:168-176 | `filter` throws exactly when the callback throws on some element. Otherwise it returns a subsequence of the input in which each element the callback keeps occurs exactly as often as in the input, and no other element occurs. |
| Js.LengthOf | src/frontend/app.js:87 | reading `.length` throws exactly on `null` or `undefined` |
| Js.TemplateCount | src/frontend/app.js:87 | a count interpolated in a template literal prints as its decimal digits |
| Js.ParseIntOfIntToString | ms-valoraciones-nodejs/server.js:66 | `parseInt` reads back the decimal text of every integer |
| Js.JsRound | src/frontend/app.js:194 | `Math.round(x)` lies in `(x - 0.5, x + 0.5]` |
| Js.ToFixed | ms-valoraciones-nodejs/server.js:118 | `parseFloat(x.toFixed(f))` has `f` decimals and lies within half a unit in the last place of `x` |
| Http.ErrorBody | api-gateway/server.js:80 | the gateway's own `{ message }` body is truthy |
| Http.RelayPassesSuccess | api-gateway/server.js:130-131 | a resolved upstream call's status and data are relayed unchanged |
| Http.RelayFailure | api-gateway/server.js:132-136 | A failure keeps the upstream status when there is a response, else 500. The body is the upstream data when truthy, else the handler's own message, so it is never empty. |
| Http.RelaySuccessIff | api-gateway/server.js:127-138 | under axios's 2xx rule, the relayed status is a success exactly when the upstream call succeeded |
| Gateway.OrEmpty | api-gateway/server.js:62-65 | a sanitised text field keeps a truthy value and becomes `''` otherwise |
| Gateway.SanitisedCopy | api-gateway/server.js:60-65 | The four text fields are sanitised. Every other field of the recipe is copied unchanged by the spread. |
| Gateway.SafeRecipe | api-gateway/server.js:60-69 | `safe_receta` throws only on a `null` recipe. Its four text fields are sanitised; every other field except the two rating fields is copied unchanged. `promedio`/`total_votos` come from the rating found, or are 0 and 0. |
| Gateway.AggregateList | api-gateway/server.js:55-72 | The merged list has one item per recipe, in catalog order, each the callback's result. It throws exactly when the callback throws for some recipe. |
| Gateway.ListRecipesShape | api-gateway/server.js:36-83 | The list is 200 exactly when the catalog answered an array and every recipe merged; then it has one merged item per recipe, in order. A catalog failure is relayed by the catch-block rule; any other failure gives 500 with the fixed message. |
| Gateway.ListWithoutRatings | api-gateway/server.js:42-52 | when the ratings call fails the list is still 200, and every recipe has `promedio` 0 and `total_votos` 0 |
| Gateway.ListItemContents | api-gateway/server.js:56-69 | Each 200 item has sanitised text fields and unchanged other fields. Its rating fields come from the first ratings entry whose `recetaId` equals the recipe's `receta_id`, or are 0 when there is none. |
| Gateway.Detail | api-gateway/server.js:87-124 | A catalog failure is relayed. Otherwise the reply is 200 with `nombre`/`categoria`/`ingredientes` sanitised and every other field of the recipe unchanged. The rating fields come from a readable rating reply, or are 0 and 0 when the ratings call failed. |
| Gateway.RatedFields | api-gateway/server.js:96-107 | both branches of the ratings block keep every recipe field but the rating fields, and set the rating fields as the branch says |
| Gateway.SanitisedFields | api-gateway/server.js:111-113 | the three assignments in place sanitise those three fields and change nothing else |
| Gateway.DetailKeepsInstructions | api-gateway/server.js:111-116 | the detail reply keeps `instrucciones` exactly as the catalog sent it, absent or falsy included (unlike the list) |
| Gateway.UpstreamCall | api-gateway/server.js:127-211 | only the two create routes send a body, and it is the request body unchanged; each route calls its own service |
| Gateway.Proxy | api-gateway/server.js:127-211 | A proxy route relays a resolved call's status and data. On failure it keeps the upstream status or uses 500, and always sends a non-empty body. Its status is a success exactly when the call succeeded. |
| GatewayV2.Receta.constructor | RecetasProyecto/api-gateway/server.js:32 | a parsed recipe object holds the fields of the catalog JSON |
| GatewayV2.AverageFor | RecetasProyecto/api-gateway/server.js:38-39 | the attached `average_rating` is `null` or a number rounded to one decimal (at most one decimal digit when written) |
| GatewayV2.Attached | RecetasProyecto/api-gateway/server.js:39-40 | An object gains exactly the `average_rating` key; every other field is unchanged and the new one is the recipe's average. A non-object is returned as it was, and a `null` recipe throws. |
| GatewayV2.AttachAll | RecetasProyecto/api-gateway/server.js:37-41 | The map has one item per recipe, in order, each the recipe with its average attached. It throws exactly when some recipe throws. |
| GatewayV2.Materialize | RecetasProyecto/api-gateway/server.js:31-32 | parsing the catalog reply gives one fresh, unshared object per JSON object, each serializing to the JSON it came from |
| GatewayV2.AttachAverages | RecetasProyecto/api-gateway/server.js:37-41 | The in-place loop succeeds exactly when no callback throws. Then every object serializes to its old value with the average attached. |
| GatewayV2.Serialize | RecetasProyecto/api-gateway/server.js:43 | `res.json` writes every element as it is now, in order |
| GatewayV2.ListRecipes | RecetasProyecto/api-gateway/server.js:29-49 | the in-place handler's reply equals the value-level list reply |
| GatewayV2.ListAllOrNothing | RecetasProyecto/api-gateway/server.js:29-49 | The reply is either 200 with every recipe, in order, its average attached, or 500 with the fixed message. It is 200 exactly when both calls resolved, the catalog sent an array and no recipe throws. |
| GatewayV2.AverageNullIff | RecetasProyecto/api-gateway/server.js:38-39 | `average_rating` is `null` exactly when no averages entry has the recipe's `receta_id`, or the entry found is falsy |
| GatewayV2.AverageRounded | RecetasProyecto/api-gateway/server.js:39 | a non-null `average_rating` is the matched entry's average rounded to one decimal, within 0.05 of it |
| GatewayV2.UpstreamCall | RecetasProyecto/api-gateway/server.js:53-121 | only the create routes send a body, and it is the request body unchanged; a rating is posted under its recipe's id |
| GatewayV2.Proxy | RecetasProyecto/api-gateway/server.js:53-121 | A relay route passes a resolved call through. On failure it keeps the upstream status or uses 500, with a non-empty body. Its status is a success exactly when the call succeeded. |
| Ratings.CreateStatus | ms-valoraciones-nodejs/server.js:54-88 | 201 exactly for a stored rating; 400 exactly for missing fields or a schema violation |
| Ratings.CastString | ms-valoraciones-nodejs/server.js:39-41 | casting to a String path refuses exactly objects and arrays, and keeps a string as it is |
| Ratings.Validate | ms-valoraciones-nodejs/server.js:56-87 | Missing fields are exactly a falsy `receta_id` or an absent `puntuacion`. A stored rating is well-formed (non-empty id, score 1..5) and stamped with the current time. It holds the id as a string, the `parseInt` of the score, and the comment or `''`. |
| Ratings.ScoreBounds | ms-valoraciones-nodejs/server.js:59-84 | a score that does not parse or lies outside 1..5 is refused with 400; one in 1..5 is stored when the other fields are valid |
| Ratings.Matching | ms-valoraciones-nodejs/server.js:96 | a recipe's ratings are the stored ratings with its `receta_id` and no others; none when no stored rating has it |
| Ratings.MatchingCounts | ms-valoraciones-nodejs/server.js:96 | each rating of the recipe occurs in its list exactly as often as it is stored, and ratings of other recipes do not occur (nothing is lost or merged) |
| Ratings.InsertByDate | ms-valoraciones-nodejs/server.js:96 | inserting a rating keeps the list newest first and adds exactly that rating (a permutation) |
| Ratings.ScoreSumBounds | ms-valoraciones-nodejs/server.js:41 | `n` scores in 1..5 sum to between `n` and `5n` |
| Ratings.MatchingWellFormed | ms-valoraciones-nodejs/server.js:39-44 | a recipe's ratings satisfy the schema when the collection does |
| Ratings.MeanBounds | ms-valoraciones-nodejs/server.js:109-115 | the `$avg` of a recipe's stored scores lies in [1, 5] |
| Ratings.RoundedBounds | ms-valoraciones-nodejs/server.js:118 | rounding a value in [1, 5] to two decimals stays in [1, 5] |
| Ratings.AverageReplyBounds | ms-valoraciones-nodejs/server.js:105-122 | the average reply is 0 for a recipe without ratings and lies in [1, 5] otherwise |
| Ratings.CreatedIsListed | ms-valoraciones-nodejs/server.js:71-96 | a rating just stored is among its recipe's ratings |
| Ratings.RatingStore.constructor | ms-valoraciones-nodejs/server.js:47 | the collection starts empty and well-formed |
| Ratings.RatingStore.Create | ms-valoraciones-nodejs/server.js:54-89 | The outcome is the validation's. The rating is appended exactly when it validates, otherwise the collection is unchanged. The collection stays well-formed. |
| Ratings.RatingStore.ListFor | ms-valoraciones-nodejs/server.js:93-97 | the list is newest first and is a permutation of exactly the recipe's ratings |
| Ratings.RatingStore.Average | ms-valoraciones-nodejs/server.js:105-122 | the running sum and count give the mean score rounded to two decimals, or 0 when the recipe has no ratings |
| Catalog.InsertKeepsConstraints | ms-catalogo-py/app.py:39-41 | one more row keeps the table's constraints (unique non-null `receta_id`, non-null `titulo`) exactly when it can be inserted |
| Catalog.Ingredients | ms-catalogo-py/app.py:55 | an empty or NULL ingredient column decodes to `[]` |
| Catalog.ToDict | ms-catalogo-py/app.py:47-56 | `to_dict` succeeds exactly when the ingredient text decodes; it has exactly the six keys and carries the row's id |
| Catalog.ToDictRoundTrip | ms-catalogo-py/app.py:55 | a column holding `json.dumps` of a list of strings decodes to that list |
| Catalog.AllDicts | ms-catalogo-py/app.py:87 | all rows convert exactly when each does, one dict per row |
| Catalog.ListReply | ms-catalogo-py/app.py:82-90 | The list is 200 with one dict per row, in table order, exactly when every row converts. Otherwise it is 500 with the fixed message. |
| Catalog.FindRow | ms-catalogo-py/app.py:97 | the lookup finds a row with that `receta_id`, and finds none exactly when no row has it |
| Catalog.DetailReply | ms-catalogo-py/app.py:93-104 | Detail is 404 with the not-found message exactly when no row has the id. A 200 reply is the dict of a row with that id. |
| Catalog.DetailOfStored | ms-catalogo-py/app.py:97-99 | with unique ids, the detail of a stored recipe is its own dict |
| Catalog.Validate | ms-catalogo-py/app.py:111-122 | Checks run in order: 415 exactly for non-JSON, then 400 for a missing field. An accepted body is a complete dict with a positive int time and a list of ingredients, and such a body is always accepted. |
| Catalog.ValidateFieldOrder | ms-catalogo-py/app.py:119-122 | a bad time is reported before a bad ingredient list |
| Catalog.RecipeId | ms-catalogo-py/app.py:126 | the id is `REC-` plus eight upper-case hex digits, 12 characters, and lower-cases back to the uuid's first eight digits |
| Catalog.NewRow | ms-catalogo-py/app.py:134-145 | the inserted row carries the generated id and the `json.dumps` of the ingredient list |
| Catalog.CreatedIngredientsRoundTrip | ms-catalogo-py/app.py:134 | a created recipe with string ingredients lists those ingredients back |
| Catalog.PyIntOfText | ms-catalogo-py/app.py:183 | `int()` of text only succeeds on text that is not blank |
| Catalog.PyIntOfDecimal | ms-catalogo-py/app.py:183 | `int()` reads back the decimal text of every integer |
| Catalog.Truncate | ms-catalogo-py/app.py:183 | `int()` of a float truncates toward zero |
| Catalog.PyInt | ms-catalogo-py/app.py:183 | `int()` of a cell parses text, truncates a number and refuses an empty cell |
| Catalog.Pieces | ms-catalogo-py/app.py:172 | one stripped piece per `;`-separated part, at least one |
| Catalog.PiecesStripped | ms-catalogo-py/app.py:172 | each piece holds no `;` and has no surrounding whitespace |
| Catalog.CellValue | ms-catalogo-py/app.py:180-185 | a cell never inserts SQL NULL; an empty cell (pandas NaN) inserts the text `NaN` |
| Catalog.BlankTitleLoads | ms-catalogo-py/app.py:179-188 | a file whose one record has a blank title still loads, with the row titled `NaN` |
| Catalog.RecordRowFacts | ms-catalogo-py/app.py:171-186 | A record that does not raise inserts its `;`-split stripped ingredients, JSON-encoded. The id and title cells are copied, the description is the cell or the default text, and the time is `int()` of its cell. |
| Catalog.Loaded | ms-catalogo-py/app.py:169-188 | a successful ingestion has one row per record, each converted from it, and the rows meet the table constraints |
| Catalog.LoadedIngredients | ms-catalogo-py/app.py:172-173 | after an ingestion every recipe lists the stripped `;`-separated pieces of its ingredient cell, in order |
| Catalog.RaisingRecordFails | ms-catalogo-py/app.py:171-198 | one record that raises makes the whole ingestion fail |
| Catalog.AllConverted | ms-catalogo-py/app.py:169-188 | once every record converts, the ingestion succeeds exactly when the rows meet the constraints |
| Catalog.BrokenPrefixFails | ms-catalogo-py/app.py:179-188 | rows that already break a constraint make the ingestion fail |
| Catalog.CatalogDb.constructor | ms-catalogo-py/app.py:36-45 | the table starts empty and meets its constraints |
| Catalog.CatalogDb.Create | ms-catalogo-py/app.py:107-157 | The handler as evidently intended (see Findings). A rejected body is answered with its status and message, and the table is unchanged. An accepted one appends its row and answers 201 when the row can be inserted, else 500 with the table unchanged. |
| Catalog.CatalogDb.Ingest | ms-catalogo-py/app.py:160-198 | The handler as evidently intended (see Findings). A missing file or a failed ingestion gives 500 and leaves the table unchanged. Success replaces the whole table with the file's rows and reports their count. |
| Catalog.CreateAsWritten | ms-catalogo-py/app.py:136-137 | as written, `crear_receta` never answers 201: a rejected body gets its check's status, and every accepted body gets 500 with the create error message |
| Catalog.IngestAsWritten | ms-catalogo-py/app.py:167-168 | as written, `cargar_datos` always answers 500: the missing-file message without a file, the ingestion error message with one |
| Catalog.CreateAsWrittenFails | ms-catalogo-py/app.py:136-157 | a well-formed recipe passes every check and its row fits an empty table, yet the handler as written answers 500 |
| Catalog.IngestAsWrittenFails | ms-catalogo-py/app.py:160-198 | an empty CSV file loads (the intended handler empties the table with 200), yet the handler as written answers 500 |
| PyJson.Escape | ms-catalogo-py/app.py:134 | `json.dumps` writes a printable ASCII character other than `"` and `\` as itself, and every other character as a backslash escape |
| PyJson.Hex4Digits | ms-catalogo-py/app.py:134 | four hex digits written for a code unit are read back as it |
| PyJson.BmpEscapeRoundTrip | ms-catalogo-py/app.py:55 | a `\u` escape of a Basic Multilingual Plane character is read back as that character |
| PyJson.SurrogatePairRead | ms-catalogo-py/app.py:55 | a high and a low surrogate escape are read as one character |
| PyJson.AstralEscapeRoundTrip | ms-catalogo-py/app.py:55 | a character beyond the Basic Multilingual Plane, written as a surrogate pair, is read back |
| PyJson.EscapeRoundTrip | ms-catalogo-py/app.py:55 | every escape is read back as the character it was written for |
| PyJson.CharsRoundTrip | ms-catalogo-py/app.py:55 | the body of a dumped string is read back up to its closing quote |
| PyJson.StringRoundTrip | ms-catalogo-py/app.py:55 | a dumped string is parsed back as that string, leaving the rest of the input |
| PyJson.ItemsRoundTrip | ms-catalogo-py/app.py:55 | the elements of a dumped non-empty list of strings are read back up to `]` |
| PyJson.ArrayRoundTrip | ms-catalogo-py/app.py:55 | the body of a dumped list of strings is read back as that list |
| PyJson.StringListRoundTrip | ms-catalogo-py/app.py:55 | `json.loads(json.dumps(l)) == l` for every list of strings `l` |
| PyJson.ParseNumber | ms-catalogo-py/app.py:55 | a number read by `json.loads` consumes at least one character, and is an `int` (no decimal places) exactly when its digits are not followed by a fraction or an exponent; otherwise it is a `float` |
| PyJson.ExponentIsFloat | ms-catalogo-py/app.py:55 | `5e2` is read as the float `500.0` and `15` as the int `15` |
| Frontend.LowerOf | src/frontend/app.js:170 | `toLowerCase` succeeds exactly on strings |
| Frontend.SomeIngredient | src/frontend/app.js:173 | `some` is true exactly when an ingredient matches before anything throws; false exactly when every ingredient is a non-matching string |
| Frontend.Keeps | src/frontend/app.js:168-176 | The callback throws exactly when the title is not a string, or an ingredient that is not a string is read before a match. Otherwise it keeps the recipe exactly when the lower-cased title holds the term or some ingredient matches. |
| Frontend.Search | src/frontend/app.js:165-179 | the search throws when the loaded list is not an array |
| Frontend.SearchKeeps | src/frontend/app.js:168-176 | a successful search keeps, in order, the loaded recipes the callback keeps, each as often as it is loaded, and no others |
| Frontend.SearchThrows | src/frontend/app.js:170-173 | the search throws exactly when some loaded recipe makes the callback throw |
| Frontend.Preview | src/frontend/app.js:117-119 | the preview is `N/A` when the ingredients are not an array |
| Frontend.PreviewText | src/frontend/app.js:117-119 | For up to three ingredients the preview is all of them joined by `, `. With more it is the first three joined, followed by `...`. (frontend/app.js:97-99 is the same.) |
| Frontend.PreviewRoundTrip | src/frontend/app.js:117-119 | parsing a preview back gives the ingredients when there are up to three, and the first three with `...` on the third otherwise |
| Frontend.ImageSrc | src/frontend/app.js:122 | the card image is the stored URL when truthy and the default picture otherwise |
| Frontend.StarSpans | src/frontend/app.js:197-201 | exactly five spans, each full or empty, star `i` full exactly when `i` is at most the rounded score |
| Frontend.RenderStars | src/frontend/app.js:191-203 | the loop builds the five spans of the rounded score, in order (frontend/app.js:148-160 is the same) |
| Frontend.FullStarsFirst | src/frontend/app.js:197-201 | every full star comes before every empty one |
| Frontend.FullCountPrefix | src/frontend/app.js:197-201 | the number of full stars is the rounded score clamped to [0, 5] |
| Frontend.StarsApproximate | src/frontend/app.js:194 | for a score in [0, 5] the number of full stars is within half a star of it |
| Frontend.Submit | src/frontend/app.js:372-388 | No request goes out exactly when no recipe is open; none without a score either. Otherwise the body has exactly `receta_id` (the id as a string), `puntuacion` and `comentario`. (frontend/app.js:326-342 is the same.) |
| Frontend.SubmitNumericId | src/frontend/app.js:385-386 | for a numeric id and a score the form offers, the body carries the id's decimal text and the score itself |
| Frontend.TrimAll | src/frontend/app.js:492 | `.map(trim)` trims every piece and keeps their number |
| Frontend.DropEmpty | src/frontend/app.js:492 | `.filter(item !== '')` keeps, in order, every non-empty piece as often as it occurs, and drops the empty ones |
| Frontend.PiecesAreIngredients | src/frontend/app.js:492 | trimmed comma-free pieces, once empty ones are dropped, are all ingredients (non-empty, comma-free, trimmed) |
| Frontend.ParseIngredients | src/frontend/app.js:492 | The parsed list holds only non-empty, comma-free, trimmed items. It is, in input order, the non-empty trimmed pieces of the comma split, each as often as it occurs there (`sal,sal` gives two). (frontend/app.js:447 is the same.) |
| Frontend.ParseJoin | src/frontend/app.js:492 | parsing a list of ingredients written out with `, ` gives back exactly that list |
| Frontend.Cards | src/frontend/app.js:115-159 | the cards appended are the longest prefix of the list without a `null` recipe |
| Frontend.Render | src/frontend/app.js:101-160 | Rendering an array throws exactly when it holds a `null` recipe, and rendering `null` throws. Without a throw, every recipe of the array gets a card, or none does. |
| Frontend.LoadedCount | src/frontend/app.js:87 | the status line after a load counts the loaded recipes |
| Frontend.Page.constructor | src/frontend/app.js:2-4 | the page starts with no recipes and no open recipe |
| Frontend.Page.Load | src/frontend/app.js:78-95 | A good response replaces the list, renders it and counts it. An error response shows its message. A network failure shows the network error and keeps the list. The open recipe is unchanged. |
| Frontend.Page.SearchInput | src/frontend/app.js:165-179 | typing shows the search result, and a throw leaves the page as it was |
| Frontend.Page.OpenModal | src/frontend/app.js:298-299 | opening a recipe remembers its id and changes nothing else |
| Frontend.Page.CloseModal | frontend/app.js:306-309 | `closeModal` (wired to the close button at frontend/app.js:50) forgets the open recipe's id and changes nothing else |
| Frontend.Page.SubmitRating | src/frontend/app.js:367-388 | the form's outcome is the submission rule applied to the open recipe |
| Frontend.ClosedRefuses | frontend/app.js:306-309 | after `closeModal`, the guard at frontend/app.js:326-329 makes the form send nothing |
| FrontendV2.TitleKeeps | RecetasProyecto/frontend/app.js:61-63 | The callback throws exactly when the recipe has no string title. Otherwise it keeps the recipe exactly when the lower-cased title holds the term; ingredients are ignored. |
| FrontendV2.TitleSearch | RecetasProyecto/frontend/app.js:59-63 | the result is a subsequence holding the recipes whose title matches, each as often as it is loaded, and no others; it throws on a non-array or a recipe without a string title |
| FrontendV2.TitleSearchNarrower | RecetasProyecto/frontend/app.js:60-63 | wherever the first client's search succeeds, this one does too, and keeps a subset of its result |
| FrontendV2.RatingBadge | RecetasProyecto/frontend/app.js:74-76 | the badge is `Sin valorar` exactly when `average_rating` is `null`, and otherwise the value followed by a star |
| FrontendV2.BadgeOfGatewayAverage | RecetasProyecto/frontend/app.js:74-76 | on the second gateway's averages, the badge is `Sin valorar` exactly when no ratings entry matched the recipe (or the entry is falsy) |
| FrontendV2.LoadView | RecetasProyecto/frontend/app.js:44-52 | a `null` body shows the caught error and an empty list shows the no-recipes message, with no cards |
| FrontendV2.LoadCounts | RecetasProyecto/frontend/app.js:61-66 | for titled recipes, the page shows, in order, the recipes whose title matches, each as often as it is loaded, and the status line counts them |
| FrontendV2.SubmitV2 | RecetasProyecto/frontend/app.js:183-199 | Only a missing recipe stops the request. The recipe id goes in the path, and the body has exactly `puntuacion` and `comentario`. |
| FrontendV2.EmptyScoreSent | RecetasProyecto/frontend/app.js:189-199 | unlike the first client, an empty score is sent, as `null` |
| FrontendV2.ParseIngredientsV2 | RecetasProyecto/frontend/app.js:283-284 | trimming the whole text first gives the same list as the first client's parser: only ingredients, in order |
| FrontendV2.PiecesAround | RecetasProyecto/frontend/app.js:283-284 | comma-free text around a string only joins the first and the last piece of its split |
| FrontendV2.TrimFirstSamePieces | RecetasProyecto/frontend/app.js:283-284 | trimming the text before splitting changes no trimmed piece |
| FrontendV2.PageV2.constructor | RecetasProyecto/frontend/app.js:2-4 | the page starts with no recipes and no open recipe |
| FrontendV2.PageV2.Refilter | RecetasProyecto/frontend/app.js:59-90 | A completed filter shows the matching recipes with a count line. A throw leaves the page as it was. The list and the open recipe are unchanged. |
| FrontendV2.PageV2.Load | RecetasProyecto/frontend/app.js:35-57 | A non-ok response keeps the list and shows the gateway error. A body that does not parse shows the caught error. A good body replaces the list and shows its load view. The open recipe is unchanged. |
| FrontendV2.PageV2.OpenModal | RecetasProyecto/frontend/app.js:96-97 | opening a recipe remembers its id and changes nothing else |
| FrontendV2.PageV2.SubmitRating | RecetasProyecto/frontend/app.js:180-199 | the form's outcome is the submission rule applied to the open recipe |

## Findings

| source | as written | input that shows it | evidently intended | confidence | as-written member | corrected member |
|---|---|---|---|---|---|---|
| ms-catalogo-py/app.py:137 | `conn.cursor()` is called on the SQLAlchemy `Connection` yielded by `engine.connect()` (app.py:72); that class has no `cursor` method, so the call raises and the `except` answers 500 | `POST /recetas` with `{"titulo": "Tortilla", "descripcion": "Con patata", "tiempo_preparacion": 20, "dificultad": "Media", "ingredientes": ["huevo", "patata"]}` | take the DBAPI cursor (`conn.connection.cursor()`), insert the row and answer 201 | not executed; depends on SQLAlchemy's `Connection` API | Catalog.CreateAsWritten, Catalog.CreateAsWrittenFails | Catalog.CatalogDb.Create |
| ms-catalogo-py/app.py:168 | the same `conn.cursor()` call in `cargar_datos` raises after the CSV is read, so the `DELETE` and the inserts never run and the reply is 500 | `POST /admin/cargar_datos` with a CSV file that has a header and no records | empty the table, insert every record and answer 200 with the count | not executed; depends on SQLAlchemy's `Connection` API | Catalog.IngestAsWritten, Catalog.IngestAsWrittenFails | Catalog.CatalogDb.Ingest |

## Left out

- HTTP and framework plumbing (Express and Flask routing, axios and `fetch`, dotenv, static serving, the catch-all route): each upstream exchange is an input value, resolved with a status and body, or failed with or without a response.
- Database I/O (Mongoose `save`/`find`/`aggregate`, SQLAlchemy sessions and cursors, pandas CSV reading, the `ensure_db_ready` retry loop): each store is an in-memory sequence, and the CSV file is a list of records. A missing file is `None`.
- Catalog.CatalogDb.Create and Catalog.CatalogDb.Ingest model the insert the handlers evidently intend, not the code as written: both call `conn.cursor()` on the SQLAlchemy `Connection` from `engine.connect()`, which has no such method, so as written every accepted create and every ingestion of a present file answers 500 and stores nothing (see Findings; Catalog.CreateAsWritten and Catalog.IngestAsWritten model that). In the intended handlers each insert succeeds exactly when the table's constraints allow it, and a failure rolls back.
- SQL type adaptation of inserted values (a column receiving text where it expects an integer, and the like) is not modelled; only the `NOT NULL` and `UNIQUE` constraints are.
- Catalog.PyInt: an empty CSV cell (pandas NaN) is refused by `int()`. Catalog.CellValue inserts it into a text column as the text `NaN`, as psycopg2 and PostgreSQL store a float NaN, never as SQL NULL. Other number cells in text columns are kept as numbers, not as their text.
- Floating point: JavaScript and Python numbers are exact decimals or reals. `Math.round`, `toFixed` and `parseFloat` follow a stated half-up rounding, not IEEE behaviour. MongoDB's `$avg` is the exact mean.
- Js.ToFixed: `toFixed` of a binary double can round a decimal halfway value down; the model rounds halves up.
- Text.Lower: `toLowerCase` is ASCII lower-casing; Unicode case mapping is not modelled.
- String lengths count code points; JavaScript's UTF-16 length of characters beyond the Basic Multilingual Plane is not modelled.
- Exponent forms of numbers are not modelled in `String(n)`, and the exact text of engine error messages (a TypeError's message in a status line) is a parameter.
- PyJson: `json.loads` is modelled for the JSON grammar. Lone surrogate escapes are refused, where Python would keep them. The round trip is proved for lists of strings, the shape the catalog writes.
- PyJson.Dumps: objects are maps, so `json.dumps` writes their keys in code-point order rather than insertion order.
- The uuid behind a generated id is a parameter (`hex`), the clock behind `fecha` is a parameter (`now`), and the ratings request time is not otherwise modelled.
- Concurrency and timing: `Promise.all` and the `setTimeout` reloads in the clients are not modelled, nor are DOM updates, event wiring, the modal display and the `innerHTML` templates beyond the text the helpers produce.
- The clients' ingestion and recipe-creation handlers only relay a reply into a status line; apart from the ingredient parsing they are not modelled.
- Frontend.Page.CloseModal: src/frontend/app.js hides the dialog from its close button and outside click (lines 57-66) without calling `closeModal`, so in that client the open recipe survives a close and the form still sends for it; only frontend/app.js calls `closeModal`.
- The third client's `closeModal` does not reset the open recipe; it only hides the dialog, which is not modelled.
- Cross-service consistency: the first gateway calls `/valoraciones/promedio` and reads `recetaId`, and the second calls `/valoraciones/medias`, none of which the ratings service provides. Each gateway is modelled against its own input shapes.
- Cross-service consistency: the first two clients open the modal with `receta.id` (src/frontend/app.js:156, frontend/app.js:113), but no catalog reply has an `id` key (`to_dict` writes `receta_id`) and neither gateway adds one, so against these services `currentRecipeId` is `undefined` and the rating form always refuses; Frontend.SubmitNumericId states what the form does when an id is present.
- Ratings.CastString: refuses every object, where Mongoose's string cast also accepts an object whose `_id` is a string; such unusual bodies are left out.
- Catalog.PyIntOfText: refuses digit-group underscores and non-ASCII decimal digits, both of which Python's `int()` accepts (`"1_0"` is 10, `"٢٠"` is 20); such CSV cells are left out.
- Js.ToJsString: gives `[object Object]` for every object, where an object with its own `toString` key makes `toString()` throw (a 500 in the ratings service); such bodies are left out.
- The ratings and detail views of the clients' modal (`renderRatings`, `loadRatingsAndAverage`, the detail fill-in) only write text into the page and are not modelled.
