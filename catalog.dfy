/** The recipe catalog service (ms-catalogo-py/app.py): the `recetas` table, `to_dict`, the
    list and detail endpoints, the create-recipe validator and insert, and the CSV ingestion
    that replaces the whole table. Python values are the JSON values of module `Js`: a `JNum`
    with no decimal places is a Python `int`, one with decimal places a `float`, and `JBool`
    is a `bool` (which Python also counts as an `int`). */
module Catalog {
  import opened Text
  import opened Js
  import opened Http
  import opened PyJson

  const ListMessage := "Error interno al obtener recetas."
  const DetailErrorMessage := "Error interno al obtener el detalle de la receta."
  const ContentTypeMessage := "Content-Type debe ser application/json"
  const MissingMessage := "Faltan campos obligatorios para crear la receta."
  const TimeMessage := "El campo 'tiempo_preparacion' debe ser un número entero positivo."
  const ListFieldMessage := "El campo 'ingredientes' debe ser una lista."
  const CreatedMessage := "Receta creada con éxito."
  const CreateErrorMessage := "Error interno del servidor al crear la receta."
  const DataPath := "./data-externa/recetas_externas.csv"
  const IngestErrorMessage := "Error interno del servidor durante la ingesta de datos."

  /** The fields a create request must carry, in the order they are checked. */
  const RequiredFields: seq<string> := ["titulo", "descripcion", "tiempo_preparacion", "dificultad", "ingredientes"]

  // ---------------------------------------------------------------- the table

  /** A row of `recetas`. `ingredientes` is the text column holding the JSON-encoded list
      (`None` is SQL NULL); the other columns hold the value the handler inserted. */
  datatype Row = Row(recetaId: Json, titulo: Json, descripcion: Json, tiempo: Json,
                     dificultad: Json, ingredientes: Option<string>)

  /** The table's constraints: `receta_id` unique and not null, `titulo` not null. */
  predicate Insertable(rows: seq<Row>) {
    (forall i :: 0 <= i < |rows| ==> rows[i].recetaId != JNull && rows[i].titulo != JNull)
    && (forall i, j :: 0 <= i < j < |rows| ==> rows[i].recetaId != rows[j].recetaId)
  }

  /** Whether one more row can be inserted without violating a constraint. */
  predicate CanInsert(rows: seq<Row>, row: Row) {
    row.recetaId != JNull && row.titulo != JNull
    && forall i :: 0 <= i < |rows| ==> rows[i].recetaId != row.recetaId
  }

  lemma InsertKeepsConstraints(rows: seq<Row>, row: Row)
    requires Insertable(rows)
    ensures Insertable(rows + [row]) <==> CanInsert(rows, row)
  {
    if Insertable(rows + [row]) {
      assert forall i :: 0 <= i < |rows| ==> (rows + [row])[i] == rows[i];
      assert (rows + [row])[|rows|] == row;
    }
  }

  /** The keys of `to_dict`. */
  const DictKeys: set<string> := {"receta_id", "titulo", "descripcion", "tiempo_preparacion", "dificultad", "ingredientes"}

  /** The decoded ingredient column: `json.loads(text)` when the text is non-empty, `[]`
      otherwise; `None` when `json.loads` raises. */
  function Ingredients(column: Option<string>): (r: Option<Json>)
    ensures (column.None? || column.value == "") ==> r == Some(JArr([]))
  {
    if column.Some? && column.value != "" then Loads(column.value) else Some(JArr([]))
  }

  /** `to_dict`: `None` when the ingredient text does not decode. */
  function ToDict(row: Row): (r: Option<Json>)
    ensures r.Some? <==> Ingredients(row.ingredientes).Some?
    ensures r.Some? ==> r.value.JObj? && r.value.fields.Keys == DictKeys
    ensures r.Some? ==> r.value.fields["receta_id"] == row.recetaId
                        && r.value.fields["ingredientes"] == Ingredients(row.ingredientes).value
  {
    match Ingredients(row.ingredientes)
    case None => None
    case Some(ingredients) =>
      Some(JObj(map["receta_id" := row.recetaId, "titulo" := row.titulo,
                    "descripcion" := row.descripcion, "tiempo_preparacion" := row.tiempo,
                    "dificultad" := row.dificultad, "ingredientes" := ingredients]))
  }

  /** A row whose column holds `json.dumps` of a list of strings gives that list back. */
  lemma ToDictRoundTrip(row: Row, items: seq<string>)
    requires row.ingredientes == Some(Dumps(StrList(items)))
    ensures ToDict(row).Some? && ToDict(row).value.fields["ingredientes"] == StrList(items)
  {
    StringListRoundTrip(items);
    assert Dumps(StrList(items))[0] == '[';
  }

  // ---------------------------------------------------------------- list and detail

  /** The dictionaries of all rows, or `None` when one of them does not decode. */
  function AllDicts(rows: seq<Row>): (r: Option<seq<Json>>)
    ensures r.Some? <==> forall i :: 0 <= i < |rows| ==> ToDict(rows[i]).Some?
    ensures r.Some? ==> |r.value| == |rows|
                        && forall i :: 0 <= i < |rows| ==> r.value[i] == ToDict(rows[i]).value
  {
    if |rows| == 0 then Some([])
    else
      match ToDict(rows[0])
      case None => None
      case Some(d) =>
        match AllDicts(rows[1..])
        case None => None
        case Some(ds) => Some([d] + ds)
  }

  /** `GET /recetas`: every row's dictionary in table order, or 500 when one fails. */
  function ListReply(rows: seq<Row>): (res: Response)
    ensures res.status == 200 <==> forall i :: 0 <= i < |rows| ==> ToDict(rows[i]).Some?
    ensures res.status == 200 ==> res.body.JArr? && |res.body.items| == |rows|
                                  && forall i :: 0 <= i < |rows| ==> Some(res.body.items[i]) == ToDict(rows[i])
    ensures res.status != 200 ==> res == Response(500, ErrorBody(ListMessage))
  {
    match AllDicts(rows)
    case None => Response(500, ErrorBody(ListMessage))
    case Some(ds) => Response(200, JArr(ds))
  }

  /** The position of the first row with the given `receta_id` (`filter_by(...).first()`). */
  function FindRow(rows: seq<Row>, id: string): (r: Option<nat>)
    ensures r.None? <==> forall i :: 0 <= i < |rows| ==> rows[i].recetaId != JStr(id)
    ensures r.Some? ==> r.value < |rows| && rows[r.value].recetaId == JStr(id)
                        && forall i :: 0 <= i < r.value ==> rows[i].recetaId != JStr(id)
  {
    if |rows| == 0 then None
    else if rows[0].recetaId == JStr(id) then Some(0)
    else
      match FindRow(rows[1..], id)
      case None => None
      case Some(k) => Some(k + 1)
  }

  function NotFoundMessage(id: string): string {
    "Receta con ID " + id + " no encontrada."
  }

  /** `GET /recetas/<receta_id>`. */
  function DetailReply(rows: seq<Row>, id: string): (res: Response)
    ensures res.status == 404 <==> forall i :: 0 <= i < |rows| ==> rows[i].recetaId != JStr(id)
    ensures res.status == 404 ==> res.body == ErrorBody(NotFoundMessage(id))
    ensures res.status == 200 ==> exists i :: 0 <= i < |rows| && rows[i].recetaId == JStr(id)
                                             && ToDict(rows[i]) == Some(res.body)
    ensures res.status in {200, 404, 500}
  {
    match FindRow(rows, id)
    case None => Response(404, ErrorBody(NotFoundMessage(id)))
    case Some(i) =>
      match ToDict(rows[i])
      case None => Response(500, ErrorBody(DetailErrorMessage))
      case Some(d) => Response(200, d)
  }

  /** With the unique `receta_id`, the detail of a stored recipe is its dictionary. */
  lemma DetailOfStored(rows: seq<Row>, i: nat)
    requires Insertable(rows) && i < |rows| && rows[i].recetaId.JStr? && ToDict(rows[i]).Some?
    ensures DetailReply(rows, rows[i].recetaId.s) == Response(200, ToDict(rows[i]).value)
  {
    assert forall j :: 0 <= j < |rows| && j != i ==> rows[j].recetaId != rows[i].recetaId by {
      forall j | 0 <= j < |rows| && j != i
        ensures rows[j].recetaId != rows[i].recetaId
      {
        if j < i {
          assert rows[j].recetaId != rows[i].recetaId;
        } else {
          assert rows[i].recetaId != rows[j].recetaId;
        }
      }
    }
    assert FindRow(rows, rows[i].recetaId.s) == Some(i);
  }

  // ---------------------------------------------------------------- create

  /** The outcome of `crear_receta`'s checks, before the insert. */
  datatype Check = Accepted(fields: map<string, Json>) | Rejected(status: int, message: string)

  /** Every required field is a key of the dict. */
  predicate Complete(fields: map<string, Json>) {
    forall k :: k in RequiredFields ==> k in fields
  }

  /** `key in data` for the parsed body: a key of a dict, an element of a list, a substring
      of a string; any other value raises `TypeError` (`None` here). */
  function HasKey(data: Json, key: string): Option<bool> {
    match data
    case JObj(fields) => Some(key in fields)
    case JArr(items) => Some(JStr(key) in items)
    case JStr(s) => Some(Contains(s, key))
    case _ => None
  }

  /** `isinstance(v, int)`: Python ints and, since `bool` is an `int`, booleans. */
  predicate IsPyInt(v: Json) {
    v.JBool? || (v.JNum? && v.n.places == 0)
  }

  /** `v <= 0` for a Python int (`False` is 0 and `True` is 1). */
  predicate NotPositive(v: Json)
    requires IsPyInt(v)
  {
    if v.JBool? then !v.b else v.n.digits <= 0
  }

  /** The checks of `crear_receta`, in order. `body` is `None` when the request claims JSON
      but its text does not parse: `request.json` then raises inside the `try`, so the
      reply is the generic 500. */
  function Validate(isJson: bool, body: Option<Json>): (r: Check)
    ensures !isJson <==> r == Rejected(415, ContentTypeMessage)
    ensures r.Accepted? ==>
              isJson && body == Some(JObj(r.fields)) && Complete(r.fields)
              && IsPyInt(r.fields["tiempo_preparacion"]) && !NotPositive(r.fields["tiempo_preparacion"])
              && r.fields["ingredientes"].JArr?
    ensures isJson && body.Some? && body.value.JObj? && Complete(body.value.fields)
            && IsPyInt(body.value.fields["tiempo_preparacion"])
            && !NotPositive(body.value.fields["tiempo_preparacion"])
            && body.value.fields["ingredientes"].JArr?
            ==> r == Accepted(body.value.fields)
    ensures isJson && body.Some? && body.value.JObj? && !Complete(body.value.fields)
            ==> r == Rejected(400, MissingMessage)
    ensures r.Rejected? ==> r.status in {400, 415, 500}
  {
    if !isJson then Rejected(415, ContentTypeMessage)
    else if body.None? then Rejected(500, CreateErrorMessage)
    else
      var data := body.value;
      if HasKey(data, RequiredFields[0]).None? then Rejected(500, CreateErrorMessage)
      else if !(forall k :: k in RequiredFields ==> HasKey(data, k) == Some(true)) then
        Rejected(400, MissingMessage)
      else if !data.JObj? then Rejected(500, CreateErrorMessage)
      else
        assert HasKey(data, RequiredFields[2]) == Some(true);
        var time := data.fields["tiempo_preparacion"];
        if !IsPyInt(time) || NotPositive(time) then Rejected(400, TimeMessage)
        else if !data.fields["ingredientes"].JArr? then Rejected(400, ListFieldMessage)
        else Accepted(data.fields)
  }

  /** A complete dict with a bad time is refused for the time before the list is looked at;
      with a good time and a non-list `ingredientes`, for the list. */
  lemma ValidateFieldOrder(fields: map<string, Json>)
    requires Complete(fields)
    ensures var t := fields["tiempo_preparacion"];
            (!IsPyInt(t) || NotPositive(t)) ==> Validate(true, Some(JObj(fields))) == Rejected(400, TimeMessage)
    ensures var t := fields["tiempo_preparacion"];
            IsPyInt(t) && !NotPositive(t) && !fields["ingredientes"].JArr? ==>
              Validate(true, Some(JObj(fields))) == Rejected(400, ListFieldMessage)
  {
  }

  predicate IsLowerHex(c: char) {
    IsDigit(c) || 'a' <= c <= 'f'
  }

  predicate IsUpperHex(c: char) {
    IsDigit(c) || 'A' <= c <= 'F'
  }

  /** The text of `uuid.uuid4().hex`: 32 lower-case hexadecimal digits. */
  predicate IsUuidHex(hex: string) {
    |hex| == 32 && forall i :: 0 <= i < |hex| ==> IsLowerHex(hex[i])
  }

  /** `f"REC-{uuid.uuid4().hex[:8].upper()}"`, the uuid text given as a parameter. */
  function RecipeId(hex: string): (id: string)
    requires IsUuidHex(hex)
    ensures |id| == 12 && id[..4] == "REC-"
    ensures forall i :: 4 <= i < 12 ==> IsUpperHex(id[i])
    ensures Lower(id[4..]) == hex[..8]
  {
    var id := "REC-" + Upper(hex[..8]);
    assert forall i :: 4 <= i < 12 ==> id[i] == UpperChar(hex[i - 4]);
    id
  }

  /** The row `crear_receta` inserts for an accepted body. */
  function NewRow(fields: map<string, Json>, id: string): (row: Row)
    requires forall k :: k in RequiredFields ==> k in fields
    requires fields["ingredientes"].JArr?
    ensures row.recetaId == JStr(id)
    ensures row.ingredientes == Some(Dumps(fields["ingredientes"]))
  {
    Row(JStr(id), fields["titulo"], fields["descripcion"], fields["tiempo_preparacion"],
        fields["dificultad"], Some(Dumps(fields["ingredientes"])))
  }

  /** The 201 body: the id and title the insert returned, and the message. */
  function CreatedBody(row: Row): Json {
    JObj(map["receta_id" := row.recetaId, "titulo" := row.titulo, "message" := JStr(CreatedMessage)])
  }

  /** A created recipe whose ingredients are strings lists back those ingredients. */
  lemma CreatedIngredientsRoundTrip(fields: map<string, Json>, id: string, items: seq<string>)
    requires forall k :: k in RequiredFields ==> k in fields
    requires fields["ingredientes"] == StrList(items)
    ensures ToDict(NewRow(fields, id)).Some?
    ensures ToDict(NewRow(fields, id)).value.fields["ingredientes"] == StrList(items)
  {
    ToDictRoundTrip(NewRow(fields, id), items);
  }

  // ---------------------------------------------------------------- CSV ingestion

  /** A cell as pandas reads it: text, a number, or an empty cell (NaN). */
  datatype Cell = CText(text: string) | CNum(n: Number) | CEmpty

  /** The cells of one CSV record by column name; a column the file lacks is absent. */
  type Record = map<string, Cell>

  /** The value a cell inserts into a text column. An empty cell is the float NaN, which
      psycopg2 sends as `'NaN'::float`; the column stores its text `NaN`, never NULL. */
  function CellValue(c: Cell): (v: Json)
    ensures v != JNull
    ensures c.CEmpty? ==> v == JStr("NaN")
  {
    match c
    case CText(t) => JStr(t)
    case CNum(n) => JNum(n)
    case CEmpty => JStr("NaN")
  }

  /** A file whose one record has a blank title still loads: the row is titled `NaN`. */
  lemma BlankTitleLoads()
    ensures var rec := map["receta_id" := CText("R1"), "titulo" := CEmpty,
                           "tiempo_preparacion" := CNum(Number(20, 0)),
                           "dificultad" := CText("Media"), "ingredientes" := CText("sal")];
            Loaded([rec]).Some? && Loaded([rec]).value[0].titulo == JStr("NaN")
  {
    var rec := map["receta_id" := CText("R1"), "titulo" := CEmpty,
                   "tiempo_preparacion" := CNum(Number(20, 0)),
                   "dificultad" := CText("Media"), "ingredientes" := CText("sal")];
    RecordRowFacts(rec);
  }

  /** Non-empty text made only of decimal digits. */
  predicate IsDecimal(s: string) {
    |s| > 0 && forall i :: 0 <= i < |s| ==> IsDigit(s[i])
  }

  /** `int(s)` on text: surrounding whitespace, an optional sign and decimal digits. */
  function PyIntOfText(s: string): (r: Option<int>)
    ensures r.Some? ==> PyStrip(s) != ""
  {
    var t := PyStrip(s);
    var neg := |t| > 0 && t[0] == '-';
    var body := if |t| > 0 && (t[0] == '-' || t[0] == '+') then t[1..] else t;
    if IsDecimal(body) then
      var m: int := DigitsValue(body, 10);
      Some(if neg then -m else m)
    else None
  }

  /** `int()` reads back the decimal text of any integer. */
  lemma PyIntOfDecimal(i: int)
    ensures PyIntOfText(IntToString(i)) == Some(i)
  {
    var n: nat := if i < 0 then -i else i;
    var digits := NatToString(n);
    DigitsOfNat(n);
    if i < 0 {
      DecimalStripped("-" + digits);
      DigitsRead("-" + digits, digits, true);
    } else {
      DecimalStripped(digits);
      DigitsRead(digits, digits, false);
    }
  }

  /** Decimal text has no whitespace to strip. */
  lemma DecimalStripped(s: string)
    requires |s| >= 1 && (s[0] == '-' || IsDigit(s[0])) && IsDigit(s[|s| - 1])
    ensures PyStrip(s) == s
  {
    TrimTrimmed(s, IsPySpace);
  }

  /** `int()` of stripped text made of an optional `-` and digits. */
  lemma DigitsRead(s: string, digits: string, neg: bool)
    requires PyStrip(s) == s && s == (if neg then "-" else "") + digits
    requires IsDecimal(digits)
    ensures var m: int := DigitsValue(digits, 10); PyIntOfText(s) == Some(if neg then -m else m)
  {
    var t := PyStrip(s);
    if neg {
      assert t[0] == '-' && t[1..] == digits;
    } else {
      assert t[0] == digits[0] && t == digits;
    }
  }

  lemma QuotientBounds(a: nat, p: nat)
    requires p >= 1
    ensures 0 <= (a / p) * p <= a < (a / p) * p + p
  {
    assert a == (a / p) * p + a % p;
  }

  lemma NegatedProduct(x: int, p: int)
    ensures (-x) * p == -(x * p)
  {
  }

  /** `d / p` rounded toward zero, and its bounds. */
  lemma TruncatedQuotient(d: int, p: nat)
    requires p >= 1
    ensures d >= 0 ==> 0 <= (d / p) * p <= d < (d / p) * p + p
    ensures d < 0 ==> var q := -((-d) / p); q <= 0 && q * p - p < d <= q * p
  {
    if d < 0 {
      QuotientBounds(-d, p);
      NegatedProduct((-d) / p, p);
    } else {
      QuotientBounds(d, p);
    }
  }

  /** `int(x)` of a float: truncation toward zero. */
  function Truncate(n: Number): (q: int)
    ensures var p := Pow10(n.places);
            (n.digits >= 0 ==> 0 <= q && q * p <= n.digits < q * p + p)
            && (n.digits < 0 ==> q <= 0 && q * p - p < n.digits <= q * p)
  {
    var p := Pow10(n.places);
    TruncatedQuotient(n.digits, p);
    if n.digits >= 0 then n.digits / p else -((-n.digits) / p)
  }

  /** `int(x)` of a cell: text parsed, a number truncated toward zero, NaN refused. */
  function PyInt(c: Cell): (r: Option<int>)
    ensures c.CEmpty? ==> r.None?
    ensures c.CNum? ==> r == Some(Truncate(c.n))
    ensures c.CText? ==> r == PyIntOfText(c.text)
  {
    match c
    case CText(t) => PyIntOfText(t)
    case CNum(n) => Some(Truncate(n))
    case CEmpty => None
  }

  /** `[ing.strip() for ing in s.split(';')]`. */
  function Pieces(s: string): (ps: seq<string>)
    ensures |ps| == |Split(s, ';')| >= 1
    ensures forall i :: 0 <= i < |ps| ==> ps[i] == PyStrip(Split(s, ';')[i])
  {
    var parts := Split(s, ';');
    seq(|parts|, i requires 0 <= i < |parts| => PyStrip(parts[i]))
  }

  /** Stripping keeps a character out that was not there, and leaves no whitespace at the
      ends. */
  lemma StripFacts(part: string, c: char)
    requires c !in part
    ensures var p := PyStrip(part);
            c !in p && (p == "" || (!IsPySpace(p[0]) && !IsPySpace(p[|p| - 1])))
  {
    TrimKeepsOut(part, IsPySpace, c);
  }

  /** Each piece holds no separator and has no surrounding whitespace. */
  lemma PiecesStripped(s: string, i: nat)
    requires i < |Pieces(s)|
    ensures var p := Pieces(s)[i];
            ';' !in p && (p == "" || (!IsPySpace(p[0]) && !IsPySpace(p[|p| - 1])))
  {
    StripFacts(Split(s, ';')[i], ';');
  }

  /** One loop iteration of `cargar_datos`: the row it inserts, or `None` when it raises
      (a missing column, an ingredient cell that is not text, a time `int()` refuses). */
  function RecordRow(rec: Record): (r: Option<Row>)
  {
    if "ingredientes" !in rec || !rec["ingredientes"].CText? then None
    else if "receta_id" !in rec || "titulo" !in rec || "tiempo_preparacion" !in rec then None
    else
      match PyInt(rec["tiempo_preparacion"])
      case None => None
      case Some(time) =>
        if "dificultad" !in rec then None
        else
          var ingredients := Dumps(StrList(Pieces(rec["ingredientes"].text)));
          var description := if "descripcion" in rec then CellValue(rec["descripcion"]) else JStr("Sin descripción.");
          Some(Row(CellValue(rec["receta_id"]), CellValue(rec["titulo"]), description,
                   JNum(Number(time, 0)), CellValue(rec["dificultad"]), Some(ingredients)))
  }

  /** What a record that does not raise inserts: the `;`-split stripped ingredients
      JSON-encoded, the id cell, the description cell or the default text when the file has
      no such column, and the time as a Python int. */
  lemma RecordRowFacts(rec: Record)
    requires RecordRow(rec).Some?
    ensures "ingredientes" in rec && rec["ingredientes"].CText?
    ensures RecordRow(rec).value.ingredientes == Some(Dumps(StrList(Pieces(rec["ingredientes"].text))))
    ensures "receta_id" in rec && RecordRow(rec).value.recetaId == CellValue(rec["receta_id"])
    ensures "titulo" in rec && RecordRow(rec).value.titulo == CellValue(rec["titulo"])
    ensures RecordRow(rec).value.descripcion ==
              (if "descripcion" in rec then CellValue(rec["descripcion"]) else JStr("Sin descripción."))
    ensures "tiempo_preparacion" in rec && PyInt(rec["tiempo_preparacion"]).Some?
    ensures RecordRow(rec).value.tiempo == JNum(Number(PyInt(rec["tiempo_preparacion"]).value, 0))
  {
  }

  /** `rows` are the rows the first `|rows|` records insert. */
  predicate Converted(recs: seq<Record>, rows: seq<Row>) {
    |rows| <= |recs| && forall j :: 0 <= j < |rows| ==> RecordRow(recs[j]) == Some(rows[j])
  }

  /** The table after a successful ingestion of the file's records, or `None` when the
      transaction fails and is rolled back. */
  function Loaded(recs: seq<Record>): (r: Option<seq<Row>>)
    ensures r.Some? ==> |r.value| == |recs| && Converted(recs, r.value) && Insertable(r.value)
  {
    if forall i :: 0 <= i < |recs| ==> RecordRow(recs[i]).Some? then
      var rows := seq(|recs|, i requires 0 <= i < |recs| => RecordRow(recs[i]).value);
      if Insertable(rows) then Some(rows) else None
    else None
  }

  function LoadedMessage(count: nat): string {
    "Se eliminaron y cargaron " + IntToString(count) + " recetas en PostgreSQL."
  }

  function MissingFileMessage(): string {
    "Error: Archivo de datos no encontrado en " + DataPath
  }

  /** After a successful ingestion every recipe lists the stripped `;`-separated pieces of
      its ingredient cell, in order. */
  lemma {:induction false} LoadedIngredients(recs: seq<Record>, i: nat)
    requires Loaded(recs).Some? && i < |recs|
    ensures "ingredientes" in recs[i] && recs[i]["ingredientes"].CText?
    ensures ToDict(Loaded(recs).value[i]).Some?
    ensures ToDict(Loaded(recs).value[i]).value.fields["ingredientes"]
              == StrList(Pieces(recs[i]["ingredientes"].text))
  {
    var row := Loaded(recs).value[i];
    assert row == RecordRow(recs[i]).value;
    RecordRowFacts(recs[i]);
    ToDictRoundTrip(row, Pieces(recs[i]["ingredientes"].text));
  }

  /** A record that raises makes the whole ingestion fail. */
  lemma {:induction false} RaisingRecordFails(recs: seq<Record>, i: nat)
    requires i < |recs| && RecordRow(recs[i]).None?
    ensures Loaded(recs).None?
  {
  }

  /** The first rows of rows that meet the constraints meet them too. */
  lemma ConstraintsPrefixClosed(rows: seq<Row>, n: nat)
    requires n <= |rows| && Insertable(rows)
    ensures Insertable(rows[..n])
  {
    assert forall i :: 0 <= i < n ==> rows[..n][i] == rows[i];
  }

  /** Once every record is converted, the ingestion succeeds exactly when the rows meet the
      constraints. */
  lemma AllConverted(recs: seq<Record>, rows: seq<Row>)
    requires |rows| == |recs| && Converted(recs, rows)
    ensures Loaded(recs) == if Insertable(rows) then Some(rows) else None
  {
    assert forall i :: 0 <= i < |recs| ==> RecordRow(recs[i]).Some?;
    var all := seq(|recs|, i requires 0 <= i < |recs| => RecordRow(recs[i]).value);
    assert all == rows;
  }

  /** If the first rows already break a constraint, the ingestion fails. */
  lemma BrokenPrefixFails(recs: seq<Record>, prefix: seq<Row>)
    requires Converted(recs, prefix) && !Insertable(prefix)
    ensures Loaded(recs).None?
  {
    if Loaded(recs).Some? {
      var all := Loaded(recs).value;
      assert prefix == all[..|prefix|];
      ConstraintsPrefixClosed(all, |prefix|);
    }
  }

  // ---------------------------------------------------------------- the handlers as written

  /* Both writing handlers open their cursor with `conn.cursor()`, where `conn` is the
     SQLAlchemy `Connection` that `engine.connect()` yields (app.py:72). That class has no
     `cursor` method (the DBAPI cursor is reached through `conn.connection`), so the call
     raises inside the `try` before any SQL runs. The two functions below are the handlers
     as written; class `CatalogDb` models the insert they evidently intend. */

  /** `crear_receta` as written: the checks, then the raising `conn.cursor()` call. It never
      answers 201, and the table is never touched. */
  function CreateAsWritten(isJson: bool, body: Option<Json>): (res: Response)
    ensures res.status != 201
    ensures Validate(isJson, body).Rejected? ==> res.status == Validate(isJson, body).status
    ensures Validate(isJson, body).Accepted? ==> res == Response(500, ErrorBody(CreateErrorMessage))
  {
    var check := Validate(isJson, body);
    if check.Rejected? then Response(check.status, ErrorBody(check.message))
    else Response(500, ErrorBody(CreateErrorMessage))
  }

  /** `cargar_datos` as written: the file is read, then the same call raises, so the
      `DELETE` never runs and the table is never touched. It never answers 200. */
  function IngestAsWritten(file: Option<seq<Record>>): (res: Response)
    ensures res.status == 500
    ensures file.Some? ==> res == Response(500, ErrorBody(IngestErrorMessage))
  {
    if file.None? then Response(500, ErrorBody(MissingFileMessage()))
    else Response(500, ErrorBody(IngestErrorMessage))
  }

  /** A small well-formed recipe. */
  function SampleBody(): Json {
    JObj(map["titulo" := JStr("Tortilla"), "descripcion" := JStr("Con patata"),
             "tiempo_preparacion" := Int(20), "dificultad" := JStr("Media"),
             "ingredientes" := StrList(["huevo", "patata"])])
  }

  /** The discrepancy on one request: the sample body passes every check and its row could
      be inserted into an empty table (so `CatalogDb.Create` answers 201 and stores it), yet
      the handler as written answers 500. */
  lemma CreateAsWrittenFails(hex: string)
    requires IsUuidHex(hex)
    ensures Validate(true, Some(SampleBody())).Accepted?
    ensures CanInsert([], NewRow(Validate(true, Some(SampleBody())).fields, RecipeId(hex)))
    ensures CreateAsWritten(true, Some(SampleBody())) == Response(500, ErrorBody(CreateErrorMessage))
  {
    var fields := SampleBody().fields;
    assert forall k :: k in RequiredFields ==> k in fields;
    assert Validate(true, Some(SampleBody())) == Accepted(fields);
  }

  /** The discrepancy on ingestion: an empty CSV file loads (so `CatalogDb.Ingest` empties
      the table and answers 200), yet the handler as written answers 500. */
  lemma IngestAsWrittenFails()
    ensures Loaded([]) == Some([])
    ensures IngestAsWritten(Some([])) == Response(500, ErrorBody(IngestErrorMessage))
  {
  }

  /** The database the catalog service reads and writes, with the two writing handlers as
      they are evidently meant to work (their cursor obtained from the DBAPI connection). */
  class CatalogDb {
    var rows: seq<Row>

    ghost predicate Valid()
      reads this
    {
      Insertable(rows)
    }

    constructor()
      ensures rows == [] && Valid()
    {
      rows := [];
    }

    /** `POST /recetas`: the checks, then the insert of one row under a fresh id. An id
        already taken or a null title makes the insert raise: 500, table unchanged. */
    method Create(isJson: bool, body: Option<Json>, hex: string) returns (res: Response)
      requires Valid() && IsUuidHex(hex)
      modifies this
      ensures Valid()
      ensures Validate(isJson, body).Rejected? ==>
                res == Response(Validate(isJson, body).status, ErrorBody(Validate(isJson, body).message))
                && rows == old(rows)
      ensures Validate(isJson, body).Accepted? ==>
                var row := NewRow(Validate(isJson, body).fields, RecipeId(hex));
                if CanInsert(old(rows), row) then rows == old(rows) + [row] && res == Response(201, CreatedBody(row))
                else rows == old(rows) && res == Response(500, ErrorBody(CreateErrorMessage))
    {
      var check := Validate(isJson, body);
      if check.Rejected? {
        return Response(check.status, ErrorBody(check.message));
      }
      var id := RecipeId(hex);
      var row := NewRow(check.fields, id);
      if !CanInsert(rows, row) {
        return Response(500, ErrorBody(CreateErrorMessage));
      }
      InsertKeepsConstraints(rows, row);
      rows := rows + [row];
      res := Response(201, CreatedBody(row));
    }

    /** `POST /admin/cargar_datos`: `file` is the CSV's records, `None` when the file does not
        exist. Inside one transaction the table is emptied, then each record is converted and
        inserted; anything raised rolls the whole transaction back. */
    method Ingest(file: Option<seq<Record>>) returns (res: Response)
      requires Valid()
      modifies this
      ensures Valid()
      ensures file.None? ==> res == Response(500, ErrorBody(MissingFileMessage())) && rows == old(rows)
      ensures file.Some? && Loaded(file.value).None? ==>
                res == Response(500, ErrorBody(IngestErrorMessage)) && rows == old(rows)
      ensures file.Some? && Loaded(file.value).Some? ==>
                rows == Loaded(file.value).value
                && res == Response(200, JObj(map["mensaje" := JStr(LoadedMessage(|file.value|))]))
    {
      if file.None? {
        return Response(500, ErrorBody(MissingFileMessage()));
      }
      var recs := file.value;
      var table: seq<Row> := [];
      var i := 0;
      while i < |recs|
        invariant 0 <= i <= |recs|
        invariant |table| == i && Converted(recs, table) && Insertable(table)
        invariant rows == old(rows)
      {
        var row := RecordRow(recs[i]);
        if row.None? {
          RaisingRecordFails(recs, i);
          return Response(500, ErrorBody(IngestErrorMessage));
        }
        InsertKeepsConstraints(table, row.value);
        if !CanInsert(table, row.value) {
          BrokenPrefixFails(recs, table + [row.value]);
          return Response(500, ErrorBody(IngestErrorMessage));
        }
        table := table + [row.value];
        i := i + 1;
      }
      AllConverted(recs, table);
      rows := table;
      res := Response(200, JObj(map["mensaje" := JStr(LoadedMessage(|recs|))]));
    }
  }
}
