/** The AgentOS REST API tool (tools/api.py): the endpoints of one resource,
    read out of the OpenAPI document, and the overview of all resources. */
module Api {
  import opened Text
  import opened Outcomes
  import opened Sorting

  // ---------------------------------------------------------------------
  // JSON values, as json.load returns them

  /** A decoded JSON document. Numbers are integers; an object keeps its
      members in document order, as the dict json.load builds does. */
  datatype Json =
    | JNull
    | JBool(b: bool)
    | JInt(n: int)
    | JStr(s: string)
    | JArr(items: seq<Json>)
    | JObj(fields: seq<(string, Json)>)

  /** The Python type name of the decoded value, as exception messages
      print it. */
  function TypeName(j: Json): string
  {
    match j
    case JNull => "NoneType"
    case JBool(_) => "bool"
    case JInt(_) => "int"
    case JStr(_) => "str"
    case JArr(_) => "list"
    case JObj(_) => "dict"
  }

  /** The value of the member named key, if there is one. */
  function Find(fields: seq<(string, Json)>, key: string): (r: Option<Json>)
    ensures r.None? <==> forall i :: 0 <= i < |fields| ==> fields[i].0 != key
    ensures r.Some? ==> (key, r.value) in fields
  {
    if fields == [] then None
    else if fields[0].0 == key then Some(fields[0].1)
    else Find(fields[1..], key)
  }

  /** dict.get(key, default) on an object's members. */
  function FindOr(fields: seq<(string, Json)>, key: string, default: Json): Json
  {
    match Find(fields, key)
    case None => default
    case Some(v) => v
  }

  /** The message of the AttributeError a missing method raises. */
  function NoAttribute(j: Json, attr: string): string
  {
    "'" + TypeName(j) + "' object has no attribute '" + attr + "'"
  }

  /** j.get(key, default): only a dict has get. */
  function Get(j: Json, key: string, default: Json): (r: Result<Json>)
    ensures r.Ok? <==> j.JObj?
  {
    if j.JObj? then Ok(FindOr(j.fields, key, default)) else Err(NoAttribute(j, "get"))
  }

  /** get returns the member when there is one and the default otherwise;
      it fails on anything but a dict. */
  lemma {:induction false} GetMeaning(j: Json, key: string, default: Json)
    ensures !j.JObj? ==> Get(j, key, default) == Err(NoAttribute(j, "get"))
    ensures j.JObj? && (forall i :: 0 <= i < |j.fields| ==> j.fields[i].0 != key) ==>
      Get(j, key, default) == Ok(default)
    ensures j.JObj? && Get(j, key, default).value != default ==>
      (key, Get(j, key, default).value) in j.fields
  {
  }

  /** j.items() or j.keys() (attr names the one called): the members of a
      dict, in order. */
  function Members(j: Json, attr: string): (r: Result<seq<(string, Json)>>)
    ensures r.Ok? <==> j.JObj?
    ensures r.Ok? ==> r.value == j.fields
    ensures r.Err? ==> r.msg == NoAttribute(j, attr)
  {
    if j.JObj? then Ok(j.fields) else Err(NoAttribute(j, attr))
  }

  /** The member names of an object. */
  function Keys(fields: seq<(string, Json)>): (r: seq<string>)
    ensures |r| == |fields|
    ensures forall i :: 0 <= i < |fields| ==> r[i] == fields[i].0
  {
    if fields == [] then [] else [fields[0].0] + Keys(fields[1..])
  }

  /** Each character of s as a one-character string. */
  function Chars(s: string): (r: seq<Json>)
    ensures |r| == |s|
    ensures forall i :: 0 <= i < |s| ==> r[i] == JStr([s[i]])
  {
    if s == [] then [] else [JStr([s[0]])] + Chars(s[1..])
  }

  /** iter(j): a list gives its items, a dict its keys, a str its
      characters; anything else raises TypeError. */
  function Iterate(j: Json): (r: Result<seq<Json>>)
    ensures r.Ok? <==> j.JArr? || j.JObj? || j.JStr?
    ensures j.JArr? ==> r == Ok(j.items)
  {
    match j
    case JArr(items) => Ok(items)
    case JObj(fields) => Ok(KeyStrings(fields))
    case JStr(s) => Ok(Chars(s))
    case _ => Err("'" + TypeName(j) + "' object is not iterable")
  }

  function KeyStrings(fields: seq<(string, Json)>): (r: seq<Json>)
    ensures |r| == |fields|
  {
    if fields == [] then [] else [JStr(fields[0].0)] + KeyStrings(fields[1..])
  }

  /** Python truthiness: None, False, 0 and empty strings, lists and dicts
      are false. */
  predicate Truthy(j: Json)
  {
    match j
    case JNull => false
    case JBool(b) => b
    case JInt(n) => n != 0
    case JStr(s) => s != ""
    case JArr(items) => items != []
    case JObj(fields) => fields != []
  }

  /** repr() of a value: strings in single quotes (escapes are not
      modelled), lists and dicts with ", " between elements. */
  function Repr(j: Json): string
    decreases j, 1
  {
    match j
    case JNull => "None"
    case JBool(b) => if b then "True" else "False"
    case JInt(n) => IntToString(n)
    case JStr(s) => "'" + s + "'"
    case JArr(items) => "[" + ReprItems(items) + "]"
    case JObj(fields) => "{" + ReprFields(fields) + "}"
  }

  function ReprItems(items: seq<Json>): string
    decreases items, 0
  {
    if items == [] then ""
    else if |items| == 1 then Repr(items[0])
    else Repr(items[0]) + ", " + ReprItems(items[1..])
  }

  function ReprFields(fields: seq<(string, Json)>): string
    decreases fields, 0
  {
    if fields == [] then ""
    else
      assert fields[0].1 < fields[0];
      var member := "'" + fields[0].0 + "': " + Repr(fields[0].1);
      if |fields| == 1 then member else member + ", " + ReprFields(fields[1..])
  }

  /** str() of a value, as an f-string renders it: a string is itself. */
  function Display(j: Json): (r: string)
    ensures j.JStr? ==> r == j.s
  {
    if j.JStr? then j.s else Repr(j)
  }

  // ---------------------------------------------------------------------
  // RESOURCE_PATTERNS and get_endpoints_for_resource

  const MemoryPatterns: seq<string> := ["/memories", "/memory_topics", "/user_memory_stats", "/optimize-memories"]

  /** RESOURCE_PATTERNS, in the dict's order. */
  const ResourcePatterns: seq<(string, seq<string>)> := [
    ("memory", MemoryPatterns),
    ("memories", MemoryPatterns),
    ("agents", ["/agents"]),
    ("teams", ["/teams"]),
    ("workflows", ["/workflows"]),
    ("sessions", ["/sessions"]),
    ("knowledge", ["/knowledge", "/content"]),
    ("evals", ["/evals", "/evaluation"]),
    ("traces", ["/traces", "/spans"]),
    ("metrics", ["/metrics"]),
    ("database", ["/database", "/migrate"]),
    ("playground", ["/playground"])
  ]

  /** The HTTP methods an endpoint is read for. */
  const HttpMethods: seq<string> := ["get", "post", "put", "delete", "patch"]

  /** table.get(key, ["/" + key]). */
  function PatternsIn(table: seq<(string, seq<string>)>, key: string): (r: seq<string>)
    ensures (forall i :: 0 <= i < |table| ==> table[i].0 != key) ==> r == ["/" + key]
    ensures (exists i :: 0 <= i < |table| && table[i].0 == key) ==> (key, r) in table
  {
    if table == [] then ["/" + key]
    else if table[0].0 == key then table[0].1
    else PatternsIn(table[1..], key)
  }

  /** The path patterns of a lower-cased resource name. */
  function PatternsFor(resourceLower: string): seq<string>
  {
    PatternsIn(ResourcePatterns, resourceLower)
  }

  /** One parameter of an endpoint. */
  datatype Param = Param(name: Json, location: Json, required: Json, description: Json, kind: Json)

  /** One endpoint; requestBody is JNull where the source keeps None. */
  datatype Endpoint = Endpoint(
    verb: string,
    path: string,
    summary: Json,
    description: Json,
    parameters: seq<Param>,
    requestBody: Json,
    responses: seq<(string, Json)>)

  /** The record of one entry of "parameters"; it must be a dict, and so
      must its "schema" when it has one. */
  function ParamOf(p: Json): Result<Param>
  {
    if !p.JObj? then Err(NoAttribute(p, "get"))
    else
      var schema := FindOr(p.fields, "schema", JObj([]));
      if !schema.JObj? then Err(NoAttribute(schema, "get"))
      else
        Ok(Param(
          FindOr(p.fields, "name", JNull),
          FindOr(p.fields, "in", JNull),
          FindOr(p.fields, "required", JBool(false)),
          FindOr(p.fields, "description", JStr("")),
          FindOr(schema.fields, "type", JStr("string"))))
  }

  /** The loop body over the parameters: one record each. */
  function ParamStep(): Json -> Result<seq<Param>>
  {
    (p: Json) => match ParamOf(p) case Err(e) => Err(e) case Ok(x) => Ok([x])
  }

  /** A parameter takes each field from the entry and the documented
      default where the entry has none. */
  lemma {:induction false} ParamDefaults(p: Json)
    ensures ParamOf(p).Ok? <==> p.JObj? && FindOr(p.fields, "schema", JObj([])).JObj?
    ensures ParamOf(p).Ok? ==> var x := ParamOf(p).value;
      && (Find(p.fields, "name").None? ==> x.name == JNull)
      && (Find(p.fields, "in").None? ==> x.location == JNull)
      && (Find(p.fields, "required").None? ==> x.required == JBool(false))
      && (Find(p.fields, "description").None? ==> x.description == JStr(""))
      && (Find(FindOr(p.fields, "schema", JObj([])).fields, "type").None? ==> x.kind == JStr("string"))
      && (Find(p.fields, "required").Some? ==> x.required == Find(p.fields, "required").value)
  {
  }

  /** The schema of a truthy requestBody, found under
      content / application/json / schema; JNull for a falsy one. */
  function RequestBodyOf(body: Json): (r: Result<Json>)
    ensures !Truthy(body) ==> r == Ok(JNull)
    ensures Truthy(body) && body.JObj? && Find(body.fields, "content").None? ==> r == Ok(JObj([]))
    ensures Truthy(body) && !body.JObj? ==> r.Err?
  {
    if !Truthy(body) then Ok(JNull)
    else
      match Get(body, "content", JObj([]))
      case Err(e) => Err(e)
      case Ok(content) =>
        match Get(content, "application/json", JObj([]))
        case Err(e) => Err(e)
        case Ok(json) => Get(json, "schema", JObj([]))
  }

  /** The loop body over the responses: the status and its description. */
  function ResponseStep(): ((string, Json)) -> Result<seq<(string, Json)>>
  {
    (sr: (string, Json)) => match Get(sr.1, "description", JStr(""))
          case Err(e) => Err(e)
          case Ok(d) => Ok([(sr.0, d)])
  }

  /** The endpoint record of one method of one path; details must be a
      dict. */
  function EndpointOf(verb: string, path: string, details: Json): Result<Endpoint>
  {
    if !details.JObj? then Err(NoAttribute(details, "get"))
    else
      var fs := details.fields;
      match Iterate(FindOr(fs, "parameters", JArr([])))
      case Err(e) => Err(e)
      case Ok(raw) =>
        match Gather(ParamStep(), raw)
        case Err(e) => Err(e)
        case Ok(params) =>
          match RequestBodyOf(FindOr(fs, "requestBody", JObj([])))
          case Err(e) => Err(e)
          case Ok(body) =>
            match Members(FindOr(fs, "responses", JObj([])), "items")
            case Err(e) => Err(e)
            case Ok(rs) =>
              match Gather(ResponseStep(), rs)
              case Err(e) => Err(e)
              case Ok(responses) =>
                Ok(Endpoint(Upper(verb), path, FindOr(fs, "summary", JStr("")),
                  FindOr(fs, "description", JStr("")), params, body, responses))
  }

  /** The loop body over the methods of one path: an endpoint for each of
      the five HTTP methods, nothing for other members. */
  function MethodStep(path: string): ((string, Json)) -> Result<seq<Endpoint>>
  {
    (md: (string, Json)) => if md.0 !in HttpMethods then Ok([])
          else match EndpointOf(md.0, path, md.1)
               case Err(e) => Err(e)
               case Ok(x) => Ok([x])
  }

  /** The loop body over the paths: the endpoints of a path that some
      pattern matches, nothing for the others. */
  function PathStep(patterns: seq<string>): ((string, Json)) -> Result<seq<Endpoint>>
  {
    (pm: (string, Json)) => if !AnyOccurs(Lower(pm.0), patterns) then Ok([])
          else match Members(pm.1, "items")
               case Err(e) => Err(e)
               case Ok(ms) => Gather(MethodStep(pm.0), ms)
  }

  /** spec.get("paths", {}).items() */
  function PathsOf(spec: Json, attr: string): Result<seq<(string, Json)>>
  {
    match Get(spec, "paths", JObj([]))
    case Err(e) => Err(e)
    case Ok(paths) => Members(paths, attr)
  }

  /** get_endpoints_for_resource. */
  function EndpointsFor(spec: Json, resource: string): Result<seq<Endpoint>>
  {
    match PathsOf(spec, "items")
    case Err(e) => Err(e)
    case Ok(ps) => Gather(PathStep(PatternsFor(Lower(resource))), ps)
  }

  /** Member j of path ps[i] is one of the five HTTP methods, and a
      pattern occurs in the lower-cased path. */
  predicate Wanted(ps: seq<(string, Json)>, patterns: seq<string>, i: int, j: int)
  {
    && 0 <= i < |ps| && AnyOccurs(Lower(ps[i].0), patterns)
    && ps[i].1.JObj? && 0 <= j < |ps[i].1.fields| && ps[i].1.fields[j].0 in HttpMethods
  }

  /** The endpoint read for a wanted method of a path. */
  function EndpointAt(ps: seq<(string, Json)>, patterns: seq<string>, i: int, j: int): Result<Endpoint>
    requires Wanted(ps, patterns, i, j)
  {
    EndpointOf(ps[i].1.fields[j].0, ps[i].0, ps[i].1.fields[j].1)
  }

  /** Every endpoint of the loop is the record of one wanted method of one
      path. */
  lemma {:induction false} EndpointsSound(ps: seq<(string, Json)>, patterns: seq<string>, e: Endpoint)
    requires Gather(PathStep(patterns), ps).Ok? && e in Gather(PathStep(patterns), ps).value
    ensures exists i, j :: Wanted(ps, patterns, i, j) && EndpointAt(ps, patterns, i, j) == Ok(e)
  {
    GatherFrom(PathStep(patterns), ps, e);
    var i :| 0 <= i < |ps| && PathStep(patterns)(ps[i]).Ok? && e in PathStep(patterns)(ps[i]).value;
    var ms := ps[i].1.fields;
    GatherFrom(MethodStep(ps[i].0), ms, e);
    var j :| 0 <= j < |ms| && MethodStep(ps[i].0)(ms[j]).Ok? && e in MethodStep(ps[i].0)(ms[j]).value;
    assert Wanted(ps, patterns, i, j);
  }

  /** Every wanted method of every path gives its endpoint, and the loop
      keeps it. */
  lemma {:induction false} EndpointsComplete(ps: seq<(string, Json)>, patterns: seq<string>, i: int, j: int)
    requires Gather(PathStep(patterns), ps).Ok? && Wanted(ps, patterns, i, j)
    ensures EndpointAt(ps, patterns, i, j).Ok?
    ensures EndpointAt(ps, patterns, i, j).value in Gather(PathStep(patterns), ps).value
  {
    GatherHas(PathStep(patterns), ps, i);
    GatherHas(MethodStep(ps[i].0), ps[i].1.fields, j);
  }

  /** get_endpoints_for_resource keeps exactly the wanted methods of the
      paths that a pattern of the resource matches: sound and complete. */
  lemma {:induction false} EndpointsForMeaning(spec: Json, resource: string)
    requires EndpointsFor(spec, resource).Ok?
    ensures PathsOf(spec, "items").Ok?
    ensures var ps := PathsOf(spec, "items").value;
      var patterns := PatternsFor(Lower(resource));
      && (forall e :: e in EndpointsFor(spec, resource).value ==>
            exists i, j :: Wanted(ps, patterns, i, j) && EndpointAt(ps, patterns, i, j) == Ok(e))
      && (forall i, j :: Wanted(ps, patterns, i, j) ==>
            EndpointAt(ps, patterns, i, j).Ok? && EndpointAt(ps, patterns, i, j).value in EndpointsFor(spec, resource).value)
  {
    var ps := PathsOf(spec, "items").value;
    var patterns := PatternsFor(Lower(resource));
    forall e | e in EndpointsFor(spec, resource).value
      ensures exists i, j :: Wanted(ps, patterns, i, j) && EndpointAt(ps, patterns, i, j) == Ok(e)
    {
      EndpointsSound(ps, patterns, e);
    }
    forall i, j | Wanted(ps, patterns, i, j)
      ensures EndpointAt(ps, patterns, i, j).Ok? && EndpointAt(ps, patterns, i, j).value in EndpointsFor(spec, resource).value
    {
      EndpointsComplete(ps, patterns, i, j);
    }
  }

  /** A resource that RESOURCE_PATTERNS does not name matches its own
      lower-cased name after a slash; a named one matches its patterns. */
  lemma {:induction false} PatternsOfResource(resource: string)
    ensures (forall i :: 0 <= i < |ResourcePatterns| ==> ResourcePatterns[i].0 != Lower(resource)) ==>
      PatternsFor(Lower(resource)) == ["/" + Lower(resource)]
    ensures (exists i :: 0 <= i < |ResourcePatterns| && ResourcePatterns[i].0 == Lower(resource)) ==>
      (Lower(resource), PatternsFor(Lower(resource))) in ResourcePatterns
  {
  }

  /** The upper-cased HTTP methods. */
  lemma {:induction false} VerbsUpper()
    ensures forall k :: 0 <= k < |HttpMethods| ==>
      Upper(HttpMethods[k]) in ["GET", "POST", "PUT", "DELETE", "PATCH"]
  {
    assert Upper("get") == "GET";
    assert Upper("post") == "POST";
    assert Upper("put") == "PUT";
    assert Upper("delete") == "DELETE";
    assert Upper("patch") == "PATCH";
  }

  /** The endpoint of a details dict: the upper-cased verb and the path;
      summary and description with "" by default; one parameter record per
      entry of "parameters"; no request body unless "requestBody" is
      truthy, and otherwise the schema RequestBodyOf reads from it; one response per member of "responses", with its
      description or "". */
  lemma {:induction false} EndpointShape(verb: string, path: string, details: Json)
    requires EndpointOf(verb, path, details).Ok?
    ensures details.JObj?
    ensures var e := EndpointOf(verb, path, details).value; var fs := details.fields;
      && e.verb == Upper(verb) && e.path == path
      && (Find(fs, "summary").None? ==> e.summary == JStr(""))
      && (Find(fs, "summary").Some? ==> e.summary == Find(fs, "summary").value)
      && (Find(fs, "description").None? ==> e.description == JStr(""))
      && (Find(fs, "description").Some? ==> e.description == Find(fs, "description").value)
      && (Find(fs, "parameters").None? ==> e.parameters == [])
      && (!Truthy(FindOr(fs, "requestBody", JObj([]))) ==> e.requestBody == JNull)
      && RequestBodyOf(FindOr(fs, "requestBody", JObj([]))) == Ok(e.requestBody)
  {
  }

  /** Parameters and responses of an endpoint line up with their entries. */
  lemma {:induction false} EndpointLists(verb: string, path: string, details: Json)
    requires EndpointOf(verb, path, details).Ok?
    ensures details.JObj?
    ensures var e := EndpointOf(verb, path, details).value; var fs := details.fields;
      var raw := Iterate(FindOr(fs, "parameters", JArr([])));
      var rs := FindOr(fs, "responses", JObj([]));
      && raw.Ok? && |e.parameters| == |raw.value|
      && (forall k :: 0 <= k < |raw.value| ==> ParamOf(raw.value[k]) == Ok(e.parameters[k]))
      && rs.JObj? && |e.responses| == |rs.fields|
      && (forall k :: 0 <= k < |rs.fields| ==>
            e.responses[k].0 == rs.fields[k].0 && Get(rs.fields[k].1, "description", JStr("")) == Ok(e.responses[k].1))
  {
    var fs := details.fields;
    var raw := Iterate(FindOr(fs, "parameters", JArr([]))).value;
    var rs := FindOr(fs, "responses", JObj([])).fields;
    GatherSingles(ParamStep(), raw);
    GatherSingles(ResponseStep(), rs);
  }

  // ---------------------------------------------------------------------
  // format_endpoint and format_endpoints_list

  const ParamsHeader: seq<string> := [
    "**Parameters:**",
    "| Name | In | Type | Required | Description |",
    "|------|----|----|----------|-------------|"
  ]

  const FieldsHeader: seq<string> := ["| Field | Type | Description |", "|-------|------|-------------|"]

  function ParamRow(p: Param): string
  {
    "| `" + Display(p.name) + "` | " + Display(p.location) + " | " + Display(p.kind) + " | "
      + (if Truthy(p.required) then "Yes" else "No") + " | " + Display(p.description) + " |"
  }

  function ResponseRow(sd: (string, Json)): string
  {
    "- `" + sd.0 + "`: " + Display(sd.1)
  }

  /** One line per item, in order. */
  function Rows<T>(row: T -> string, xs: seq<T>): (r: seq<string>)
    ensures |r| == |xs|
    ensures forall k :: 0 <= k < |xs| ==> r[k] == row(xs[k])
  {
    if xs == [] then [] else Rows(row, xs[..|xs| - 1]) + [row(xs[|xs| - 1])]
  }

  /** The loop body over the request body's properties: each must be a
      dict; its type defaults to "any" and its description to "". */
  function FieldStep(): ((string, Json)) -> Result<seq<string>>
  {
    (pi: (string, Json)) =>
      match Get(pi.1, "type", JStr("any"))
      case Err(e) => Err(e)
      case Ok(t) => Ok([FieldRow(pi.0, t, FindOr(pi.1.fields, "description", JStr("")))])
  }

  function FieldRow(name: string, kind: Json, description: Json): string
  {
    "| `" + name + "` | " + Display(kind) + " | " + Display(description) + " |"
  }

  /** The request body section: nothing for a falsy body, the field table
      when the schema has truthy "properties". */
  function BodyLines(body: Json): Result<seq<string>>
  {
    if !Truthy(body) then Ok([])
    else
      match Get(body, "properties", JObj([]))
      case Err(e) => Err(e)
      case Ok(props) =>
        if !Truthy(props) then Ok(["**Request Body:** JSON", ""])
        else
          match Members(props, "items")
          case Err(e) => Err(e)
          case Ok(fields) =>
            match Gather(FieldStep(), fields)
            case Err(e) => Err(e)
            case Ok(rows) => Ok(["**Request Body:** JSON"] + FieldsHeader + rows + [""])
  }

  /** The heading: the summary when it is truthy, else the path; then the
      method and path. */
  function HeadLines(e: Endpoint): seq<string>
  {
    ["### " + (if Truthy(e.summary) then Display(e.summary) else e.path),
     "**`" + e.verb + " " + e.path + "`**",
     ""]
  }

  function DescriptionLines(e: Endpoint): seq<string>
  {
    if Truthy(e.description) then [Display(e.description), ""] else []
  }

  function ParamSection(ps: seq<Param>): seq<string>
  {
    if ps == [] then [] else ParamsHeader + Rows(ParamRow, ps) + [""]
  }

  function ResponseSection(rs: seq<(string, Json)>): seq<string>
  {
    if rs == [] then [] else ["**Responses:**"] + Rows(ResponseRow, rs) + [""]
  }

  /** The TypeError "\n".join raises for an item that is not a str. */
  function JoinError(index: nat, j: Json): string
  {
    "sequence item " + NatToString(index) + ": expected str instance, " + TypeName(j) + " found"
  }

  /** The lines format_endpoint joins. */
  function EndpointLines(e: Endpoint): Result<seq<string>>
  {
    match BodyLines(e.requestBody)
    case Err(err) => Err(err)
    case Ok(body) =>
      if Truthy(e.description) && !e.description.JStr? then Err(JoinError(3, e.description))
      else Ok(HeadLines(e) + DescriptionLines(e) + ParamSection(e.parameters) + body + ResponseSection(e.responses))
  }

  /** format_endpoint */
  function EndpointText(e: Endpoint): Result<string>
  {
    match EndpointLines(e)
    case Err(err) => Err(err)
    case Ok(lines) => Ok(Join(lines, "\n"))
  }

  /** A successful format_endpoint ran every section: it fails only on a
      truthy request body or truthy "properties" that is not a dict, a
      property that is not a dict, or a truthy description that is not a
      string. */
  lemma {:induction false} BodyLinesOk(body: Json)
    ensures BodyLines(body).Ok? <==>
      !Truthy(body) ||
      (body.JObj? &&
        var props := FindOr(body.fields, "properties", JObj([]));
        !Truthy(props) || (props.JObj? && forall k :: 0 <= k < |props.fields| ==> props.fields[k].1.JObj?))
  {
    if Truthy(body) && body.JObj? {
      var props := FindOr(body.fields, "properties", JObj([]));
      if Truthy(props) && props.JObj? {
        GatherOk(FieldStep(), props.fields);
      }
    }
  }

  /** The lines of an endpoint open with the heading: the summary or, when
      it is falsy, the path; then the method and path; then the description
      when it is truthy. */
  lemma {:induction false} EndpointLinesHead(e: Endpoint)
    requires EndpointLines(e).Ok?
    ensures var lines := EndpointLines(e).value;
      && |lines| >= 3
      && lines[0] == "### " + (if Truthy(e.summary) then Display(e.summary) else e.path)
      && lines[1] == "**`" + e.verb + " " + e.path + "`**"
      && lines[2] == ""
      && (Truthy(e.description) ==> |lines| >= 5 && lines[3] == e.description.s && lines[4] == "")
  {
    var body := BodyLines(e.requestBody).value;
    HeadOf(e, ParamSection(e.parameters) + body + ResponseSection(e.responses), EndpointLines(e).value);
  }

  lemma {:induction false} HeadOf(e: Endpoint, rest: seq<string>, lines: seq<string>)
    requires lines == HeadLines(e) + DescriptionLines(e) + rest
    requires Truthy(e.description) ==> e.description.JStr?
    ensures |lines| >= 3
    ensures lines[0] == "### " + (if Truthy(e.summary) then Display(e.summary) else e.path)
    ensures lines[1] == "**`" + e.verb + " " + e.path + "`**"
    ensures lines[2] == ""
    ensures Truthy(e.description) ==> |lines| >= 5 && lines[3] == e.description.s && lines[4] == ""
  {
  }

  /** An endpoint's lines hold one row per parameter and one bullet per
      response. */
  lemma {:induction false} EndpointLinesRows(e: Endpoint)
    requires EndpointLines(e).Ok?
    ensures forall k :: 0 <= k < |e.parameters| ==> ParamRow(e.parameters[k]) in EndpointLines(e).value
    ensures forall k :: 0 <= k < |e.responses| ==> ResponseRow(e.responses[k]) in EndpointLines(e).value
  {
    var body := BodyLines(e.requestBody).value;
    SectionsIn(HeadLines(e) + DescriptionLines(e), ParamSection(e.parameters), body,
      ResponseSection(e.responses), EndpointLines(e).value);
    RowsIn(ParamRow, e.parameters, ParamsHeader, [""], ParamSection(e.parameters));
    RowsIn(ResponseRow, e.responses, ["**Responses:**"], [""], ResponseSection(e.responses));
  }

  lemma {:induction false} SectionsIn(a: seq<string>, b: seq<string>, c: seq<string>, d: seq<string>, lines: seq<string>)
    requires lines == a + b + c + d
    ensures forall x :: x in b ==> x in lines
    ensures forall x :: x in d ==> x in lines
  {
  }

  lemma {:induction false} RowsIn<T>(row: T -> string, xs: seq<T>, head: seq<string>, tail: seq<string>, section: seq<string>)
    requires xs != [] ==> section == head + Rows(row, xs) + tail
    ensures forall k :: 0 <= k < |xs| ==> row(xs[k]) in section
  {
    forall k | 0 <= k < |xs| ensures row(xs[k]) in section {
      assert Rows(row, xs)[k] == row(xs[k]);
    }
  }

  /** The four lines above the endpoints. */
  function ListHeader(resource: string, n: nat): seq<string>
  {
    ["## " + Title(resource) + " API Endpoints", "", "Found " + NatToString(n) + " endpoint(s):", ""]
  }

  /** The loop body over the endpoints: the endpoint's text and a rule. */
  function BlockStep(): Endpoint -> Result<seq<string>>
  {
    (e: Endpoint) =>
      match EndpointText(e)
      case Err(err) => Err(err)
      case Ok(t) => Ok([t, "---", ""])
  }

  /** format_endpoints_list */
  function EndpointsText(es: seq<Endpoint>, resource: string): Result<string>
  {
    if es == [] then Ok("No endpoints found for resource: " + resource)
    else
      match Gather(BlockStep(), es)
      case Err(err) => Err(err)
      case Ok(blocks) => Ok(Join(ListHeader(resource, |es|) + blocks, "\n"))
  }

  /** Three outputs per item, in the items' order. */
  lemma {:induction false} GatherTriples<T>(step: T -> Result<seq<string>>, items: seq<T>)
    requires forall x :: step(x).Ok? ==> |step(x).value| == 3
    requires Gather(step, items).Ok?
    ensures |Gather(step, items).value| == 3 * |items|
    ensures forall k :: 0 <= k < |items| ==>
      step(items[k]).Ok? && Gather(step, items).value[3 * k..3 * k + 3] == step(items[k]).value
    decreases |items|
  {
    if items != [] {
      var front := items[..|items| - 1];
      GatherTriples(step, front);
      var g := Gather(step, front).value;
      forall k | 0 <= k < |front| ensures front[k] == items[k] && (g + step(items[|items| - 1]).value)[3 * k..3 * k + 3] == g[3 * k..3 * k + 3] { }
    }
  }

  /** Three lines per endpoint: its text, "---" and "". */
  lemma {:induction false} BlocksShape(es: seq<Endpoint>)
    requires Gather(BlockStep(), es).Ok?
    ensures var blocks := Gather(BlockStep(), es).value;
      && |blocks| == 3 * |es|
      && forall k :: 0 <= k < |es| ==>
           EndpointText(es[k]).Ok? && blocks[3 * k] == EndpointText(es[k]).value
           && blocks[3 * k + 1] == "---" && blocks[3 * k + 2] == ""
  {
    GatherRuled(EndpointText, BlockStep(), es);
  }

  /** A step that gives an item's text, "---" and "" lays the texts out
      three lines apart. */
  lemma {:induction false} GatherRuled<T>(text: T -> Result<string>, step: T -> Result<seq<string>>, items: seq<T>)
    requires forall x :: step(x) == (match text(x) case Err(e) => Err(e) case Ok(t) => Ok([t, "---", ""]))
    requires Gather(step, items).Ok?
    ensures var blocks := Gather(step, items).value;
      && |blocks| == 3 * |items|
      && forall k :: 0 <= k < |items| ==>
           text(items[k]).Ok? && blocks[3 * k] == text(items[k]).value
           && blocks[3 * k + 1] == "---" && blocks[3 * k + 2] == ""
  {
    GatherTriples(step, items);
    var blocks := Gather(step, items).value;
    forall k | 0 <= k < |items|
      ensures text(items[k]).Ok? && blocks[3 * k] == text(items[k]).value
           && blocks[3 * k + 1] == "---" && blocks[3 * k + 2] == ""
    {
      var t := blocks[3 * k..3 * k + 3];
      assert t == step(items[k]).value;
      assert blocks[3 * k] == t[0] && blocks[3 * k + 1] == t[1] && blocks[3 * k + 2] == t[2];
    }
  }

  /** The blocks of the endpoints: each endpoint's text and a rule, in
      order. */
  predicate Blocks(es: seq<Endpoint>, blocks: seq<string>)
  {
    && |blocks| == 3 * |es|
    && forall k :: 0 <= k < |es| ==>
         EndpointText(es[k]).Ok? && blocks[3 * k] == EndpointText(es[k]).value && blocks[3 * k + 1] == "---"
  }

  /** No endpoints give the "No endpoints found" line; otherwise the list
      fails exactly when the text of one endpoint does. */
  lemma {:induction false} EndpointsTextOk(es: seq<Endpoint>, resource: string)
    ensures es == [] ==> EndpointsText(es, resource) == Ok("No endpoints found for resource: " + resource)
    ensures es != [] ==>
      (EndpointsText(es, resource).Ok? <==> forall k :: 0 <= k < |es| ==> EndpointText(es[k]).Ok?)
  {
    GatherOk(BlockStep(), es);
  }

  /** A non-empty list opens with the resource's title and the count, and
      then gives each endpoint's text in order, closed by a rule. */
  lemma {:induction false} EndpointsTextShape(es: seq<Endpoint>, resource: string)
    requires es != [] && EndpointsText(es, resource).Ok?
    ensures exists blocks ::
      Blocks(es, blocks) && EndpointsText(es, resource).value == Join(ListHeader(resource, |es|) + blocks, "\n")
  {
    var blocks := Gather(BlockStep(), es).value;
    BlocksShape(es);
    assert Blocks(es, blocks);
  }

  // ---------------------------------------------------------------------
  // list_all_resources

  /** The resource a path is listed under: the first segment of the path
      without its outer slashes, "_" and "-" read as spaces, title-cased. */
  function ResourceOf(path: string): string
  {
    Title(ReplaceChar(ReplaceChar(Split(StripChars(path, {'/'}), '/')[0], '_', ' '), '-', ' '))
  }

  /** The paths whose image under f is name, in order. */
  function GroupOf(f: string -> string, paths: seq<string>, name: string): seq<string>
  {
    if paths == [] then []
    else
      var last := paths[|paths| - 1];
      GroupOf(f, paths[..|paths| - 1], name) + (if f(last) == name then [last] else [])
  }

  /** A group holds exactly the paths that map to its name. */
  lemma {:induction false} GroupMembers(f: string -> string, paths: seq<string>, name: string)
    ensures forall x :: x in GroupOf(f, paths, name) <==> x in paths && f(x) == name
    decreases |paths|
  {
    if paths != [] {
      var front := paths[..|paths| - 1];
      GroupMembers(f, front, name);
      assert paths == front + [paths[|paths| - 1]];
    }
  }

  /** The "... and N more" line of a group of n paths. */
  function MoreLines(n: nat): seq<string>
  {
    if n > 5 then ["- ... and " + NatToString(n - 5) + " more"] else []
  }

  /** The first five of the sorted distinct paths. */
  function Shown(group: seq<string>): seq<string>
  {
    var sorted := SortedSet(group);
    sorted[..if |sorted| < 5 then |sorted| else 5]
  }

  function PathBullet(path: string): string
  {
    "- `" + path + "`"
  }

  /** The section of one resource. */
  function GroupLines(name: string, group: seq<string>): seq<string>
  {
    ["### " + name] + Rows(PathBullet, Shown(group)) + MoreLines(|group|) + [""]
  }

  /** A resource section lists at most five of its paths, ascending and
      each once, all of them when there are at most five distinct ones;
      "... and N more" follows exactly when the group has more than five
      paths, N counting the rest. */
  lemma {:induction false} GroupLinesShape(name: string, group: seq<string>)
    ensures var shown := Shown(group);
      && |shown| <= 5
      && SortedStrings(shown) && NoDuplicates(shown)
      && (forall x :: x in shown ==> x in group)
      && (|SortedSet(group)| <= 5 ==> forall x :: x in group ==> x in shown)
      && |Rows(PathBullet, shown)| == |shown|
      && (forall k :: 0 <= k < |shown| ==> Rows(PathBullet, shown)[k] == "- `" + shown[k] + "`")
    ensures |group| > 5 ==> MoreLines(|group|) == ["- ... and " + NatToString(|group| - 5) + " more"]
    ensures |group| <= 5 ==> MoreLines(|group|) == []
  {
    SortedSetCorrect(group);
    var sorted := SortedSet(group);
    var shown := Shown(group);
    assert forall i :: 0 <= i < |shown| ==> shown[i] == sorted[i];
    assert |SortedSet(group)| <= 5 ==> shown == sorted;
  }

  /** The sections of the names, in order. */
  function Sections(section: string -> seq<string>, names: seq<string>): seq<string>
  {
    if names == [] then [] else Sections(section, names[..|names| - 1]) + section(names[|names| - 1])
  }

  /** The section of a resource among the paths. */
  function GroupSection(paths: seq<string>): string -> seq<string>
  {
    name => GroupLines(name, GroupOf(ResourceOf, paths, name))
  }

  const ResourcesHeader: seq<string> := ["## AgentOS REST API Resources", "", "Available API resources:", ""]

  function PatternNames(table: seq<(string, seq<string>)>): (r: seq<string>)
    ensures |r| == |table|
    ensures forall k :: 0 <= k < |table| ==> r[k] == table[k].0
  {
    if table == [] then [] else [table[0].0] + PatternNames(table[1..])
  }

  function ResourcesFooter(): seq<string>
  {
    ["---",
     "",
     "**Usage:** Call `agno_api(resource=\"memory\")` to get detailed endpoint info.",
     "",
     "**Available resources:** " + Join(SortStrings(PatternNames(ResourcePatterns)), ", ")]
  }

  /** The resources of the paths, ascending and each once. */
  function ResourceOrder(paths: seq<string>): seq<string>
  {
    SortedSet(Rows(ResourceOf, paths))
  }

  /** The resources are listed ascending, each once, and they are exactly
      the resources of the paths. */
  lemma {:induction false} ResourceOrderMeaning(paths: seq<string>)
    ensures SortedStrings(ResourceOrder(paths)) && NoDuplicates(ResourceOrder(paths))
    ensures forall name :: name in ResourceOrder(paths) <==> exists k :: 0 <= k < |paths| && ResourceOf(paths[k]) == name
  {
    SortedSetCorrect(Rows(ResourceOf, paths));
    forall name ensures name in ResourceOrder(paths) <==> exists k :: 0 <= k < |paths| && ResourceOf(paths[k]) == name {
      if name in Rows(ResourceOf, paths) {
        var k :| 0 <= k < |paths| && Rows(ResourceOf, paths)[k] == name;
      }
    }
  }

  /** list_all_resources */
  function ResourcesText(spec: Json): Result<string>
  {
    match PathsOf(spec, "keys")
    case Err(e) => Err(e)
    case Ok(ps) =>
      var keys := Keys(ps);
      Ok(Join(ResourcesHeader + Sections(GroupSection(keys), ResourceOrder(keys)) + ResourcesFooter(), "\n"))
  }

  // ---------------------------------------------------------------------
  // agno_api

  const NotFound: string :=
    "OpenAPI specification not found.\nRun `python -m agno_docs_mcp.prepare` to prepare docs including the API spec."

  /** What load_openapi_spec returns is Python's None: no file, a file that
      is not JSON (None here), or a file holding `null`, which json.load
      reads as None. */
  predicate NoSpec(spec: Option<Json>)
  {
    spec.None? || spec.value.JNull?
  }

  /** agno_api: the parsed openapi.json is a parameter, None when the file
      is missing or is not JSON; resource None is "". */
  function AgnoApi(spec: Option<Json>, resource: string): Result<string>
  {
    if NoSpec(spec) then Ok(NotFound)
    else
      var doc := spec.value;
      if resource == "" || Strip(resource) == "" then ResourcesText(doc)
      else
        match EndpointsFor(doc, Strip(resource))
        case Err(e) => Err(e)
        case Ok(es) => EndpointsText(es, resource)
  }

  /** Without a document, or with a `null` one, the tool says so; a blank
      resource lists the resources; any other is looked up stripped, and
      its heading shows it as given. */
  lemma {:induction false} AgnoApiCases(spec: Option<Json>, resource: string)
    ensures spec.None? ==> AgnoApi(spec, resource) == Ok(NotFound)
    ensures spec == Some(JNull) ==> AgnoApi(spec, resource) == Ok(NotFound)
    ensures !NoSpec(spec) && Strip(resource) == "" ==> AgnoApi(spec, resource) == ResourcesText(spec.value)
    ensures !NoSpec(spec) && Strip(resource) != "" && EndpointsFor(spec.value, Strip(resource)).Ok? ==>
      AgnoApi(spec, resource) == EndpointsText(EndpointsFor(spec.value, Strip(resource)).value, resource)
  {
  }

  // ---------------------------------------------------------------------
  // The tool's code, step by step

  /** The parameter and response loops and the request body of one
      endpoint. */
  method BuildEndpoint(verb: string, path: string, details: Json) returns (r: Result<Endpoint>)
    ensures r == EndpointOf(verb, path, details)
  {
    if !details.JObj? {
      return Err(NoAttribute(details, "get"));
    }
    var fs := details.fields;
    var summary := FindOr(fs, "summary", JStr(""));
    var description := FindOr(fs, "description", JStr(""));
    var raw := Iterate(FindOr(fs, "parameters", JArr([])));
    if raw.Err? {
      return Err(raw.msg);
    }
    var params: seq<Param> := [];
    for k := 0 to |raw.value|
      invariant Gather(ParamStep(), raw.value[..k]) == Ok(params)
    {
      GatherStep(ParamStep(), raw.value, k, params);
      var p := ParamOf(raw.value[k]);
      if p.Err? {
        GatherStop(ParamStep(), raw.value, k + 1);
        return Err(p.msg);
      }
      params := params + [p.value];
    }
    assert raw.value[..|raw.value|] == raw.value;
    var requestBody := FindOr(fs, "requestBody", JObj([]));
    var body := JNull;
    if Truthy(requestBody) {
      var content := Get(requestBody, "content", JObj([]));
      if content.Err? {
        return Err(content.msg);
      }
      var json := Get(content.value, "application/json", JObj([]));
      if json.Err? {
        return Err(json.msg);
      }
      var schema := Get(json.value, "schema", JObj([]));
      if schema.Err? {
        return Err(schema.msg);
      }
      body := schema.value;
    }
    var rs := Members(FindOr(fs, "responses", JObj([])), "items");
    if rs.Err? {
      return Err(rs.msg);
    }
    var responses: seq<(string, Json)> := [];
    for k := 0 to |rs.value|
      invariant Gather(ResponseStep(), rs.value[..k]) == Ok(responses)
    {
      GatherStep(ResponseStep(), rs.value, k, responses);
      var d := Get(rs.value[k].1, "description", JStr(""));
      if d.Err? {
        GatherStop(ResponseStep(), rs.value, k + 1);
        return Err(d.msg);
      }
      responses := responses + [(rs.value[k].0, d.value)];
    }
    assert rs.value[..|rs.value|] == rs.value;
    return Ok(Endpoint(Upper(verb), path, summary, description, params, body, responses));
  }

  /** The method loop of one matching path. */
  method PathEndpoints(path: string, methods: Json) returns (r: Result<seq<Endpoint>>)
    ensures methods.JObj? ==> r == Gather(MethodStep(path), methods.fields)
    ensures !methods.JObj? ==> r == Err(NoAttribute(methods, "items"))
  {
    var ms := Members(methods, "items");
    if ms.Err? {
      return Err(ms.msg);
    }
    var found: seq<Endpoint> := [];
    for j := 0 to |ms.value|
      invariant Gather(MethodStep(path), ms.value[..j]) == Ok(found)
    {
      GatherStep(MethodStep(path), ms.value, j, found);
      var verb := ms.value[j].0;
      if verb !in HttpMethods {
        assert found + [] == found;
        continue;
      }
      var e := BuildEndpoint(verb, path, ms.value[j].1);
      if e.Err? {
        GatherStop(MethodStep(path), ms.value, j + 1);
        return Err(e.msg);
      }
      found := found + [e.value];
    }
    assert ms.value[..|ms.value|] == ms.value;
    return Ok(found);
  }

  /** get_endpoints_for_resource: the path loop, and the method loop of
      each path that a pattern matches. */
  method GetEndpointsForResource(spec: Json, resource: string) returns (r: Result<seq<Endpoint>>)
    ensures r == EndpointsFor(spec, resource)
  {
    var patterns := PatternsFor(Lower(resource));
    var paths := Get(spec, "paths", JObj([]));
    if paths.Err? {
      return Err(paths.msg);
    }
    var ps := Members(paths.value, "items");
    if ps.Err? {
      return Err(ps.msg);
    }
    var step := PathStep(patterns);
    var endpoints: seq<Endpoint> := [];
    for i := 0 to |ps.value|
      invariant Gather(step, ps.value[..i]) == Ok(endpoints)
    {
      GatherStep(step, ps.value, i, endpoints);
      var path := ps.value[i].0;
      if !AnyOccurs(Lower(path), patterns) {
        assert endpoints + [] == endpoints;
        continue;
      }
      var more := PathEndpoints(path, ps.value[i].1);
      if more.Err? {
        GatherStop(step, ps.value, i + 1);
        return Err(more.msg);
      }
      endpoints := endpoints + more.value;
    }
    assert ps.value[..|ps.value|] == ps.value;
    return Ok(endpoints);
  }

  /** Appends one line per item. */
  method AppendRows<T>(lines: seq<string>, row: T -> string, xs: seq<T>) returns (r: seq<string>)
    ensures r == lines + Rows(row, xs)
  {
    r := lines;
    for k := 0 to |xs|
      invariant r == lines + Rows(row, xs[..k])
    {
      assert xs[..k + 1][..k] == xs[..k];
      r := r + [row(xs[k])];
    }
    assert xs[..|xs|] == xs;
  }

  /** The property loop of the request body. */
  method FieldRows(lines: seq<string>, fs: seq<(string, Json)>) returns (r: Result<seq<string>>)
    ensures Gather(FieldStep(), fs).Err? ==> r == Err(Gather(FieldStep(), fs).msg)
    ensures Gather(FieldStep(), fs).Ok? ==> r == Ok(lines + Gather(FieldStep(), fs).value)
  {
    var rows: seq<string> := [];
    var out := lines;
    for k := 0 to |fs|
      invariant Gather(FieldStep(), fs[..k]) == Ok(rows)
      invariant out == lines + rows
    {
      GatherStep(FieldStep(), fs, k, rows);
      var propType := Get(fs[k].1, "type", JStr("any"));
      if propType.Err? {
        GatherStop(FieldStep(), fs, k + 1);
        return Err(propType.msg);
      }
      var propDesc := Get(fs[k].1, "description", JStr(""));
      var line := FieldRow(fs[k].0, propType.value, propDesc.value);
      rows := rows + [line];
      out := out + [line];
    }
    assert fs[..|fs|] == fs;
    return Ok(out);
  }

  /** The request body part of format_endpoint. */
  method FormatBody(body: Json) returns (r: Result<seq<string>>)
    ensures r == BodyLines(body)
  {
    if !Truthy(body) {
      return Ok([]);
    }
    var lines := ["**Request Body:** JSON"];
    var props := Get(body, "properties", JObj([]));
    if props.Err? {
      return Err(props.msg);
    }
    if Truthy(props.value) {
      lines := lines + FieldsHeader;
      var fields := Members(props.value, "items");
      if fields.Err? {
        return Err(fields.msg);
      }
      var rows := FieldRows(lines, fields.value);
      if rows.Err? {
        return Err(rows.msg);
      }
      lines := rows.value;
    } else {
      assert lines + [""] == ["**Request Body:** JSON", ""];
    }
    lines := lines + [""];
    return Ok(lines);
  }

  /** The parameter table of format_endpoint. */
  method FormatParams(lines: seq<string>, ps: seq<Param>) returns (r: seq<string>)
    ensures r == lines + ParamSection(ps)
  {
    r := lines;
    if ps != [] {
      r := r + ParamsHeader;
      r := AppendRows(r, ParamRow, ps);
      r := r + [""];
    }
  }

  /** The response list of format_endpoint. */
  method FormatResponses(lines: seq<string>, rs: seq<(string, Json)>) returns (r: seq<string>)
    ensures r == lines + ResponseSection(rs)
  {
    r := lines;
    if rs != [] {
      r := r + ["**Responses:**"];
      r := AppendRows(r, ResponseRow, rs);
      r := r + [""];
    }
  }

  /** format_endpoint: the sections appended one after the other. */
  method FormatEndpoint(e: Endpoint) returns (r: Result<string>)
    ensures r == EndpointText(e)
  {
    var lines := HeadLines(e);
    if Truthy(e.description) {
      lines := lines + [Display(e.description), ""];
    }
    assert lines == HeadLines(e) + DescriptionLines(e);
    lines := FormatParams(lines, e.parameters);
    var body := FormatBody(e.requestBody);
    if body.Err? {
      return Err(body.msg);
    }
    lines := lines + body.value;
    lines := FormatResponses(lines, e.responses);
    if Truthy(e.description) && !e.description.JStr? {
      return Err(JoinError(3, e.description));
    }
    return Ok(Join(lines, "\n"));
  }

  /** format_endpoints_list: each endpoint's text and a rule, in order. */
  method FormatEndpointsList(es: seq<Endpoint>, resource: string) returns (r: Result<string>)
    ensures r == EndpointsText(es, resource)
  {
    if es == [] {
      return Ok("No endpoints found for resource: " + resource);
    }
    var head := ListHeader(resource, |es|);
    var blocks: seq<string> := [];
    for k := 0 to |es|
      invariant Gather(BlockStep(), es[..k]) == Ok(blocks)
    {
      GatherStep(BlockStep(), es, k, blocks);
      var text := FormatEndpoint(es[k]);
      if text.Err? {
        GatherStop(BlockStep(), es, k + 1);
        return Err(text.msg);
      }
      blocks := blocks + [text.value, "---", ""];
    }
    assert es[..|es|] == es;
    return Ok(Join(head + blocks, "\n"));
  }

  /** One more path of the grouping loop. */
  lemma {:induction false} GroupStep(f: string -> string, keys: seq<string>, i: int)
    requires 0 <= i < |keys|
    ensures Dedup(Rows(f, keys[..i + 1])) ==
      var d := Dedup(Rows(f, keys[..i])); if f(keys[i]) in d then d else d + [f(keys[i])]
    ensures forall n ::
      GroupOf(f, keys[..i + 1], n) == GroupOf(f, keys[..i], n) + (if f(keys[i]) == n then [keys[i]] else [])
    ensures forall n :: n !in Dedup(Rows(f, keys[..i])) ==> GroupOf(f, keys[..i], n) == []
  {
    assert keys[..i + 1][..i] == keys[..i];
    var names := Rows(f, keys[..i]);
    assert Rows(f, keys[..i + 1]) == names + [f(keys[i])];
    DedupFromSnoc([], names, f(keys[i]));
    DedupFromCorrect([], names);
    forall n | n !in Dedup(names) ensures GroupOf(f, keys[..i], n) == [] {
      EmptyGroup(f, keys[..i], n);
    }
  }

  /** A name no path maps to has no paths. */
  lemma {:induction false} EmptyGroup(f: string -> string, paths: seq<string>, name: string)
    requires name !in Rows(f, paths)
    ensures GroupOf(f, paths, name) == []
    decreases |paths|
  {
    if paths != [] {
      var front := paths[..|paths| - 1];
      assert Rows(f, paths) == Rows(f, front) + [f(paths[|paths| - 1])];
      EmptyGroup(f, front, name);
    }
  }

  /** The grouping loop of list_all_resources, for the resource function
      f: the dict from a resource to its paths, with its keys in insertion
      order. */
  method GroupPaths(f: string -> string, keys: seq<string>) returns (order: seq<string>, groups: map<string, seq<string>>)
    ensures order == Dedup(Rows(f, keys))
    ensures forall n :: n in groups <==> n in order
    ensures forall n :: n in groups ==> groups[n] == GroupOf(f, keys, n)
  {
    order := [];
    groups := map[];
    for i := 0 to |keys|
      invariant order == Dedup(Rows(f, keys[..i]))
      invariant forall n :: n in groups <==> n in order
      invariant forall n :: n in groups ==> groups[n] == GroupOf(f, keys[..i], n)
    {
      GroupStep(f, keys, i);
      var resource := f(keys[i]);
      if resource !in groups {
        order := order + [resource];
        groups := groups[resource := []];
      }
      groups := groups[resource := groups[resource] + [keys[i]]];
    }
    assert keys[..|keys|] == keys;
  }

  /** The section of one resource: at most five sorted paths and the
      count of the rest. */
  method FormatGroup(lines: seq<string>, name: string, paths: seq<string>) returns (r: seq<string>)
    ensures r == lines + GroupLines(name, paths)
  {
    r := lines + ["### " + name];
    r := AppendRows(r, PathBullet, Shown(paths));
    if |paths| > 5 {
      r := r + ["- ... and " + NatToString(|paths| - 5) + " more"];
    }
    r := r + [""];
  }

  /** list_all_resources */
  method ListAllResources(spec: Json) returns (r: Result<string>)
    ensures r == ResourcesText(spec)
  {
    var paths := Get(spec, "paths", JObj([]));
    if paths.Err? {
      return Err(paths.msg);
    }
    var ps := Members(paths.value, "keys");
    if ps.Err? {
      return Err(ps.msg);
    }
    var keys := Keys(ps.value);
    var order, groups := GroupPaths(ResourceOf, keys);
    var names := SortStrings(order);
    SortStringsCorrect(order);
    assert forall n :: n in names ==> n in multiset(order);
    var lines := FormatGroups(ResourcesHeader, names, keys, groups);
    lines := lines + ResourcesFooter();
    return Ok(Join(lines, "\n"));
  }

  lemma {:induction false} SectionOf(keys: seq<string>, name: string, paths: seq<string>)
    requires paths == GroupOf(ResourceOf, keys, name)
    ensures GroupSection(keys)(name) == GroupLines(name, paths)
  {
  }

  /** The loop over the sorted resources. */
  method FormatGroups(lines: seq<string>, names: seq<string>, keys: seq<string>, groups: map<string, seq<string>>)
    returns (r: seq<string>)
    requires forall n :: n in names ==> n in groups && groups[n] == GroupOf(ResourceOf, keys, n)
    ensures r == lines + Sections(GroupSection(keys), names)
  {
    var section := GroupSection(keys);
    r := lines;
    for k := 0 to |names|
      invariant r == lines + Sections(section, names[..k])
    {
      assert names[..k + 1][..k] == names[..k];
      SectionOf(keys, names[k], groups[names[k]]);
      Regroup(lines, Sections(section, names[..k]), section(names[k]));
      r := FormatGroup(r, names[k], groups[names[k]]);
    }
    assert names[..|names|] == names;
  }

  /** agno_api */
  method AgnoApiTool(spec: Option<Json>, resource: string) returns (r: Result<string>)
    ensures r == AgnoApi(spec, resource)
  {
    if spec.None? || spec.value.JNull? {
      return Ok(NotFound);
    }
    if resource == "" || Strip(resource) == "" {
      r := ListAllResources(spec.value);
      return;
    }
    var endpoints := GetEndpointsForResource(spec.value, Strip(resource));
    if endpoints.Err? {
      return Err(endpoints.msg);
    }
    r := FormatEndpointsList(endpoints.value, resource);
  }
}
