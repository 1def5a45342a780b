/**
 * The request-acceptance decision of the handwriting generation HTTP server:
 * which response a request gets, from the method and path dispatch of
 * `do_GET` / `do_POST` down to the ordered validation of a generation request.
 *
 * The handwriting model is an opaque collaborator: whether it loaded is an
 * input, and a request that passes every check ends in a `Generate` outcome
 * carrying exactly the arrays the model would be given.
 */
module Server {

  // ---------------------------------------------------------------------------
  // Constants of the endpoint
  // ---------------------------------------------------------------------------

  /** The only path that accepts POST. */
  const GeneratePath: string := "/generate"

  /** Longest accepted line, in characters (inclusive). */
  const MaxLineLength: nat := 75

  /** The members a generation request must carry, in the order they are checked. */
  const RequiredFields: seq<string> :=
    ["lines", "biases", "styles", "stroke_colors", "stroke_widths", "filename"]

  const ModelNotLoaded: string := "Handwriting model not loaded"
  const InvalidJson: string := "Invalid JSON data"
  const MissingFieldPrefix: string := "Missing required field: "
  const LinesEmpty: string := "Lines cannot be empty"
  const LineTooLong: string := "Each line must be 75 characters or less"
  const LengthMismatch: string := "All arrays must have the same length as lines"
  const InternalErrorPrefix: string := "Internal server error: "

  // ---------------------------------------------------------------------------
  // Requests
  // ---------------------------------------------------------------------------

  /** A member of the decoded JSON body, with the types the endpoint expects. */
  datatype Value =
    | Strings(strs: seq<string>)    // an array of strings: lines, stroke_colors
    | Numbers(nums: seq<real>)      // an array of numbers: biases, stroke_widths
    | Integers(ints: seq<int>)      // an array of integers: styles
    | Text(text: string)            // a string: filename

  /** The request body as the JSON decoder sees it. */
  datatype Body =
    | NotUtf8(decodeError: string)              // the bytes are not UTF-8; the codec's message
    | NotJson                                   // UTF-8 text that is not JSON
    | Object(members: map<string, Value>)       // a JSON object

  /** The request method; `OtherMethod` names a method other than GET, POST and OPTIONS. */
  datatype Method = Get | Post | Options | OtherMethod(name: string)

  /** One request as the handler sees it: the model's state, the request line and the body. */
  datatype Request = Request(modelLoaded: bool, verb: Method, target: string, body: Body)

  /** The arrays of a generation request have their expected types; `filename`,
      which the handler never reads, and other members may hold any `Value`. */
  predicate WellTyped(members: map<string, Value>)
  {
    && ("lines" in members ==> members["lines"].Strings?)
    && ("biases" in members ==> members["biases"].Numbers?)
    && ("styles" in members ==> members["styles"].Integers?)
    && ("stroke_colors" in members ==> members["stroke_colors"].Strings?)
    && ("stroke_widths" in members ==> members["stroke_widths"].Numbers?)
  }

  predicate BodyWellTyped(body: Body)
  {
    body.Object? ==> WellTyped(body.members)
  }

  predicate HasRequiredFields(members: map<string, Value>)
  {
    forall f | f in RequiredFields :: f in members
  }

  function LinesOf(m: map<string, Value>): seq<string>
    requires HasRequiredFields(m) && WellTyped(m)
  {
    m["lines"].strs
  }

  function BiasesOf(m: map<string, Value>): seq<real>
    requires HasRequiredFields(m) && WellTyped(m)
  {
    m["biases"].nums
  }

  function StylesOf(m: map<string, Value>): seq<int>
    requires HasRequiredFields(m) && WellTyped(m)
  {
    m["styles"].ints
  }

  function ColorsOf(m: map<string, Value>): seq<string>
    requires HasRequiredFields(m) && WellTyped(m)
  {
    m["stroke_colors"].strs
  }

  function WidthsOf(m: map<string, Value>): seq<real>
    requires HasRequiredFields(m) && WellTyped(m)
  {
    m["stroke_widths"].nums
  }

  // ---------------------------------------------------------------------------
  // Outcomes and responses
  // ---------------------------------------------------------------------------

  datatype Outcome =
    | StatusPage(modelLoaded: bool)          // GET /: the HTML status page
    | Health(modelLoaded: bool)              // GET /health
    | Error(code: nat, message: string)      // a JSON error response
    | NotFound                               // the standard 404 error page
    | Preflight                              // OPTIONS: CORS headers only
    | Unsupported(name: string)              // a method with no handler: 501
    | Generate(lines: seq<string>, biases: seq<real>, styles: seq<int>,
               colors: seq<string>, widths: seq<real>)

  /** The JSON values the server writes. Object members keep their insertion order. */
  datatype Json = JString(s: string) | JBool(b: bool) | JObject(members: seq<(string, Json)>)

  datatype Payload =
    | JsonPayload(json: Json)
    | StatusHtml(modelLoaded: bool)
    | ErrorPage(code: nat, message: string)
    | GeneratedSvg                           // the SVG the model wrote; opaque here
    | NoPayload

  datatype Response = Response(status: nat, contentType: string, payload: Payload)

  const JsonType: string := "application/json"

  function ErrorJson(message: string): Json
  {
    JObject([("error", JString(message))])
  }

  function HealthJson(modelLoaded: bool): Json
  {
    JObject([("status", JString("healthy")), ("model_loaded", JBool(modelLoaded))])
  }

  /** What the handler writes back for an outcome. */
  function Respond(o: Outcome): (r: Response)
    ensures !o.Error? ==> (r.status == 200 <==> o.StatusPage? || o.Health? || o.Preflight? || o.Generate?)
    ensures r.contentType == JsonType <==> o.Error? || o.Health?
    ensures o.Error? ==> r.status == o.code && r.payload == JsonPayload(JObject([("error", JString(o.message))]))
    ensures o.Health? ==>
      r.payload == JsonPayload(JObject([("status", JString("healthy")), ("model_loaded", JBool(o.modelLoaded))]))
    ensures o.StatusPage? ==> r.payload == StatusHtml(o.modelLoaded)
    ensures o.NotFound? ==> r.status == 404
  {
    match o
    case StatusPage(loaded) => Response(200, "text/html", StatusHtml(loaded))
    case Health(loaded) => Response(200, JsonType, JsonPayload(HealthJson(loaded)))
    case Error(code, message) => Response(code, JsonType, JsonPayload(ErrorJson(message)))
    case NotFound => Response(404, "text/html;charset=utf-8", ErrorPage(404, "Not Found"))
    case Unsupported(name) =>
      Response(501, "text/html;charset=utf-8", ErrorPage(501, "Unsupported method ('" + name + "')"))
    case Preflight => Response(200, "", NoPayload)
    case Generate(_, _, _, _, _) => Response(200, "image/svg+xml", GeneratedSvg)
  }

  /** The messages the generation handler can answer with. */
  predicate IsHandlerMessage(m: string)
  {
    || m == ModelNotLoaded
    || m == InvalidJson
    || m == LinesEmpty
    || m == LineTooLong
    || m == LengthMismatch
    || (exists f :: f in RequiredFields && m == MissingFieldPrefix + f)
  }

  // ---------------------------------------------------------------------------
  // The generation request
  // ---------------------------------------------------------------------------

  /** The index of the first of `fields` that `data` lacks, or |fields| when none is missing. */
  function FirstMissing(fields: seq<string>, data: map<string, Value>): (k: nat)
    ensures k <= |fields|
    ensures forall j :: 0 <= j < k ==> fields[j] in data
    ensures k < |fields| ==> fields[k] !in data
  {
    if |fields| == 0 || fields[0] !in data then 0
    else 1 + FirstMissing(fields[1..], data)
  }

  /** Every line is at most MaxLineLength characters long; lines are not trimmed. */
  predicate LinesWithinLimit(lines: seq<string>)
  {
    forall line | line in lines :: |line| <= MaxLineLength
  }

  /** The success condition of a generation request, stated as one conjunction. */
  predicate Accepts(modelLoaded: bool, body: Body)
    requires BodyWellTyped(body)
  {
    && modelLoaded
    && body.Object?
    && HasRequiredFields(body.members)
    && var m := body.members;
       && |LinesOf(m)| > 0
       && LinesWithinLimit(LinesOf(m))
       && |BiasesOf(m)| == |LinesOf(m)|
       && |StylesOf(m)| == |LinesOf(m)|
       && |ColorsOf(m)| == |LinesOf(m)|
       && |WidthsOf(m)| == |LinesOf(m)|
  }

  /**
   * The outcome of a POST to the generation path: the checks run in a fixed
   * order and the first that fails decides the message. A body that cannot be
   * decoded, whether for its encoding or its syntax, is invalid JSON.
   */
  function GenerateOutcome(modelLoaded: bool, body: Body): (o: Outcome)
    requires BodyWellTyped(body)
    ensures o.Generate? <==> Accepts(modelLoaded, body)
    ensures o.Generate? ==>
      && body.Object? && HasRequiredFields(body.members)
      && o == Generate(LinesOf(body.members), BiasesOf(body.members), StylesOf(body.members),
                       ColorsOf(body.members), WidthsOf(body.members))
    ensures !o.Generate? ==> o.Error? && IsHandlerMessage(o.message)
    ensures !o.Generate? ==> (o.code == 500 <==> !modelLoaded) && (o.code == 400 <==> modelLoaded)
  {
    if !modelLoaded then Error(500, ModelNotLoaded)
    else if !body.Object? then Error(400, InvalidJson)
    else
      var m := body.members;
      var k := FirstMissing(RequiredFields, m);
      if k < |RequiredFields| then Error(400, MissingFieldPrefix + RequiredFields[k])
      else
        var lines := LinesOf(m);
        if |lines| == 0 then Error(400, LinesEmpty)
        else if !(forall i | 0 <= i < |lines| :: |lines[i]| <= MaxLineLength) then Error(400, LineTooLong)
        else if !(&& |BiasesOf(m)| == |lines| && |StylesOf(m)| == |lines|
                  && |ColorsOf(m)| == |lines| && |WidthsOf(m)| == |lines|)
        then Error(400, LengthMismatch)
        else Generate(lines, BiasesOf(m), StylesOf(m), ColorsOf(m), WidthsOf(m))
  }

  /**
   * The generation handler as written: a body that is not UTF-8 makes the
   * decoder raise an error that the JSON-error branch does not catch, so it
   * reaches the handler's catch-all and answers 500 with the decoder's message.
   */
  function GenerateOutcomeAsWritten(modelLoaded: bool, body: Body): (o: Outcome)
    requires BodyWellTyped(body)
    ensures o.Generate? <==> Accepts(modelLoaded, body)
    ensures o.Generate? ==>
      && body.Object? && HasRequiredFields(body.members)
      && o == Generate(LinesOf(body.members), BiasesOf(body.members), StylesOf(body.members),
                       ColorsOf(body.members), WidthsOf(body.members))
    ensures !o.Generate? ==> o.Error? && (o.code == 500 <==> !modelLoaded || body.NotUtf8?)
    ensures !modelLoaded ==> o == Error(500, ModelNotLoaded)
    ensures modelLoaded && body.NotUtf8? ==> o.message == InternalErrorPrefix + body.decodeError
  {
    if modelLoaded && body.NotUtf8? then Error(500, InternalErrorPrefix + body.decodeError)
    else GenerateOutcome(modelLoaded, body)
  }

  /**
   * The generation handler step by step, as written: the early returns, the
   * decoding step whose encoding error escapes to the catch-all, and the loop
   * over the required members.
   */
  method HandleGenerateRequest(modelLoaded: bool, body: Body) returns (o: Outcome)
    requires BodyWellTyped(body)
    ensures o == GenerateOutcomeAsWritten(modelLoaded, body)
  {
    if !modelLoaded {
      return Error(500, ModelNotLoaded);
    }
    if body.NotUtf8? {
      return Error(500, InternalErrorPrefix + body.decodeError);
    }
    if !body.Object? {
      return Error(400, InvalidJson);
    }
    var data := body.members;
    var i := 0;
    while i < |RequiredFields|
      invariant 0 <= i <= |RequiredFields|
      invariant forall j :: 0 <= j < i ==> RequiredFields[j] in data
    {
      var field := RequiredFields[i];
      if field !in data {
        return Error(400, MissingFieldPrefix + field);
      }
      i := i + 1;
    }
    assert RequiredFields[0] in data && RequiredFields[1] in data && RequiredFields[2] in data;
    assert RequiredFields[3] in data && RequiredFields[4] in data;
    var lines := data["lines"].strs;
    var biases := data["biases"].nums;
    var styles := data["styles"].ints;
    var colors := data["stroke_colors"].strs;
    var widths := data["stroke_widths"].nums;
    if |lines| == 0 {
      return Error(400, LinesEmpty);
    }
    if !(forall i | 0 <= i < |lines| :: |lines[i]| <= MaxLineLength) {
      return Error(400, LineTooLong);
    }
    var expected := |lines|;
    if !(|biases| == expected && |styles| == expected && |colors| == expected && |widths| == expected) {
      return Error(400, LengthMismatch);
    }
    o := Generate(lines, biases, styles, colors, widths);
  }

  // ---------------------------------------------------------------------------
  // Dispatch
  // ---------------------------------------------------------------------------

  function DropLeadingSlashes(s: string): (r: string)
    ensures |r| <= |s| && r == s[|s| - |r|..]
    ensures forall i :: 0 <= i < |s| - |r| ==> s[i] == '/'
    ensures r == [] || r[0] != '/'
  {
    if s != [] && s[0] == '/' then DropLeadingSlashes(s[1..]) else s
  }

  /**
   * The target as the request handler keeps it: a target that starts with
   * `//` is reduced to a single leading `/`; any other target is kept.
   */
  function HandlerTarget(raw: string): (t: string)
    ensures !(|raw| >= 2 && raw[0] == '/' && raw[1] == '/') ==> t == raw
    ensures |raw| >= 2 && raw[0] == '/' && raw[1] == '/' ==>
      && 1 <= |t| < |raw| && t[0] == '/' && (|t| == 1 || t[1] != '/')
      && t[1..] == raw[|raw| - (|t| - 1)..]
      && forall i :: 0 <= i < |raw| - (|t| - 1) ==> raw[i] == '/'
  {
    if |raw| >= 2 && raw[0] == '/' && raw[1] == '/' then "/" + DropLeadingSlashes(raw) else raw
  }

  /** The characters the URL splitter strips from the front: C0 controls and space. */
  predicate IsControlOrSpace(c: char)
  {
    c <= ' '
  }

  /** The characters the URL splitter removes everywhere. */
  predicate IsTabOrNewline(c: char)
  {
    c == '\t' || c == '\r' || c == '\n'
  }

  /** The target without its leading C0 control characters and spaces. */
  function LstripControl(s: string): (r: string)
    ensures |r| <= |s| && r == s[|s| - |r|..]
    ensures forall i :: 0 <= i < |s| - |r| ==> IsControlOrSpace(s[i])
    ensures r == [] || !IsControlOrSpace(r[0])
  {
    if s != [] && IsControlOrSpace(s[0]) then LstripControl(s[1..]) else s
  }

  /** The target with every tab, carriage return and line feed removed, the rest in order. */
  function RemoveTabsAndNewlines(s: string): (r: string)
    ensures |r| <= |s|
    ensures forall i :: 0 <= i < |r| ==> !IsTabOrNewline(r[i])
    ensures (forall i :: 0 <= i < |s| ==> !IsTabOrNewline(s[i])) ==> r == s
    ensures (forall i :: 0 <= i < |s| ==> IsTabOrNewline(s[i])) ==> r == []
  {
    if s == [] then []
    else if IsTabOrNewline(s[0]) then RemoveTabsAndNewlines(s[1..])
    else [s[0]] + RemoveTabsAndNewlines(s[1..])
  }

  /** Everything before the first `?` or `#`: the target without its query and fragment. */
  function BeforeQueryOrFragment(target: string): (p: string)
    ensures p <= target
    ensures '?' !in p && '#' !in p
    ensures p == target || target[|p|] == '?' || target[|p|] == '#'
  {
    if target == [] || target[0] == '?' || target[0] == '#' then []
    else [target[0]] + BeforeQueryOrFragment(target[1..])
  }

  /**
   * The path without the parameters of its last segment: it is cut at the
   * first `;` that no `/` follows.
   */
  function StripParams(p: string): (r: string)
    ensures r <= p
    ensures r == p || (p[|r|] == ';' && '/' !in p[|r|..])
    ensures forall i :: 0 <= i < |r| && r[i] == ';' ==> '/' in p[i + 1..]
  {
    if p == [] then []
    else if p[0] == ';' && '/' !in p[1..] then []
    else
      var rest := StripParams(p[1..]);
      [p[0]] + rest
  }

  /**
   * The path component of a request target, as the URL parser computes it for
   * a target without a scheme or network location: leading controls stripped,
   * tabs and newlines removed, query and fragment cut off, and the parameters
   * of the last segment dropped.
   */
  function UrlPath(target: string): (p: string)
    ensures '?' !in p && '#' !in p
    ensures forall i :: 0 <= i < |p| ==> !IsTabOrNewline(p[i])
    ensures p == [] || !IsControlOrSpace(p[0])
  {
    var cleaned := RemoveTabsAndNewlines(LstripControl(target));
    var beforeQuery := BeforeQueryOrFragment(cleaned);
    var path := StripParams(beforeQuery);
    path
  }

  /** The outcome of any request: GET matches the path component, POST the whole target. */
  function Route(req: Request): (o: Outcome)
    requires req.verb == Post && HandlerTarget(req.target) == GeneratePath ==> BodyWellTyped(req.body)
    ensures o.Generate? <==>
      req.verb == Post && HandlerTarget(req.target) == GeneratePath && Accepts(req.modelLoaded, req.body)
    ensures o.Error? ==> req.verb == Post && HandlerTarget(req.target) == GeneratePath
    ensures o.NotFound? <==>
      || (req.verb == Get && UrlPath(HandlerTarget(req.target)) != "/"
                          && UrlPath(HandlerTarget(req.target)) != "/health")
      || (req.verb == Post && HandlerTarget(req.target) != GeneratePath)
    ensures o.StatusPage? <==> req.verb == Get && UrlPath(HandlerTarget(req.target)) == "/"
    ensures o.Health? <==> req.verb == Get && UrlPath(HandlerTarget(req.target)) == "/health"
    ensures (o.StatusPage? || o.Health?) ==> o.modelLoaded == req.modelLoaded
    ensures req.verb == Post && HandlerTarget(req.target) == GeneratePath ==>
      o == GenerateOutcome(req.modelLoaded, req.body)
    ensures req.verb == Options ==> o == Preflight
    ensures req.verb.OtherMethod? ==> o == Unsupported(req.verb.name)
  {
    var target := HandlerTarget(req.target);
    match req.verb
    case Get =>
      var path := UrlPath(target);
      if path == "/" then StatusPage(req.modelLoaded)
      else if path == "/health" then Health(req.modelLoaded)
      else NotFound
    case Post =>
      if target == GeneratePath then GenerateOutcome(req.modelLoaded, req.body)
      else NotFound
    case Options => Preflight
    case OtherMethod(name) => Unsupported(name)
  }
}
