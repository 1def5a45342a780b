/**
 * Properties of the handwriting server's request decision: the order of the
 * validation checks, the inclusive line-length limit, the routing of GET and
 * POST, and the shape of the responses.
 */
module ServerProperties {
  import opened Server

  // ---------------------------------------------------------------------------
  // Order of the generation checks
  // ---------------------------------------------------------------------------

  /** Without a model, every generation request is answered 500 whatever its body. */
  lemma ModelCheckPrecedesParsing(b1: Body, b2: Body)
    requires BodyWellTyped(b1) && BodyWellTyped(b2)
    ensures GenerateOutcome(false, b1) == GenerateOutcome(false, b2) == Error(500, ModelNotLoaded)
  {
  }

  /** A body that cannot be decoded is answered 400 before any member is examined. */
  lemma UndecodableBodyRejected(body: Body)
    requires !body.Object?
    ensures GenerateOutcome(true, body) == Error(400, InvalidJson)
  {
  }

  /** The missing member reported is the first absent one in the checking order. */
  lemma MissingFieldReported(m: map<string, Value>, k: nat)
    requires WellTyped(m)
    requires k < |RequiredFields|
    requires forall j :: 0 <= j < k ==> RequiredFields[j] in m
    requires RequiredFields[k] !in m
    ensures GenerateOutcome(true, Object(m)) == Error(400, MissingFieldPrefix + RequiredFields[k])
  {
  }

  /** Conversely, a missing-member answer names an absent member all of whose predecessors are present. */
  lemma MissingFieldMessageNamesFirstAbsent(loaded: bool, body: Body, f: string)
    requires BodyWellTyped(body)
    requires GenerateOutcome(loaded, body) == Error(400, MissingFieldPrefix + f)
    ensures body.Object?
    ensures exists k :: 0 <= k < |RequiredFields| && RequiredFields[k] == f && f !in body.members
                        && forall j :: 0 <= j < k ==> RequiredFields[j] in body.members
  {
    MissingFieldMessageIsDistinct(f);
    assert loaded && body.Object?;
    var m := body.members;
    var k := FirstMissing(RequiredFields, m);
    if k == |RequiredFields| {
      assert false;
    } else {
      MissingFieldMessageDeterminesField(f, RequiredFields[k]);
    }
  }

  /** A missing-member message differs from every other message of the handler. */
  lemma MissingFieldMessageIsDistinct(f: string)
    ensures var message := MissingFieldPrefix + f;
            message != InvalidJson && message != LinesEmpty && message != LineTooLong
            && message != LengthMismatch
  {
    var message := MissingFieldPrefix + f;
    assert message[0] == 'M';
    assert InvalidJson[0] == 'I';
    assert LinesEmpty[0] == 'L';
    assert LineTooLong[0] == 'E';
    assert message[1] == 'i' && LengthMismatch[1] == 'l';
  }

  /** The member name can be read back from a missing-member message. */
  lemma MissingFieldMessageDeterminesField(f: string, g: string)
    requires MissingFieldPrefix + f == MissingFieldPrefix + g
    ensures f == g
  {
    assert (MissingFieldPrefix + f)[|MissingFieldPrefix|..] == f;
    assert (MissingFieldPrefix + g)[|MissingFieldPrefix|..] == g;
  }

  /** Empty `lines` is reported even when the other arrays disagree in length. */
  lemma EmptyLinesRejected(m: map<string, Value>)
    requires WellTyped(m) && HasRequiredFields(m)
    requires LinesOf(m) == []
    ensures GenerateOutcome(true, Object(m)) == Error(400, LinesEmpty)
  {
  }

  /** A line longer than the limit is reported even when the other arrays disagree in length. */
  lemma OverlongLineRejected(m: map<string, Value>, i: nat)
    requires WellTyped(m) && HasRequiredFields(m)
    requires i < |LinesOf(m)| && |LinesOf(m)[i]| > MaxLineLength
    ensures GenerateOutcome(true, Object(m)) == Error(400, LineTooLong)
  {
  }

  /** Once lines are present, non-empty and short enough, a length mismatch is reported. */
  lemma LengthMismatchRejected(m: map<string, Value>)
    requires WellTyped(m) && HasRequiredFields(m)
    requires |LinesOf(m)| > 0 && LinesWithinLimit(LinesOf(m))
    requires || |BiasesOf(m)| != |LinesOf(m)| || |StylesOf(m)| != |LinesOf(m)|
             || |ColorsOf(m)| != |LinesOf(m)| || |WidthsOf(m)| != |LinesOf(m)|
    ensures GenerateOutcome(true, Object(m)) == Error(400, LengthMismatch)
  {
  }

  // ---------------------------------------------------------------------------
  // The line-length boundary, on concrete requests
  // ---------------------------------------------------------------------------

  /** A body with one line and one entry in every array. */
  function OneLineBody(line: string): map<string, Value>
  {
    map["lines" := Strings([line]), "biases" := Numbers([0.7]), "styles" := Integers([7]),
        "stroke_colors" := Strings(["#000000"]), "stroke_widths" := Numbers([2.0]),
        "filename" := Text("output.svg")]
  }

  /** A line of exactly 75 characters is accepted and passed on unchanged. */
  lemma LineAtLimitAccepted()
    ensures var line := seq(75, _ => 'a');
            GenerateOutcome(true, Object(OneLineBody(line)))
              == Generate([line], [0.7], [7], ["#000000"], [2.0])
  {
  }

  /** A line of 76 characters is rejected. */
  lemma LineOverLimitRejected()
    ensures GenerateOutcome(true, Object(OneLineBody(seq(76, _ => 'a')))) == Error(400, LineTooLong)
  {
    var m := OneLineBody(seq(76, _ => 'a'));
    assert HasRequiredFields(m);
    OverlongLineRejected(m, 0);
  }

  /** Lines are not trimmed: a line of blanks counts as a line and is accepted. */
  lemma BlankLineAccepted()
    ensures GenerateOutcome(true, Object(OneLineBody("   ")))
              == Generate(["   "], [0.7], [7], ["#000000"], [2.0])
  {
    var m := OneLineBody("   ");
    assert HasRequiredFields(m);
    assert LinesWithinLimit(LinesOf(m));
  }

  // ---------------------------------------------------------------------------
  // Routing
  // ---------------------------------------------------------------------------

  /** Stripping stops at the first visible character, so what follows it is kept. */
  lemma {:induction false} LstripStopsAtVisible(a: string, b: string)
    requires b != [] && !IsControlOrSpace(b[0])
    ensures LstripControl(a + b) == LstripControl(a) + b
  {
    if a != [] {
      assert (a + b)[1..] == a[1..] + b;
      LstripStopsAtVisible(a[1..], b);
    }
  }

  /** Removing tabs and newlines works piece by piece. */
  lemma {:induction false} RemoveTabsDistributes(a: string, b: string)
    ensures RemoveTabsAndNewlines(a + b) == RemoveTabsAndNewlines(a) + RemoveTabsAndNewlines(b)
  {
    if a == [] {
      assert a + b == b;
    } else {
      assert (a + b)[0] == a[0];
      assert (a + b)[1..] == a[1..] + b;
      RemoveTabsDistributes(a[1..], b);
    }
  }

  /** The cut falls at the first `?` when the path before it has none. */
  lemma {:induction false} BeforeQueryDropsQuery(path: string, query: string)
    requires '?' !in path && '#' !in path
    ensures BeforeQueryOrFragment(path + "?" + query) == path
  {
    if path != [] {
      assert (path + "?" + query)[1..] == path[1..] + "?" + query;
      BeforeQueryDropsQuery(path[1..], query);
    }
  }

  /** The `?` that starts a query survives the removal of tabs and newlines. */
  lemma RemoveTabsKeepsQueryMark(query: string)
    ensures RemoveTabsAndNewlines("?" + query) == "?" + RemoveTabsAndNewlines(query)
  {
    assert ("?" + query)[1..] == query;
  }

  /** Removing tabs and newlines brings in no new character. */
  lemma {:induction false} RemoveTabsAddsNothing(s: string, c: char)
    requires c !in s
    ensures c !in RemoveTabsAndNewlines(s)
  {
    if s != [] {
      RemoveTabsAddsNothing(s[1..], c);
    }
  }

  /** Cleaning a path without `?` or `#` does not create one. */
  lemma NoQueryMarkAfterCleaning(path: string)
    requires '?' !in path && '#' !in path
    ensures var cleaned := RemoveTabsAndNewlines(LstripControl(path));
            '?' !in cleaned && '#' !in cleaned
  {
    var stripped := LstripControl(path);
    assert stripped == path[|path| - |stripped|..];
    assert '?' !in stripped && '#' !in stripped;
    RemoveTabsAddsNothing(stripped, '?');
    RemoveTabsAddsNothing(stripped, '#');
  }

  /** Stripping the front of a target leaves its query untouched. */
  lemma LstripKeepsQuery(path: string, query: string)
    ensures LstripControl(path + "?" + query) == LstripControl(path) + ("?" + query)
  {
    assert path + "?" + query == path + ("?" + query);
    LstripStopsAtVisible(path, "?" + query);
  }

  /** Removing tabs and newlines keeps the `?` between path and query. */
  lemma RemoveTabsKeepsQuery(s: string, query: string)
    ensures RemoveTabsAndNewlines(s + ("?" + query))
      == RemoveTabsAndNewlines(s) + "?" + RemoveTabsAndNewlines(query)
  {
    RemoveTabsDistributes(s, "?" + query);
    RemoveTabsKeepsQueryMark(query);
  }

  /** Cleaning a target cleans its path and query separately, around the `?`. */
  lemma CleaningKeepsQuery(path: string, query: string)
    ensures var cleaned := RemoveTabsAndNewlines(LstripControl(path));
            RemoveTabsAndNewlines(LstripControl(path + "?" + query))
              == cleaned + "?" + RemoveTabsAndNewlines(query)
  {
    LstripKeepsQuery(path, query);
    RemoveTabsKeepsQuery(LstripControl(path), query);
  }

  /** A query string after a path without `?` or `#` does not change the path component. */
  lemma UrlPathIgnoresQuery(path: string, query: string)
    requires '?' !in path && '#' !in path
    ensures UrlPath(path + "?" + query) == UrlPath(path)
  {
    var cleaned := RemoveTabsAndNewlines(LstripControl(path));
    var cleanedQuery := RemoveTabsAndNewlines(query);
    NoQueryMarkAfterCleaning(path);
    calc {
      UrlPath(path + "?" + query);
      StripParams(BeforeQueryOrFragment(RemoveTabsAndNewlines(LstripControl(path + "?" + query))));
      { CleaningKeepsQuery(path, query); }
      StripParams(BeforeQueryOrFragment(cleaned + "?" + cleanedQuery));
      { BeforeQueryDropsQuery(cleaned, cleanedQuery); }
      StripParams(cleaned);
      { BeforeQueryKeepsPlainPath(cleaned); }
      StripParams(BeforeQueryOrFragment(cleaned));
      UrlPath(path);
    }
  }

  /** A target that starts with a visible character loses nothing to stripping. */
  lemma LstripKeepsVisibleStart(t: string)
    requires t != [] && !IsControlOrSpace(t[0])
    ensures LstripControl(t) == t
  {
  }

  /** A path without `?` or `#` has no query or fragment to cut. */
  lemma BeforeQueryKeepsPlainPath(t: string)
    requires forall i :: 0 <= i < |t| ==> t[i] != '?' && t[i] != '#'
    ensures BeforeQueryOrFragment(t) == t
  {
  }

  /**
   * A target that starts with a single `/` and holds no control character,
   * space, `?` or `#` keeps everything but the parameters of its last segment.
   */
  lemma UrlPathOfPlainTarget(t: string)
    requires |t| >= 1 && t[0] == '/' && (|t| == 1 || t[1] != '/')
    requires forall i :: 0 <= i < |t| ==> !IsControlOrSpace(t[i]) && t[i] != '?' && t[i] != '#'
    ensures UrlPath(HandlerTarget(t)) == StripParams(t)
  {
    assert HandlerTarget(t) == t;
    LstripKeepsVisibleStart(t);
    assert RemoveTabsAndNewlines(t) == t;
    BeforeQueryKeepsPlainPath(t);
  }

  /** A path without `;` has no parameters to drop. */
  lemma {:induction false} StripParamsKeepsPathWithoutParameters(p: string)
    requires ';' !in p
    ensures StripParams(p) == p
  {
    if p != [] {
      StripParamsKeepsPathWithoutParameters(p[1..]);
    }
  }

  /**
   * A target that starts with a single `/` and holds no control character,
   * space, `?`, `#` or `;` is its own path component.
   */
  lemma PlainTargetIsItsOwnPath(t: string)
    requires |t| >= 1 && t[0] == '/' && (|t| == 1 || t[1] != '/')
    requires forall i :: 0 <= i < |t| ==>
      !IsControlOrSpace(t[i]) && t[i] != '?' && t[i] != '#' && t[i] != ';'
    ensures UrlPath(HandlerTarget(t)) == t
  {
    UrlPathOfPlainTarget(t);
    StripParamsKeepsPathWithoutParameters(t);
  }

  /** The plain target /health names the health endpoint. */
  lemma PlainHealthTarget()
    ensures UrlPath(HandlerTarget("/health")) == "/health"
  {
    var t := "/health";
    assert t == ['/', 'h', 'e', 'a', 'l', 't', 'h'];
    PlainTargetIsItsOwnPath(t);
  }

  /** A `;` after the last `/` starts the parameters, which are cut off. */
  lemma {:induction false} StripParamsCutsParameters(a: string, b: string)
    requires ';' !in a
    requires |b| >= 1 && b[0] == ';' && '/' !in b[1..]
    ensures StripParams(a + b) == a
  {
    if a == [] {
      assert a + b == b;
    } else {
      var ab := a + b;
      assert ab[0] == a[0] && a[0] != ';';
      assert ab[1..] == a[1..] + b;
      StripParamsCutsParameters(a[1..], b);
      assert StripParams(ab) == [a[0]] + StripParams(ab[1..]);
      assert a == [a[0]] + a[1..];
    }
  }

  /** Parameters of the last segment are dropped: /health;v=1 names the health endpoint. */
  lemma HealthTargetWithParams()
    ensures UrlPath(HandlerTarget("/health;v=1")) == "/health"
  {
    HealthParamsTargetIsPlain();
    HealthParamsStripped();
  }

  /** `/health;v=1` is a plain target, so only its parameters are dropped. */
  lemma HealthParamsTargetIsPlain()
    ensures UrlPath(HandlerTarget("/health;v=1")) == StripParams("/health;v=1")
  {
    UrlPathOfPlainTarget("/health;v=1");
  }

  /** The parameters of `/health;v=1` are `;v=1`. */
  lemma HealthParamsStripped()
    ensures StripParams("/health;v=1") == "/health"
  {
    assert "/health;v=1" == "/health" + ";v=1";
    StripParamsCutsParameters("/health", ";v=1");
  }

  /** A second slash in front of a path whose second character is not a slash is dropped. */
  lemma DoubledSlashCollapses(path: string)
    requires |path| >= 2 && path[0] == '/' && path[1] != '/'
    ensures HandlerTarget("/" + path) == path
  {
    var raw := "/" + path;
    assert raw[1..] == path;
    assert raw[1..][1..] == path[1..];
  }

  /** A doubled leading slash is reduced: //health names the health endpoint. */
  lemma HealthTargetWithDoubledSlash()
    ensures UrlPath(HandlerTarget("//health")) == "/health"
  {
    assert HandlerTarget("//health") == "/health" by {
      DoubledSlashCollapses("/health");
      assert "//health"[1..] == "/health";
    }
    PlainHealthTarget();
  }

  /** GET on any target whose path is /health reports whether the model is loaded. */
  lemma HealthReportsModelState(req: Request)
    requires req.verb == Get && UrlPath(HandlerTarget(req.target)) == "/health"
    ensures Respond(Route(req)) ==
      Response(200, JsonType, JsonPayload(JObject([("status", JString("healthy")),
                                                   ("model_loaded", JBool(req.modelLoaded))])))
  {
  }

  /** GET on any target whose path is / shows the status page with the model's state. */
  lemma StatusPageShowsModelState(req: Request)
    requires req.verb == Get && UrlPath(HandlerTarget(req.target)) == "/"
    ensures Respond(Route(req)) == Response(200, "text/html", StatusHtml(req.modelLoaded))
  {
  }

  /** A doubled leading slash is reduced before dispatch, so POST //generate reaches the handler. */
  lemma DoubledSlashReachesGeneration(loaded: bool, body: Body)
    requires BodyWellTyped(body)
    ensures Route(Request(loaded, Post, "//generate", body)) == GenerateOutcome(loaded, body)
  {
    assert HandlerTarget("//generate") == GeneratePath by {
      DoubledSlashCollapses(GeneratePath);
      assert "//generate"[1..] == GeneratePath;
    }
  }

  /** POST compares the raw target: a query string on the generation path gives 404. */
  lemma PostWithQueryNotFound(loaded: bool, query: string, body: Body)
    ensures Route(Request(loaded, Post, GeneratePath + "?" + query, body)) == NotFound
  {
  }

  /** Every error response is a JSON object whose only member is "error", holding a handler message. */
  lemma ErrorResponsesCarryOnlyTheMessage(req: Request)
    requires req.verb == Post && HandlerTarget(req.target) == GeneratePath ==> BodyWellTyped(req.body)
    ensures var r := Respond(Route(req));
            r.contentType == JsonType && r.status != 200 ==>
              && (r.status == 400 || r.status == 500)
              && r.payload.JsonPayload? && r.payload.json.JObject?
              && |r.payload.json.members| == 1
              && r.payload.json.members[0].0 == "error"
              && r.payload.json.members[0].1.JString?
              && IsHandlerMessage(r.payload.json.members[0].1.s)
  {
  }

  /** A 400 answer only ever comes from a generation request to a loaded model. */
  lemma BadRequestOnlyFromGeneration(req: Request)
    requires req.verb == Post && HandlerTarget(req.target) == GeneratePath ==> BodyWellTyped(req.body)
    ensures Respond(Route(req)).status == 400 ==>
      req.verb == Post && HandlerTarget(req.target) == GeneratePath && req.modelLoaded
  {
  }

  // ---------------------------------------------------------------------------
  // Finding: a body that is not UTF-8
  // ---------------------------------------------------------------------------

  /** The handler as written and the corrected one agree on every body that is UTF-8. */
  lemma AsWrittenAgreesOnUtf8Bodies(loaded: bool, body: Body)
    requires BodyWellTyped(body) && !body.NotUtf8?
    ensures GenerateOutcomeAsWritten(loaded, body) == GenerateOutcome(loaded, body)
  {
  }

  /** As written, a body that is not UTF-8 is answered as a server error, not as invalid JSON. */
  lemma NonUtf8BodyAnsweredAsServerError(decodeError: string)
    ensures GenerateOutcomeAsWritten(true, NotUtf8(decodeError))
              == Error(500, InternalErrorPrefix + decodeError)
    ensures GenerateOutcomeAsWritten(true, NotUtf8(decodeError))
              != GenerateOutcome(true, NotUtf8(decodeError))
  {
  }
}
