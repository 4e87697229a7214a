/**
 * The application-wide middlewares: the 404 fallback, the error handler that chooses the final
 * status and writes the error envelope, and request validation, which replaces each configured
 * part with its parsed form in the order params, body, query, headers and stops at the first
 * refusal.
 */
module Middlewares {
  import opened Wrappers
  import opened Json
  import opened HttpErrors
  import opened Schema
  import opened Http

  /** The status `notFound` leaves: 404 unless some stage already chose another. */
  function NotFoundStatus(current: nat): (r: nat)
    ensures current == OK ==> r == NotFoundCode
    ensures current != OK ==> r == current
  {
    if current == OK then NotFoundCode else current
  }

  /** `notFound`: settles the status and forwards an error named after it. */
  method NotFound(res: Response) returns (err: Error)
    modifies res
    ensures res.statusCode == NotFoundStatus(old(res.statusCode)) && res.sent == old(res.sent)
    ensures err == PlainError(ReasonPhrase(res.statusCode), "")
  {
    if res.statusCode == OK {
      res.statusCode := NotFoundCode;
    }
    err := PlainError(ReasonPhrase(res.statusCode), "");
  }

  /** The status the error handler answers with. */
  function FinalStatus(err: Error, current: nat): (r: nat)
    ensures StatusCodeOf(err) != 0 ==> r == StatusCodeOf(err)
    ensures StatusCodeOf(err) == 0 && current == OK ==> r == InternalServerErrorCode
    ensures StatusCodeOf(err) == 0 && current != OK ==> r == current
  {
    if StatusCodeOf(err) != 0 then StatusCodeOf(err)
    else if current == OK then InternalServerErrorCode
    else current
  }

  /** The body the error handler writes once the status is `status`. */
  function EnvelopeOf(err: Error, status: nat, production: bool): (e: Envelope)
    ensures e.status == "fail"
    ensures err.ValidationError? ==> e.message == Issues(err.issues)
    ensures !err.ValidationError? ==> e.message == Said(MessageOf(err))
    ensures e.stack.None? <==> status == NotFoundCode || production
    ensures e.stack.Some? ==> e.stack.value == err.stack
  {
    Envelope(
      "fail",
      if err.ValidationError? then Issues(err.issues) else Said(MessageOf(err)),
      if status == NotFoundCode || production then None else Some(err.stack))
  }

  /** `errorHandler`; `production` is whether the environment is the production one. */
  method ErrorHandler(err: Error, res: Response, production: bool)
    modifies res
    ensures res.statusCode == FinalStatus(err, old(res.statusCode))
    ensures res.sent == Some(Failure(EnvelopeOf(err, res.statusCode, production)))
  {
    if StatusCodeOf(err) != 0 {
      res.statusCode := StatusCodeOf(err);
    } else if res.statusCode == OK {
      res.statusCode := InternalServerErrorCode;
    }
    res.sent := Some(Failure(Envelope(
      "fail",
      if err.ValidationError? then Issues(err.issues) else Said(MessageOf(err)),
      if res.statusCode == NotFoundCode || production then None else Some(err.stack))));
  }

  /** An unmatched request that nothing else answered ends as a 404 "Not Found" without a trace. */
  lemma UnmatchedIsNotFound(production: bool)
    ensures var err := PlainError(ReasonPhrase(NotFoundStatus(OK)), "");
            && FinalStatus(err, NotFoundStatus(OK)) == NotFoundCode
            && EnvelopeOf(err, NotFoundCode, production) == Envelope("fail", Said("Not Found"), None)
  {
  }

  /** An error raised without a message is answered with its status's reason phrase. */
  lemma RaisedEnvelope(code: nat, production: bool)
    ensures EnvelopeOf(Raise(code), FinalStatus(Raise(code), OK), production).message == Said(ReasonPhrase(code))
  {
  }

  /** `validateRequestAsync`'s configuration: a schema per part, or none. */
  datatype Validators = Validators(params: Option<Shape>, body: Option<Shape>, query: Option<Shape>, headers: Option<Shape>)

  /** Each configured schema's keys are distinct. */
  predicate ValidatorsWellFormed(vs: Validators)
  {
    && (vs.params.Some? ==> NoDuplicateKeys(vs.params.value))
    && (vs.body.Some? ==> NoDuplicateKeys(vs.body.value))
    && (vs.query.Some? ==> NoDuplicateKeys(vs.query.value))
    && (vs.headers.Some? ==> NoDuplicateKeys(vs.headers.value))
  }

  /** One part: unchanged without a schema, else its parse (headers pass unknown keys through). */
  function Step(schema: Option<Shape>, v: Value, passthrough: bool): (r: Result<Value, seq<Issue>>)
    ensures schema.None? ==> r == Ok(v)
  {
    if schema.None? then Ok(v) else ParseObject(schema.value, v, passthrough)
  }

  /** The parts after validation, and the issues of the part that was refused, if one was. */
  datatype Checked = Checked(parts: Parts, failure: Option<seq<Issue>>)

  /** What `validateRequestAsync` does to the four parts, in its order. */
  function Validate(vs: Validators, p: Parts): (r: Checked)
    // a part without a schema is never modified
    ensures vs.params.None? ==> r.parts.params == p.params
    ensures vs.body.None? ==> r.parts.body == p.body
    ensures vs.query.None? ==> r.parts.query == p.query
    ensures vs.headers.None? ==> r.parts.headers == p.headers
    // a refused part stops the others: it and every later part keep their input
    ensures Step(vs.params, p.params, false).Err? ==>
              r == Checked(p, Some(Step(vs.params, p.params, false).error))
    ensures r.failure.Some? ==> r.parts.headers == p.headers
    // a part is replaced only by its own parse
    ensures r.parts.params != p.params ==> r.parts.params == Step(vs.params, p.params, false).value
    ensures r.parts.body != p.body ==> Step(vs.body, p.body, false).Ok? && r.parts.body == Step(vs.body, p.body, false).value
    ensures r.parts.query != p.query ==> Step(vs.query, p.query, false).Ok? && r.parts.query == Step(vs.query, p.query, false).value
    ensures r.parts.headers != p.headers ==> Step(vs.headers, p.headers, true).Ok? && r.parts.headers == Step(vs.headers, p.headers, true).value
  {
    match Step(vs.params, p.params, false)
    case Err(issues) => Checked(p, Some(issues))
    case Ok(params) =>
      var p1 := p.(params := params);
      match Step(vs.body, p1.body, false)
      case Err(issues) => Checked(p1, Some(issues))
      case Ok(body) =>
        var p2 := p1.(body := body);
        match Step(vs.query, p2.query, false)
        case Err(issues) => Checked(p2, Some(issues))
        case Ok(query) =>
          var p3 := p2.(query := query);
          match Step(vs.headers, p3.headers, true)
          case Err(issues) => Checked(p3, Some(issues))
          case Ok(headers) => Checked(p3.(headers := headers), None)
  }

  /** The four steps in the order they are taken. */
  function Steps(vs: Validators, p: Parts): seq<Result<Value, seq<Issue>>>
  {
    [Step(vs.params, p.params, false), Step(vs.body, p.body, false),
     Step(vs.query, p.query, false), Step(vs.headers, p.headers, true)]
  }

  /** The position of the first refused step, or the number of steps when none is refused. */
  function FirstRefused(steps: seq<Result<Value, seq<Issue>>>): (k: nat)
    ensures k <= |steps|
    ensures forall j :: 0 <= j < k ==> steps[j].Ok?
    ensures k < |steps| ==> steps[k].Err?
  {
    if steps == [] then 0
    else if steps[0].Err? then 0
    else 1 + FirstRefused(steps[1..])
  }

  function PartAt(p: Parts, k: nat): Value
    requires k < 4
  {
    match k
    case 0 => p.params
    case 1 => p.body
    case 2 => p.query
    case 3 => p.headers
  }

  /**
   * Validation as "first refusal wins": the failure is the first refused step's issues (none if
   * every step passes), each part before it holds its parse, and it and every later part keep
   * their input.
   */
  lemma {:induction false} ValidateIsFirstRefusal(vs: Validators, p: Parts)
    ensures var steps := Steps(vs, p);
            var k := FirstRefused(steps);
            var r := Validate(vs, p);
            && (r.failure.Some? <==> k < 4)
            && (k < 4 ==> r.failure.value == steps[k].error)
            && (forall j :: 0 <= j < 4 ==> PartAt(r.parts, j) == if j < k then steps[j].value else PartAt(p, j))
  {
    var steps := Steps(vs, p);
    var k := FirstRefused(steps);
    assert steps[1..][1..][1..][1..] == [];
    if steps[0].Ok? {
      assert FirstRefused(steps) == 1 + FirstRefused(steps[1..]);
      if steps[1].Ok? {
        assert FirstRefused(steps[1..]) == 1 + FirstRefused(steps[1..][1..]);
        if steps[2].Ok? {
          assert FirstRefused(steps[1..][1..]) == 1 + FirstRefused(steps[1..][1..][1..]);
        }
      }
    }
  }

  /** Once validation passes, every configured part holds its own parse. */
  lemma ValidatedPartsParsed(vs: Validators, p: Parts)
    requires Validate(vs, p).failure.None?
    ensures var q := Validate(vs, p).parts;
            && q.params == Step(vs.params, p.params, false).value
            && q.body == Step(vs.body, p.body, false).value
            && q.query == Step(vs.query, p.query, false).value
            && q.headers == Step(vs.headers, p.headers, true).value
  {
  }

  /** The parts conform to every configured schema. */
  predicate Conformant(vs: Validators, p: Parts)
  {
    && (vs.params.Some? ==> Conforms(vs.params.value, p.params))
    && (vs.body.Some? ==> Conforms(vs.body.value, p.body))
    && (vs.query.Some? ==> Conforms(vs.query.value, p.query))
    && (vs.headers.Some? ==> Conforms(vs.headers.value, p.headers))
  }

  /** What passes validation conforms to the schemas, which handlers can then rely on. */
  lemma {:induction false} ValidatedConform(vs: Validators, p: Parts)
    requires ValidatorsWellFormed(vs)
    requires Validate(vs, p).failure.None?
    ensures Conformant(vs, Validate(vs, p).parts)
  {
    ValidatedPartsParsed(vs, p);
    if vs.params.Some? { ParsedConforms(vs.params.value, p.params, false); }
    if vs.body.Some? { ParsedConforms(vs.body.value, p.body, false); }
    if vs.query.Some? { ParsedConforms(vs.query.value, p.query, false); }
    if vs.headers.Some? { ParsedConforms(vs.headers.value, p.headers, true); }
  }

  /**
   * `validateRequestAsync(vs)`: reassigns the parts one after the other and stops at the first
   * refusal, which sets the status to 422 and is forwarded.
   */
  method ValidateRequest(vs: Validators, req: Request, res: Response) returns (err: Option<Error>)
    modifies req, res
    ensures req.Snapshot() == Validate(vs, old(req.Snapshot())).parts && req.user == old(req.user)
    ensures res.sent == old(res.sent)
    ensures Validate(vs, old(req.Snapshot())).failure.None? ==> err.None? && res.statusCode == old(res.statusCode)
    ensures Validate(vs, old(req.Snapshot())).failure.Some? ==>
              && err == Some(ValidationError(Validate(vs, old(req.Snapshot())).failure.value, ""))
              && res.statusCode == UnprocessableEntityCode
  {
    var issues: Option<seq<Issue>> := None;
    if vs.params.Some? {
      match ParseObject(vs.params.value, req.params, false)
      case Err(e) => issues := Some(e);
      case Ok(v) => req.params := v;
    }
    if issues.None? && vs.body.Some? {
      match ParseObject(vs.body.value, req.body, false)
      case Err(e) => issues := Some(e);
      case Ok(v) => req.body := v;
    }
    if issues.None? && vs.query.Some? {
      match ParseObject(vs.query.value, req.query, false)
      case Err(e) => issues := Some(e);
      case Ok(v) => req.query := v;
    }
    if issues.None? && vs.headers.Some? {
      match ParseObject(vs.headers.value, req.headers, true)
      case Err(e) => issues := Some(e);
      case Ok(v) => req.headers := v;
    }
    if issues.Some? {
      res.statusCode := UnprocessableEntityCode;
      err := Some(ValidationError(issues.value, ""));
    } else {
      err := None;
    }
  }
}
