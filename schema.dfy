/**
 * Object schemas as the validating library applies them: a shape lists the keys in order, each
 * with a rule; parsing an object checks every key, reports every violation (in shape order),
 * and builds the canonical object from the known keys only (unknown keys are dropped, or kept
 * when the schema passes them through).
 */
module Schema {
  import opened Wrappers
  import opened Json
  import opened HttpErrors
  import Formats

  /** A refinement on a string. */
  datatype Check = Email | Cuid | Length(n: nat) | Min(n: nat)

  /** What one key of an object schema accepts. */
  datatype Rule =
      /** `never().optional()`: the key must be absent. */
    | Never
      /** `string()` with its refinements, optional unless `required`. */
    | Text(required: bool, checks: seq<Check>)
      /** `enum(options)`, with `.default(d)` or `.optional()` when not `required`. */
    | OneOf(options: seq<string>, required: bool, default: Option<string>)

  type Shape = seq<(string, Rule)>

  function Keys(shape: Shape): set<string>
  {
    set i | 0 <= i < |shape| :: shape[i].0
  }

  predicate NoDuplicateKeys(shape: Shape)
  {
    forall i, j :: 0 <= i < j < |shape| ==> shape[i].0 != shape[j].0
  }

  function Lookup(fields: map<string, Value>, key: string): Option<Value>
  {
    if key in fields then Some(fields[key]) else None
  }

  /** The issues one refinement raises against `s`. */
  function CheckIssues(c: Check, s: string): seq<IssueCode>
  {
    match c
    case Email => if Formats.IsEmail(s) then [] else [InvalidString("email")]
    case Cuid => if Formats.IsCuid(s) then [] else [InvalidString("cuid")]
    case Length(n) =>
      if |s| > n then [TooBig(n, true)] else if |s| < n then [TooSmall(n, true)] else []
    case Min(n) => if |s| < n then [TooSmall(n, false)] else []
  }

  /** Every refinement runs, and their issues are reported in order. */
  function AllCheckIssues(checks: seq<Check>, s: string): (r: seq<IssueCode>)
    ensures r == [] <==> forall k :: 0 <= k < |checks| ==> CheckIssues(checks[k], s) == []
  {
    if checks == [] then []
    else CheckIssues(checks[0], s) + AllCheckIssues(checks[1..], s)
  }

  /**
   * One key: `found` is the input's value under the key (None when absent); the result is the
   * value to keep under the key in the output (None: leave the key out), or the issues.
   */
  function ParseField(rule: Rule, found: Option<Value>): (r: Result<Option<Value>, seq<IssueCode>>)
    ensures r.Err? ==> r.error != []
    ensures r.Ok? && r.value.Some? ==> r.value.value.Str?
    ensures rule.Never? ==> (r.Ok? <==> found.None?)
  {
    match rule
    case Never =>
      if found.None? then Ok(None) else Err([InvalidType])
    case Text(required, checks) =>
      if found.None? then (if required then Err([InvalidType]) else Ok(None))
      else if !found.value.Str? then Err([InvalidType])
      else
        var issues := AllCheckIssues(checks, found.value.s);
        if issues == [] then Ok(found) else Err(issues)
    case OneOf(options, required, default) =>
      var v := if found.None? && default.Some? then Some(Str(default.value)) else found;
      if v.None? then (if required then Err([InvalidType]) else Ok(None))
      else if !v.value.Str? then Err([InvalidType])
      else if v.value.s in options then Ok(v)
      else Err([InvalidEnumValue])
  }

  /** A key's parsed value parses again to itself. */
  lemma ParseFieldIdempotent(rule: Rule, found: Option<Value>)
    requires ParseField(rule, found).Ok?
    ensures ParseField(rule, ParseField(rule, found).value) == ParseField(rule, found)
  {
  }

  function IssuesAt(key: string, codes: seq<IssueCode>): (r: seq<Issue>)
    ensures |r| == |codes|
    ensures forall j :: 0 <= j < |r| ==> r[j] == Issue([key], codes[j])
  {
    seq(|codes|, j requires 0 <= j < |codes| => Issue([key], codes[j]))
  }

  datatype Parsed = Parsed(out: map<string, Value>, issues: seq<Issue>)

  /** Every key of the shape, in order: the kept values and all the issues. */
  function ParseKeys(shape: Shape, fields: map<string, Value>): Parsed
  {
    if shape == [] then Parsed(map[], [])
    else
      var rest := ParseKeys(shape[1..], fields);
      match ParseField(shape[0].1, Lookup(fields, shape[0].0))
      case Err(codes) => Parsed(rest.out, IssuesAt(shape[0].0, codes) + rest.issues)
      case Ok(None) => rest
      case Ok(Some(v)) => Parsed(rest.out[shape[0].0 := v], rest.issues)
  }

  /** The input's keys that the shape does not know. */
  function Unknown(shape: Shape, fields: map<string, Value>): map<string, Value>
  {
    map k | k in fields && k !in Keys(shape) :: fields[k]
  }

  function Restrict(fields: map<string, Value>, keys: set<string>): map<string, Value>
  {
    map k | k in fields && k in keys :: fields[k]
  }

  /**
   * `schema.parse(v)`: a non-object is one issue at the root; otherwise every key is checked
   * and the output holds the kept values (plus the unknown keys when passing through).
   */
  function ParseObject(shape: Shape, v: Value, passthrough: bool): (r: Result<Value, seq<Issue>>)
    ensures r.Err? ==> r.error != []
    ensures r.Ok? ==> v.Obj? && r.value.Obj?
    ensures !v.Obj? ==> r == Err([Issue([], InvalidType)])
  {
    if !v.Obj? then Err([Issue([], InvalidType)])
    else
      var p := ParseKeys(shape, v.fields);
      if p.issues != [] then Err(p.issues)
      else if passthrough then Ok(Obj(Unknown(shape, v.fields) + p.out))
      else Ok(Obj(p.out))
  }

  /** `v` is an object every key of which is its own parse: the form handlers may rely on. */
  predicate Conforms(shape: Shape, v: Value)
  {
    && v.Obj?
    && forall i :: 0 <= i < |shape| ==> ParseField(shape[i].1, Get(v, shape[i].0)) == Ok(Get(v, shape[i].0))
  }

  /** In a conforming object a required text key is present, a string, and passes its checks. */
  lemma RequiredTextConforms(shape: Shape, v: Value, i: nat)
    requires Conforms(shape, v)
    requires i < |shape| && shape[i].1.Text? && shape[i].1.required
    ensures shape[i].0 in v.fields && v.fields[shape[i].0].Str?
    ensures forall k :: 0 <= k < |shape[i].1.checks| ==> CheckIssues(shape[i].1.checks[k], v.fields[shape[i].0].s) == []
  {
    assert ParseField(shape[i].1, Get(v, shape[i].0)) == Ok(Get(v, shape[i].0));
  }

  lemma {:induction false} KeysOfTail(shape: Shape)
    requires shape != []
    ensures Keys(shape) == {shape[0].0} + Keys(shape[1..])
  {
    forall k | k in Keys(shape) ensures k in {shape[0].0} + Keys(shape[1..]) {
      var i :| 0 <= i < |shape| && shape[i].0 == k;
      if i > 0 { assert shape[1..][i - 1].0 == k; }
    }
    forall k | k in Keys(shape[1..]) ensures k in Keys(shape) {
      var i :| 0 <= i < |shape[1..]| && shape[1..][i].0 == k;
      assert shape[i + 1].0 == k;
    }
  }

  lemma {:induction false} HeadNotInTail(shape: Shape)
    requires shape != [] && NoDuplicateKeys(shape)
    ensures shape[0].0 !in Keys(shape[1..])
    ensures NoDuplicateKeys(shape[1..])
  {
  }

  /** Only keys of the shape reach the output. */
  lemma {:induction false} OutKeys(shape: Shape, fields: map<string, Value>)
    ensures ParseKeys(shape, fields).out.Keys <= Keys(shape)
  {
    if shape != [] {
      OutKeys(shape[1..], fields);
      KeysOfTail(shape);
    }
  }

  /** With no issues, each key's output is exactly what its rule made of the input. */
  lemma {:induction false} ParseKeysAt(shape: Shape, fields: map<string, Value>, i: nat)
    requires NoDuplicateKeys(shape) && i < |shape|
    requires ParseKeys(shape, fields).issues == []
    ensures ParseField(shape[i].1, Lookup(fields, shape[i].0)) == Ok(Lookup(ParseKeys(shape, fields).out, shape[i].0))
  {
    var rest := ParseKeys(shape[1..], fields);
    HeadNotInTail(shape);
    OutKeys(shape[1..], fields);
    if i == 0 {
      assert shape[0].0 !in rest.out;
    } else {
      ParseKeysAt(shape[1..], fields, i - 1);
      assert shape[1..][i - 1] == shape[i];
      assert shape[i].0 != shape[0].0;
    }
  }

  /** If no key is refused, there are no issues. */
  lemma {:induction false} ParseKeysClean(shape: Shape, fields: map<string, Value>)
    requires forall i :: 0 <= i < |shape| ==> ParseField(shape[i].1, Lookup(fields, shape[i].0)).Ok?
    ensures ParseKeys(shape, fields).issues == []
  {
    if shape != [] {
      forall i | 0 <= i < |shape[1..]|
        ensures ParseField(shape[1..][i].1, Lookup(fields, shape[1..][i].0)).Ok?
      {
        assert shape[1..][i] == shape[i + 1];
      }
      ParseKeysClean(shape[1..], fields);
    }
  }

  /** A refused key is reported, at its own path. */
  lemma {:induction false} FieldErrorReported(shape: Shape, fields: map<string, Value>, i: nat)
    requires i < |shape|
    requires ParseField(shape[i].1, Lookup(fields, shape[i].0)).Err?
    ensures Issue([shape[i].0], ParseField(shape[i].1, Lookup(fields, shape[i].0)).error[0])
              in ParseKeys(shape, fields).issues
  {
    if i > 0 {
      assert shape[1..][i - 1] == shape[i];
      FieldErrorReported(shape[1..], fields, i - 1);
    } else {
      var codes := ParseField(shape[0].1, Lookup(fields, shape[0].0)).error;
      assert IssuesAt(shape[0].0, codes)[0] == Issue([shape[0].0], codes[0]);
    }
  }

  /** When every key of the input is already its own parse, the output is the known keys. */
  lemma {:induction false} ParseKeysOfConforming(shape: Shape, fields: map<string, Value>)
    requires NoDuplicateKeys(shape)
    requires forall i :: 0 <= i < |shape| ==> ParseField(shape[i].1, Lookup(fields, shape[i].0)) == Ok(Lookup(fields, shape[i].0))
    ensures ParseKeys(shape, fields) == Parsed(Restrict(fields, Keys(shape)), [])
  {
    if shape == [] {
      assert Restrict(fields, Keys(shape)) == map[];
    } else {
      forall i | 0 <= i < |shape[1..]|
        ensures ParseField(shape[1..][i].1, Lookup(fields, shape[1..][i].0)) == Ok(Lookup(fields, shape[1..][i].0))
      {
        assert shape[1..][i] == shape[i + 1];
      }
      HeadNotInTail(shape);
      ParseKeysOfConforming(shape[1..], fields);
      KeysOfTail(shape);
      var key := shape[0].0;
      if key in fields {
        assert Restrict(fields, Keys(shape)) == Restrict(fields, Keys(shape[1..]))[key := fields[key]];
      } else {
        assert Restrict(fields, Keys(shape)) == Restrict(fields, Keys(shape[1..]));
      }
    }
  }

  /** Whatever a schema accepts, its output conforms to the schema. */
  lemma {:induction false} ParsedConforms(shape: Shape, v: Value, passthrough: bool)
    requires NoDuplicateKeys(shape)
    requires ParseObject(shape, v, passthrough).Ok?
    ensures Conforms(shape, ParseObject(shape, v, passthrough).value)
  {
    var o := ParseObject(shape, v, passthrough).value;
    var p := ParseKeys(shape, v.fields);
    OutKeys(shape, v.fields);
    forall i | 0 <= i < |shape|
      ensures ParseField(shape[i].1, Get(o, shape[i].0)) == Ok(Get(o, shape[i].0))
    {
      ParseKeysAt(shape, v.fields, i);
      assert shape[i].0 in Keys(shape);
      assert Get(o, shape[i].0) == Lookup(p.out, shape[i].0);
      ParseFieldIdempotent(shape[i].1, Lookup(v.fields, shape[i].0));
    }
  }

  /**
   * A conforming object parses to itself: with the keys stripped, when it has no unknown keys;
   * with them passed through, always.
   */
  lemma {:induction false} ConformingParsesToItself(shape: Shape, v: Value, passthrough: bool)
    requires NoDuplicateKeys(shape) && Conforms(shape, v)
    requires !passthrough ==> v.fields.Keys <= Keys(shape)
    ensures ParseObject(shape, v, passthrough) == Ok(v)
  {
    forall i | 0 <= i < |shape|
      ensures ParseField(shape[i].1, Lookup(v.fields, shape[i].0)) == Ok(Lookup(v.fields, shape[i].0))
    {
      assert Get(v, shape[i].0) == Lookup(v.fields, shape[i].0);
    }
    ParseKeysOfConforming(shape, v.fields);
    if passthrough {
      assert Unknown(shape, v.fields) + Restrict(v.fields, Keys(shape)) == v.fields;
    } else {
      assert Restrict(v.fields, Keys(shape)) == v.fields;
    }
  }

  /** Parsing is idempotent: an accepted value's output parses again to itself. */
  lemma {:induction false} ParseIdempotent(shape: Shape, v: Value, passthrough: bool)
    requires NoDuplicateKeys(shape)
    requires ParseObject(shape, v, passthrough).Ok?
    ensures ParseObject(shape, ParseObject(shape, v, passthrough).value, passthrough)
              == ParseObject(shape, v, passthrough)
  {
    ParsedConforms(shape, v, passthrough);
    OutKeys(shape, v.fields);
    ConformingParsesToItself(shape, ParseObject(shape, v, passthrough).value, passthrough);
  }

  /** An object is refused exactly when one of the shape's keys is refused, and every refused key is reported. */
  lemma {:induction false} RefusedIffSomeKeyRefused(shape: Shape, v: Value, passthrough: bool)
    requires v.Obj?
    ensures (ParseObject(shape, v, passthrough).Err?) <==>
            (exists i :: 0 <= i < |shape| && ParseField(shape[i].1, Get(v, shape[i].0)).Err?)
    ensures forall i :: 0 <= i < |shape| && ParseField(shape[i].1, Get(v, shape[i].0)).Err? ==>
              Issue([shape[i].0], ParseField(shape[i].1, Get(v, shape[i].0)).error[0])
                in ParseObject(shape, v, passthrough).error
  {
    forall i | 0 <= i < |shape| && ParseField(shape[i].1, Get(v, shape[i].0)).Err?
      ensures Issue([shape[i].0], ParseField(shape[i].1, Get(v, shape[i].0)).error[0]) in ParseKeys(shape, v.fields).issues
    {
      assert Get(v, shape[i].0) == Lookup(v.fields, shape[i].0);
      FieldErrorReported(shape, v.fields, i);
    }
    if exists i :: 0 <= i < |shape| && ParseField(shape[i].1, Get(v, shape[i].0)).Err? {
      var i :| 0 <= i < |shape| && ParseField(shape[i].1, Get(v, shape[i].0)).Err?;
      assert Get(v, shape[i].0) == Lookup(v.fields, shape[i].0);
      FieldErrorReported(shape, v.fields, i);
    } else {
      forall i | 0 <= i < |shape|
        ensures ParseField(shape[i].1, Lookup(v.fields, shape[i].0)).Ok?
      {
        assert Get(v, shape[i].0) == Lookup(v.fields, shape[i].0);
      }
      ParseKeysClean(shape, v.fields);
    }
  }

  /** A key the shape forbids is refused whenever it is present, and reported at its path. */
  lemma {:induction false} ForbiddenKeyRefused(shape: Shape, v: Value, passthrough: bool, i: nat)
    requires i < |shape| && shape[i].1 == Never
    requires v.Obj? && shape[i].0 in v.fields
    ensures ParseObject(shape, v, passthrough).Err?
    ensures Issue([shape[i].0], InvalidType) in ParseObject(shape, v, passthrough).error
  {
    FieldErrorReported(shape, v.fields, i);
  }
}
