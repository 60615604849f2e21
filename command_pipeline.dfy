/**
 * The shared part of command execution that every command relies on: the mutable response
 * object, validation of required options (answered with status 400) and conversion of an
 * exception into a response (status 500). The base classes that implement these are not part
 * of this model; their behaviour is fixed here only as far as the command tests pin it down.
 */
module CommandPipeline {
  import opened Wrappers

  /** `t` occurs somewhere inside `s`. */
  predicate Contains(s: string, t: string)
    decreases |s|
  {
    t <= s || (|s| > 0 && Contains(s[1..], t))
  }

  /** Text in front of an occurrence does not remove it. */
  lemma {:induction false} ContainsAfterPrefix(p: string, s: string, t: string)
    requires Contains(s, t)
    ensures Contains(p + s, t)
  {
    if p != [] {
      ContainsAfterPrefix(p[1..], s, t);
      assert (p + s)[1..] == p[1..] + s;
    } else {
      assert p + s == s;
    }
  }

  /** Any infix occurs in the string it is part of. */
  lemma ContainsInfix(p: string, t: string, q: string)
    ensures Contains(p + t + q, t)
  {
    assert t <= t + q;
    ContainsAfterPrefix(p, t + q, t);
    assert p + (t + q) == p + t + q;
  }

  /** One parameter of a command's option schema. */
  datatype OptionSpec = OptionSpec(name: string, required: bool)

  /** The parsed command line: the value given for each option, by option name. */
  datatype ParseResult = ParseResult(values: map<string, string>)

  /** A required option is missing when it was not given or was given as the empty string. */
  predicate IsMissing(spec: OptionSpec, values: map<string, string>)
  {
    spec.required && (spec.name !in values || values[spec.name] == "")
  }

  /** The names of the missing required options, in schema order. */
  function MissingRequired(schema: seq<OptionSpec>, values: map<string, string>): (r: seq<string>)
    ensures |r| <= |schema|
    ensures forall n :: n in r <==> exists i :: 0 <= i < |schema| && schema[i].name == n && IsMissing(schema[i], values)
  {
    if schema == [] then []
    else
      var rest := MissingRequired(schema[1..], values);
      assert forall i :: 1 <= i < |schema| ==> schema[i] == schema[1..][i - 1];
      (if IsMissing(schema[0], values) then [schema[0].name] else []) + rest
  }

  /** `--a, --b, --c` for the names `a`, `b`, `c`. */
  function OptionList(names: seq<string>): (r: string)
    ensures forall n :: n in names ==> Contains(r, "--" + n)
  {
    if |names| == 0 then ""
    else
      var rest := OptionList(names[1..]);
      var head := "--" + names[0] + (if |names| == 1 then "" else ", ");
      ContainsInfix("", "--" + names[0], (if |names| == 1 then "" else ", ") + rest);
      assert "" + ("--" + names[0]) + ((if |names| == 1 then "" else ", ") + rest) == head + rest;
      forall n | n in names[1..] ensures Contains(head + rest, "--" + n) {
        ContainsAfterPrefix(head, rest, "--" + n);
      }
      assert forall n :: n in names ==> n == names[0] || n in names[1..];
      head + rest
  }

  /** The message a validation failure reports: it contains the word "required" and names every
      missing option. */
  function ValidationMessage(missing: seq<string>): (m: string)
    ensures Contains(m, "required")
    ensures forall n :: n in missing ==> Contains(m, "--" + n)
  {
    var list := OptionList(missing);
    ContainsInfix("Missing ", "required", " options: " + list);
    assert "Missing " + "required" + (" options: " + list) == "Missing required options: " + list;
    forall n | n in missing ensures Contains("Missing required options: " + list, "--" + n) {
      ContainsAfterPrefix("Missing required options: ", list, "--" + n);
    }
    "Missing required options: " + list
  }

  /** Outcome of validation: the missing required options, none when valid. */
  datatype ValidationResult = ValidationResult(missingOptions: seq<string>) {
    predicate IsValid() { missingOptions == [] }
  }

  /** Everything a response carries. */
  datatype ResponseState<R> = ResponseState(status: int, message: string, results: Option<R>)

  /** The response object a command fills in and returns. */
  class CommandResponse<R> {
    var status: int
    var message: string
    var results: Option<R>

    /** A fresh response reads as success with no message and no results until a stage changes it. */
    constructor ()
      ensures State() == ResponseState(200, "", None)
    {
      status, message, results := 200, "", None;
    }

    function State(): ResponseState<R>
      reads this
    {
      ResponseState(status, message, results)
    }
  }

  /** Checks the parsed options against the schema. On failure writes status 400 and the
      validation message into the response; on success leaves the response alone. */
  method Validate<R>(schema: seq<OptionSpec>, parse: ParseResult, response: CommandResponse<R>) returns (result: ValidationResult)
    modifies response
    ensures result.missingOptions == MissingRequired(schema, parse.values)
    ensures result.IsValid() ==> response.State() == old(response.State())
    ensures !result.IsValid() ==>
      response.State() == old(response.State()).(status := 400, message := ValidationMessage(result.missingOptions))
  {
    result := ValidationResult(MissingRequired(schema, parse.values));
    if !result.IsValid() {
      response.status := 400;
      response.message := ValidationMessage(result.missingOptions);
    }
  }

  /** Turns an exception raised by a collaborator into the response: status 500 and a message
      that begins with the exception's own text, followed by whatever `suffix` the handler adds. */
  method HandleException<R>(response: CommandResponse<R>, exceptionMessage: string, suffix: string)
    modifies response
    ensures response.State() == old(response.State()).(status := 500, message := exceptionMessage + suffix)
    ensures exceptionMessage <= response.message
  {
    response.status := 500;
    response.message := exceptionMessage + suffix;
  }
}
