/**
 * `ServiceListCommand` of the Azure AI Search area: its metadata and the control flow of
 * `ExecuteAsync` — bind, validate with an early return, call the search service, classify the
 * returned list, and catch any exception the service raises.
 */
module SearchServiceList {
  import opened Wrappers
  import opened CommandPipeline

  const CommandTitle: string := "List Azure AI Search Services"
  const CommandName: string := "list"

  /** What the command advertises: its `Name` and `Title` properties, and the title and flags of
      the tool attribute on `ExecuteAsync`. */
  datatype ToolMetadata = ToolMetadata(name: string, title: string, attributeTitle: string, destructive: bool, readOnly: bool)

  function Metadata(): (m: ToolMetadata)
  {
    ToolMetadata(CommandName, CommandTitle, CommandTitle, false, true)
  }

  /** The title property and the tool attribute's title agree; listing services changes nothing,
      so the tool is read-only and not destructive. */
  lemma MetadataIsReadOnlyTool()
    ensures Metadata().name == "list"
    ensures Metadata().title == "List Azure AI Search Services"
    ensures Metadata().attributeTitle == Metadata().title
    ensures !Metadata().destructive && Metadata().readOnly
  {
  }

  /** The options the command accepts: a subscription (required) and a tenant (optional). Retry
      settings are the options whose names begin with `retry-`. */
  const Schema: seq<OptionSpec> := [OptionSpec("subscription", true), OptionSpec("tenant", false)]

  /** The retry settings given on the command line, by option name. */
  datatype RetryPolicy = RetryPolicy(settings: map<string, string>)

  /** The bound options of the command. */
  datatype ServiceListOptions = ServiceListOptions(subscription: Option<string>, tenant: Option<string>, retryPolicy: RetryPolicy)

  predicate IsRetryOption(name: string)
  {
    "retry-" <= name
  }

  /** Names the command binds: its own options and the retry settings. */
  predicate IsBoundOption(name: string)
  {
    name == "subscription" || name == "tenant" || IsRetryOption(name)
  }

  /** Binds the parsed values onto the command's options. The base class that binds is not part
      of this model; this is the projection of the parsed values onto the options. */
  function BindOptions(parse: ParseResult): (o: ServiceListOptions)
  {
    ServiceListOptions(
      Get(parse.values, "subscription"),
      Get(parse.values, "tenant"),
      RetryPolicy(map k | k in parse.values && IsRetryOption(k) :: parse.values[k]))
  }

  /** Unknown option names are ignored: two parses that agree on every bound name bind to the
      same options. */
  lemma BindIgnoresUnknownOptions(p: ParseResult, q: ParseResult)
    requires forall k :: IsBoundOption(k) ==> Get(p.values, k) == Get(q.values, k)
    ensures BindOptions(p) == BindOptions(q)
  {
    var a := BindOptions(p).retryPolicy.settings;
    var b := BindOptions(q).retryPolicy.settings;
    forall k | IsRetryOption(k)
      ensures (k in p.values <==> k in q.values) && (k in p.values ==> p.values[k] == q.values[k])
    {
      assert IsBoundOption(k) && Get(p.values, k) == Get(q.values, k);
    }
    assert a == b;
    assert Get(p.values, "subscription") == Get(q.values, "subscription") by { assert IsBoundOption("subscription"); }
    assert Get(p.values, "tenant") == Get(q.values, "tenant") by { assert IsBoundOption("tenant"); }
  }

  /** Nor do unknown names change anything else: two parses that agree on every bound name give
      the same validation, the same calls and the same response. */
  lemma ExecutionIgnoresUnknownOptions(p: ParseResult, q: ParseResult, reply: ListReply,
                                       before: ResponseState<ServiceListCommandResult>, suffix: string)
    requires forall k :: IsBoundOption(k) ==> Get(p.values, k) == Get(q.values, k)
    ensures Expected(p, reply, before, suffix) == Expected(q, reply, before, suffix)
  {
    BindIgnoresUnknownOptions(p, q);
    assert Get(p.values, "subscription") == Get(q.values, "subscription") by { assert IsBoundOption("subscription"); }
    assert Get(p.values, "tenant") == Get(q.values, "tenant") by { assert IsBoundOption("tenant"); }
    assert MissingRequired(Schema, p.values) == MissingRequired(Schema, q.values) by {
      assert IsMissing(Schema[0], p.values) == IsMissing(Schema[0], q.values);
      assert MissingRequired(Schema[2..], p.values) == [];
      assert MissingRequired(Schema[2..], q.values) == [];
    }
  }

  /** What `ListServices` is called with. */
  datatype ListRequest = ListRequest(subscription: string, tenant: Option<string>, retryPolicy: RetryPolicy)

  /** What the search service does when called: return a list (possibly null), or throw. */
  datatype ListReply = Listed(services: Option<seq<string>>) | Threw(message: string)

  /** The payload of a successful listing. */
  datatype ServiceListCommandResult = ServiceListCommandResult(services: seq<string>)

  /** The search-service collaborator as an oracle: `reply` is what it answers, and `requests`
      records every call made to it, so `|requests|` counts the calls. */
  class SearchService {
    var reply: ListReply
    var requests: seq<ListRequest>

    constructor (reply: ListReply)
      ensures this.reply == reply && requests == []
    {
      this.reply := reply;
      requests := [];
    }

    method ListServices(subscription: string, tenant: Option<string>, retryPolicy: RetryPolicy) returns (outcome: ListReply)
      modifies this`requests
      ensures requests == old(requests) + [ListRequest(subscription, tenant, retryPolicy)]
      ensures outcome == reply
    {
      requests := requests + [ListRequest(subscription, tenant, retryPolicy)];
      outcome := reply;
    }
  }

  /** The context a command runs in: the response it fills in and the services it can reach. */
  class CommandContext {
    const response: CommandResponse<ServiceListCommandResult>
    const service: SearchService

    constructor (response: CommandResponse<ServiceListCommandResult>, service: SearchService)
      ensures this.response == response && this.service == service
    {
      this.response := response;
      this.service := service;
    }
  }

  /** The results a returned list produces: none for a null or empty list, otherwise the same
      list, in the same order. */
  function ResultsFor(services: Option<seq<string>>): (r: Option<ServiceListCommandResult>)
    ensures r.None? <==> services.None? || |services.value| == 0
    ensures r.Some? ==> r.value.services == services.value
  {
    // `services?.Count > 0`: a null list compares as false
    if services.Some? && |services.value| > 0 then Some(ServiceListCommandResult(services.value)) else None
  }

  /** After a successful validation the required subscription was given and is not empty. */
  lemma ValidatedSubscription(values: map<string, string>)
    requires MissingRequired(Schema, values) == []
    ensures "subscription" in values && values["subscription"] != ""
  {
  }

  /** The whole effect of one `ExecuteAsync`: the response it leaves and the calls it makes. */
  datatype Execution = Execution(response: ResponseState<ServiceListCommandResult>, calls: seq<ListRequest>)

  /** Specification of `ExecuteAsync` for a given parse, service reply, response state on entry
      and exception-message suffix. */
  function Expected(parse: ParseResult, reply: ListReply, before: ResponseState<ServiceListCommandResult>, suffix: string): (r: Execution)
    // validation fails exactly when the service is not called, and then the answer is a 400
    // whose message says "required"
    ensures MissingRequired(Schema, parse.values) != [] <==> r.calls == []
    ensures MissingRequired(Schema, parse.values) != [] ==>
      r.response.status == 400 && Contains(r.response.message, "required") && r.response.results == before.results
    // at most one call, and it receives exactly the bound options
    ensures |r.calls| <= 1
    ensures |r.calls| == 1 ==>
      Some(r.calls[0].subscription) == BindOptions(parse).subscription &&
      r.calls[0].tenant == BindOptions(parse).tenant &&
      r.calls[0].retryPolicy == BindOptions(parse).retryPolicy
    // a returned list sets only the results
    ensures |r.calls| == 1 && reply.Listed? ==>
      r.response.status == before.status && r.response.message == before.message &&
      (r.response.results.None? <==> reply.services.None? || reply.services.value == []) &&
      (r.response.results.Some? ==> r.response.results.value.services == reply.services.value)
    // an exception is caught: 500, and the message begins with the exception's text
    ensures |r.calls| == 1 && reply.Threw? ==>
      r.response.status == 500 && reply.message <= r.response.message && r.response.results == before.results
  {
    var missing := MissingRequired(Schema, parse.values);
    if missing != [] then
      Execution(before.(status := 400, message := ValidationMessage(missing)), [])
    else
      ValidatedSubscription(parse.values);
      var options := BindOptions(parse);
      var call := ListRequest(options.subscription.value, options.tenant, options.retryPolicy);
      match reply
      case Listed(services) => Execution(before.(results := ResultsFor(services)), [call])
      case Threw(message) => Execution(before.(status := 500, message := message + suffix), [call])
  }

  /** `ExecuteAsync`: fills in `context.response` and returns it. An exception of the search
      service is handled inside and still yields the response; binding, validation and result
      wrapping cannot fail in this model. `suffix` is the text the exception handler appends
      after the exception's message. */
  method ExecuteAsync(context: CommandContext, parse: ParseResult, suffix: string) returns (response: CommandResponse<ServiceListCommandResult>)
    modifies context.response, context.service`requests
    ensures response == context.response
    ensures var e := Expected(parse, old(context.service.reply), old(context.response.State()), suffix);
            response.State() == e.response && context.service.requests == old(context.service.requests) + e.calls
  {
    var options := BindOptions(parse);
    var validation := Validate(Schema, parse, context.response);
    if !validation.IsValid() {
      return context.response;
    }
    ValidatedSubscription(parse.values);
    var outcome := context.service.ListServices(options.subscription.value, options.tenant, options.retryPolicy);
    match outcome {
      case Listed(services) =>
        context.response.results := ResultsFor(services);
      case Threw(message) =>
        HandleException(context.response, message, suffix);
    }
    response := context.response;
  }

  /** Whether the service is called, and with what, is decided before the service answers:
      it depends on the parsed input alone. When validation fails, the response does not depend
      on the service either. */
  lemma CallsDecidedBeforeService(parse: ParseResult, reply1: ListReply, reply2: ListReply,
                                  before: ResponseState<ServiceListCommandResult>, suffix: string)
    ensures Expected(parse, reply1, before, suffix).calls == Expected(parse, reply2, before, suffix).calls
    ensures MissingRequired(Schema, parse.values) != [] ==>
      Expected(parse, reply1, before, suffix) == Expected(parse, reply2, before, suffix)
  {
  }

  /** A subscription that is absent or given as the empty string is a validation failure: status
      400, a message that says "required" and names `--subscription`, and no call to the service. */
  lemma MissingSubscriptionIsRejected(parse: ParseResult, reply: ListReply,
                                      before: ResponseState<ServiceListCommandResult>, suffix: string)
    requires "subscription" !in parse.values || parse.values["subscription"] == ""
    ensures var e := Expected(parse, reply, before, suffix);
            e.calls == [] && e.response.status == 400 &&
            Contains(e.response.message, "required") && Contains(e.response.message, "--subscription")
  {
    var missing := MissingRequired(Schema, parse.values);
    assert Schema[0].name == "subscription" && IsMissing(Schema[0], parse.values);
    assert "subscription" in missing;
    var m := ValidationMessage(missing);
    assert Contains(m, "--" + "subscription");
    assert "--" + "subscription" == "--subscription";
    assert Expected(parse, reply, before, suffix) == Execution(before.(status := 400, message := m), []);
  }
}
