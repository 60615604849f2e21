# Azure MCP server: start-up composition and the service-list command pipeline

This project models two pieces of decision logic of the Azure MCP server and proves their
properties in Dafny.

1. **Start-up composition** (`AddAzureMcpServer`, module `ServerStartup`). Given the start
   options (a proxy mode, an optional namespace array and an optional read-only flag), start-up
   decides:
   - the effective tool-loader options;
   - which tool loader serves `IToolLoader`, as a single loader or a composite whose children
     are listed in order;
   - which discovery strategy serves `IMcpDiscoveryStrategy`;
   - the server name, version and protocol version announced to clients.

   All of this is a pure function of the start options and of the entry assembly's optional
   title and version.
2. **Command execution** (`ServiceListCommand.ExecuteAsync`, modules `CommandPipeline` and
   `SearchServiceList`). ExecuteAsync binds the options, then validates them and returns early on
   failure. It then calls the search service and classifies the returned list. Any exception from
   the search service is caught and turned into the response.
   - The response is a class whose fields the stages update in place.
   - The search service is an oracle object: it holds the reply it will give and a log of every
     request. The length of that log counts the calls.
   - The pure function `Expected` states the whole effect of one execution. The method
     `ExecuteAsync` is proved to produce exactly that effect.

Files: `wrappers.dfy` (Option), `server_startup.dfy`, `command_pipeline.dfy`, `service_list.dfy`.

Two details of the code that the model keeps:
- The code appends the command-factory loader in NamespaceProxy mode whenever the effective
  namespace equals `["extension"]`. This includes a namespace configured explicitly as
  `["extension"]`, and not only the defaulted one.
- In All mode the discovery strategy is the registry strategy alone, not a composite.

## Model

| member | source | states |
|---|---|---|
| ServerStartup.SequenceEqual | core/src/AzureMcp.Core/Areas/Server/Commands/ServiceCollectionExtensions.cs:118 | the element-wise comparison is true exactly when the two namespace sequences are equal |
| ServerStartup.DefaultToolLoaderOptions | core/src/AzureMcp.Core/Areas/Server/Commands/ServiceCollectionExtensions.cs:42-54 | read-only is the given flag, or false when absent; in NamespaceProxy mode a null or empty namespace becomes exactly `["extension"]` and a non-empty one is kept; in other modes the namespace passes through verbatim; a NamespaceProxy namespace is never null or empty afterwards |
| ServerStartup.SelectDiscoveryStrategy | core/src/AzureMcp.Core/Areas/Server/Commands/ServiceCollectionExtensions.cs:87-128 | SingleToolProxy and NamespaceProxy get the composite `[Registry, CommandGroup]` in that order; All gets the registry strategy; an unrecognized mode registers none, and only an unrecognized mode does |
| ServerStartup.SelectToolLoader | core/src/AzureMcp.Core/Areas/Server/Commands/ServiceCollectionExtensions.cs:103-140 | SingleToolProxy selects the single-proxy loader; NamespaceProxy selects a composite that starts with the server loader and has the command-factory loader as second and last child if and only if the namespace is `["extension"]`; All selects the composite `[Registry, CommandFactory]`; an unrecognized mode selects none, and only it does |
| ServerStartup.ServerOptions | core/src/AzureMcp.Core/Areas/Server/Commands/ServiceCollectionExtensions.cs:147-156 | protocol version is always "2024-11-05"; name is the assembly title or "Azure MCP Server"; version is the assembly version or "1.0.0-beta" |
| ServerStartup.AddAzureMcpServer | core/src/AzureMcp.Core/Areas/Server/Commands/ServiceCollectionExtensions.cs:35-156 | a tool loader is registered exactly when a discovery strategy is, and exactly for the three known modes; read-only is true only when it was given as true; in NamespaceProxy mode the composite is `[Server, CommandFactory]` exactly when the configured namespace is null, empty or `["extension"]`, and `[Server]` otherwise |
| ServerStartup.NamespaceProxyDefaultsToExtension | core/src/AzureMcp.Core/Areas/Server/Commands/ServiceCollectionExtensions.cs:48-54 | NamespaceProxy with a null or empty namespace composes exactly as NamespaceProxy started with `["extension"]` |
| ServerStartup.NamespaceIrrelevantOutsideNamespaceProxy | core/src/AzureMcp.Core/Areas/Server/Commands/ServiceCollectionExtensions.cs:44-48 | outside NamespaceProxy mode the namespace never changes the loader or discovery choice, and the effective namespace is the configured one |
| ServerStartup.ReadOnlyDoesNotChangeComposition | core/src/AzureMcp.Core/Areas/Server/Commands/ServiceCollectionExtensions.cs:42-140 | the read-only flag never changes the chosen loader, discovery strategy or effective namespace |
| ServerStartup.DefaultToolLoaderOptionsIdempotent | core/src/AzureMcp.Core/Areas/Server/Commands/ServiceCollectionExtensions.cs:42-54 | deriving the loader options again from the effective options yields the same options |
| ServerStartup.CompositionsHaveDistinctChildren | core/src/AzureMcp.Core/Areas/Server/Commands/ServiceCollectionExtensions.cs:91-136 | no composite loader or composite discovery strategy built at start-up lists the same child twice |
| CommandPipeline.MissingRequired | areas/keyvault/tests/AzureMcp.KeyVault.UnitTests/Key/KeyGetCommandTests.cs:99-115 | an option name is reported missing exactly when the schema marks it required and it was not given or was given as the empty string |
| CommandPipeline.ValidationMessage | areas/keyvault/tests/AzureMcp.KeyVault.UnitTests/Key/KeyGetCommandTests.cs:111-114 | the validation message contains "required" and names every missing option as `--name` |
| CommandPipeline.Validate | areas/search/src/AzureMcp.Search/Commands/Service/ServiceListCommand.cs:36-39 | the result is valid exactly when no required option is missing; on failure the response gets status 400 and the validation message, results untouched; on success the response is unchanged |
| CommandPipeline.HandleException | areas/search/src/AzureMcp.Search/Commands/Service/ServiceListCommand.cs:55-59 | the response gets status 500 and a message that starts with the exception's text |
| SearchServiceList.MetadataIsReadOnlyTool | areas/search/src/AzureMcp.Search/Commands/Service/ServiceListCommand.cs:14-29 | the tool is named "list", titled "List Azure AI Search Services", the title property and the tool attribute's title agree, and the tool is not destructive and read-only |
| SearchServiceList.BindIgnoresUnknownOptions | areas/search/src/AzureMcp.Search/Commands/Service/ServiceListCommand.cs:32 | option names the command does not bind are ignored: two parses that agree on subscription, tenant and every `retry-` option bind to the same options |
| SearchServiceList.ExecutionIgnoresUnknownOptions | areas/search/src/AzureMcp.Search/Commands/Service/ServiceListCommand.cs:32-53 | two parses that agree on every bound option give the same validation outcome, the same service call and the same response |
| SearchServiceList.SearchService.ListServices | areas/search/src/AzureMcp.Search/Commands/Service/ServiceListCommand.cs:45-48 | each call is recorded with exactly its subscription, tenant and retry policy, and answers the oracle's reply |
| SearchServiceList.ResultsFor | areas/search/src/AzureMcp.Search/Commands/Service/ServiceListCommand.cs:50-53 | results are absent exactly when the list is null or empty; otherwise they wrap the same list, order and contents unchanged |
| SearchServiceList.ValidatedSubscription | areas/search/src/AzureMcp.Search/Commands/Service/ServiceListCommand.cs:36-48 | after validation succeeds the subscription is present and non-empty, so the non-null assertion on it holds |
| SearchServiceList.Expected | areas/search/src/AzureMcp.Search/Commands/Service/ServiceListCommand.cs:30-62 | validation fails exactly when the service is not called, and then the answer is 400 with "required"; at most one call, carrying exactly the bound options; a returned list sets only the results (absent for null or empty); an exception gives 500 with a message starting with its text |
| SearchServiceList.ExecuteAsync | areas/search/src/AzureMcp.Search/Commands/Service/ServiceListCommand.cs:30-62 | returns the context's own response object, whose new state is `Expected`'s response, and the service's request log grows by exactly `Expected`'s calls |
| SearchServiceList.CallsDecidedBeforeService | areas/search/src/AzureMcp.Search/Commands/Service/ServiceListCommand.cs:32-48 | whether and how the service is called depends only on the parsed input; on a validation failure the whole outcome does not depend on the service |
| SearchServiceList.MissingSubscriptionIsRejected | areas/keyvault/tests/AzureMcp.KeyVault.UnitTests/Key/KeyGetCommandTests.cs:98-115 | an absent or empty subscription gives status 400, a message with "required" and "--subscription", and no service call |

## Left out

- The dependency-injection container is reduced to the value it is configured to produce. This
  covers `AddSingleton`, `GetRequiredService`, lazy factory lambdas and `IOptions` wrapping.
- `AddMcpServer`, `WithStdioServerTransport` and the wiring of the runtime's handlers into the
  server capabilities are left out. They are transport and protocol plumbing.
- The server name and version are read from the entry assembly by reflection. The model takes
  the assembly title and version as optional inputs.
- Logging and the telemetry subscription tag are left out. They are side effects that do not
  change the result.
- The loader and discovery classes (composite, registry, server, single-proxy, command-factory,
  command-group) are not part of this model. Only the choice among them and the order of the
  children are modelled.
- The proxy mode is a string in the program. The model gives it a closed datatype, with
  `Unrecognized` standing for null and for every other string.
- CommandPipeline.Validate: the base class's validator is not part of this model. The model fixes
  the message wording "Missing required options: --a, --b". The tests pin only the status and
  the word "required". Parse errors other than missing options are not modelled, and neither is
  a subscription taken from the environment.
- CommandPipeline.HandleException: the model does not write exception details into the results,
  and it always uses status 500. The base class may do both differently; the tests pin only
  status 500 for a plain exception and the message prefix. The text appended after the exception
  message is a parameter.
- SearchServiceList.BindOptions: the base class's binding is not part of this model. Binding is
  the projection of the parsed values onto the options, with no contract of its own beyond
  ignoring unknown names. The retry policy is the map of given `retry-` options, with no
  conversion to numbers.
- SearchServiceList.ExecuteAsync: only the search service's call can throw in this model.
  - Binding is total here. In the source it runs before the `try`, so an exception there
    would propagate out of `ExecuteAsync` with no response.
  - Validation never throws here. In the source an exception from it is handled inside the
    `try` like a service exception.
  - Wrapping the list into the results never throws here. In the source that step is inside
    the `try` as well.
- CommandPipeline.CommandResponse.constructor: a new response is assumed to start with status 200,
  an empty message and no results.
- The model does not throw exceptions from `GetService`. In the source that lookup is inside the `try`.
- Asynchrony and cancellation are left out. The service call is one synchronous step.
- JSON serialization of the results is left out. Results are the list itself.
- The Key Vault service is left out because it consists of thin wrappers over the Key Vault SDK
  clients. The Service Bus and AzureIsv live tests are left out because they run against real
  cloud resources. The user-assigned identity record is left out because it has no behaviour.
