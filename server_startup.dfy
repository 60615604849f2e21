/**
 * Start-up composition of the Azure MCP server (`AddAzureMcpServer`).
 *
 * The registration code fills a dependency-injection container; what it decides is captured here
 * as a value: the effective tool-loader options, the tool loader chosen as the service behind
 * `IToolLoader` (a tagged composition of loader variants, children in order), the strategy chosen
 * behind `IMcpDiscoveryStrategy`, and the server information announced to clients.
 */
module ServerStartup {
  import opened Wrappers

  /** The proxy mode read from the start options. The mode is a string in the program; every
      value other than the three known ones (null included) is `Unrecognized`. */
  datatype Mode = All | SingleToolProxy | NamespaceProxy | Unrecognized

  /** The already-parsed start options: mode, optional namespace array, optional read-only flag. */
  datatype ServiceStartOptions = ServiceStartOptions(mode: Mode, namespace: Option<seq<string>>, readOnly: Option<bool>)

  /** The options every tool loader is given. */
  datatype ToolLoaderOptions = ToolLoaderOptions(namespace: Option<seq<string>>, readOnly: bool)

  /** The concrete tool-loader classes a composition can be built from. */
  datatype LoaderKind = CommandFactoryToolLoader | RegistryToolLoader | SingleProxyToolLoader | ServerToolLoader

  /** The service registered as `IToolLoader`: one loader, or a composite over loaders in order. */
  datatype ToolLoader = Loader(kind: LoaderKind) | CompositeToolLoader(loaders: seq<LoaderKind>)

  /** The concrete discovery-strategy classes a composition can be built from. */
  datatype DiscoveryKind = RegistryDiscoveryStrategy | CommandGroupDiscoveryStrategy

  /** The service registered as `IMcpDiscoveryStrategy`: one strategy, or a composite in order. */
  datatype DiscoveryStrategy = Strategy(kind: DiscoveryKind) | CompositeDiscoveryStrategy(strategies: seq<DiscoveryKind>)

  /** Name and version the server announces. */
  datatype Implementation = Implementation(name: string, version: string)

  datatype McpServerOptions = McpServerOptions(protocolVersion: string, serverInfo: Implementation)

  /** Everything `AddAzureMcpServer` decides. `None` stands for "no service registered". */
  datatype ServerComposition = ServerComposition(
    loaderOptions: ToolLoaderOptions,
    toolLoader: Option<ToolLoader>,
    discovery: Option<DiscoveryStrategy>,
    server: McpServerOptions)

  const DefaultServerName: string := "Azure MCP Server"
  const DefaultServerVersion: string := "1.0.0-beta"
  const McpProtocolVersion: string := "2024-11-05"

  /** The namespace that NamespaceProxy mode falls back to. */
  const ExtensionNamespace: seq<string> := ["extension"]

  /** Element-wise comparison of two string sequences, in the manner of LINQ's `SequenceEqual`. */
  function SequenceEqual(a: seq<string>, b: seq<string>): (r: bool)
    ensures r <==> a == b
  {
    if |a| == 0 || |b| == 0 then |a| == |b|
    else a[0] == b[0] && SequenceEqual(a[1..], b[1..])
  }

  /** True when a nullable array is null or has length zero. */
  predicate NullOrEmpty(ns: Option<seq<string>>)
  {
    ns.None? || |ns.value| == 0
  }

  /** The tool-loader options derived from the start options: read-only defaults to false, and in
      NamespaceProxy mode a null or empty namespace is replaced by `["extension"]`. */
  function DefaultToolLoaderOptions(o: ServiceStartOptions): (r: ToolLoaderOptions)
    ensures o.readOnly.Some? ==> r.readOnly == o.readOnly.value
    ensures o.readOnly.None? ==> !r.readOnly
    ensures o.mode != NamespaceProxy ==> r.namespace == o.namespace
    ensures o.mode == NamespaceProxy && NullOrEmpty(o.namespace) ==> r.namespace == Some(["extension"])
    ensures o.mode == NamespaceProxy && !NullOrEmpty(o.namespace) ==> r.namespace == o.namespace
    ensures o.mode == NamespaceProxy ==> !NullOrEmpty(r.namespace)
  {
    var initial := ToolLoaderOptions(o.namespace, o.readOnly.GetOr(false));
    if o.mode == NamespaceProxy && NullOrEmpty(initial.namespace) then
      initial.(namespace := Some(ExtensionNamespace))
    else
      initial
  }

  /** The discovery strategy registered for a mode. */
  function SelectDiscoveryStrategy(mode: Mode): (r: Option<DiscoveryStrategy>)
    ensures mode == SingleToolProxy || mode == NamespaceProxy ==>
      r == Some(CompositeDiscoveryStrategy([RegistryDiscoveryStrategy, CommandGroupDiscoveryStrategy]))
    ensures mode == All ==> r == Some(Strategy(RegistryDiscoveryStrategy))
    ensures r.None? <==> mode.Unrecognized?
  {
    if mode == SingleToolProxy || mode == NamespaceProxy then
      Some(CompositeDiscoveryStrategy([RegistryDiscoveryStrategy, CommandGroupDiscoveryStrategy]))
    else if mode == All then
      Some(Strategy(RegistryDiscoveryStrategy))
    else
      None
  }

  /** The tool loader registered for a mode, given the effective tool-loader options. Only one
      branch of the if/else-if chain applies; an unrecognized mode registers no loader. */
  function SelectToolLoader(mode: Mode, options: ToolLoaderOptions): (r: Option<ToolLoader>)
    ensures mode == SingleToolProxy ==> r == Some(Loader(SingleProxyToolLoader))
    ensures mode == NamespaceProxy ==>
      r.Some? && r.value.CompositeToolLoader? && 1 <= |r.value.loaders| <= 2 &&
      r.value.loaders[0] == ServerToolLoader &&
      (|r.value.loaders| == 2 <==> options.namespace == Some(["extension"])) &&
      (|r.value.loaders| == 2 ==> r.value.loaders[1] == CommandFactoryToolLoader)
    ensures mode == All ==> r == Some(CompositeToolLoader([RegistryToolLoader, CommandFactoryToolLoader]))
    ensures r.None? <==> mode.Unrecognized?
  {
    if mode == SingleToolProxy then
      Some(Loader(SingleProxyToolLoader))
    else if mode == NamespaceProxy then
      // `Namespace?.SequenceEqual(["extension"]) == true`: a null namespace compares as false
      var appendFactory := options.namespace.Some? && SequenceEqual(options.namespace.value, ExtensionNamespace);
      Some(CompositeToolLoader(if appendFactory then [ServerToolLoader, CommandFactoryToolLoader] else [ServerToolLoader]))
    else if mode == All then
      Some(CompositeToolLoader([RegistryToolLoader, CommandFactoryToolLoader]))
    else
      None
  }

  /** Server options: the entry assembly's title and version when present, fixed fallbacks
      otherwise, and a fixed protocol version. */
  function ServerOptions(assemblyTitle: Option<string>, assemblyVersion: Option<string>): (r: McpServerOptions)
    ensures r.protocolVersion == "2024-11-05"
    ensures assemblyTitle.Some? ==> r.serverInfo.name == assemblyTitle.value
    ensures assemblyTitle.None? ==> r.serverInfo.name == "Azure MCP Server"
    ensures assemblyVersion.Some? ==> r.serverInfo.version == assemblyVersion.value
    ensures assemblyVersion.None? ==> r.serverInfo.version == "1.0.0-beta"
  {
    McpServerOptions(
      McpProtocolVersion,
      Implementation(assemblyTitle.GetOr(DefaultServerName), assemblyVersion.GetOr(DefaultServerVersion)))
  }

  /** The whole start-up decision of `AddAzureMcpServer`. */
  function AddAzureMcpServer(o: ServiceStartOptions, assemblyTitle: Option<string>, assemblyVersion: Option<string>): (r: ServerComposition)
    ensures r.loaderOptions.readOnly == (o.readOnly == Some(true))
    ensures r.toolLoader.Some? <==> r.discovery.Some?
    ensures r.toolLoader.None? <==> o.mode.Unrecognized?
    ensures o.mode == NamespaceProxy ==>
      r.toolLoader == Some(CompositeToolLoader([ServerToolLoader, CommandFactoryToolLoader])) ||
      r.toolLoader == Some(CompositeToolLoader([ServerToolLoader]))
    ensures o.mode == NamespaceProxy ==>
      (r.toolLoader == Some(CompositeToolLoader([ServerToolLoader, CommandFactoryToolLoader])) <==>
       NullOrEmpty(o.namespace) || o.namespace == Some(["extension"]))
    ensures r.server.protocolVersion == "2024-11-05"
  {
    var options := DefaultToolLoaderOptions(o);
    ServerComposition(
      options,
      SelectToolLoader(o.mode, options),
      SelectDiscoveryStrategy(o.mode),
      ServerOptions(assemblyTitle, assemblyVersion))
  }

  /** NamespaceProxy mode with no namespace, or an empty one, composes exactly as if it had been
      started with `["extension"]`. */
  lemma NamespaceProxyDefaultsToExtension(ns: Option<seq<string>>, readOnly: Option<bool>,
                                          title: Option<string>, version: Option<string>)
    requires NullOrEmpty(ns)
    ensures AddAzureMcpServer(ServiceStartOptions(NamespaceProxy, ns, readOnly), title, version)
         == AddAzureMcpServer(ServiceStartOptions(NamespaceProxy, Some(ExtensionNamespace), readOnly), title, version)
  {
  }

  /** Outside NamespaceProxy mode the namespace never changes the chosen loader or strategy,
      and the effective namespace is the configured one, null and empty included. */
  lemma NamespaceIrrelevantOutsideNamespaceProxy(a: ServiceStartOptions, b: ServiceStartOptions,
                                                 title: Option<string>, version: Option<string>)
    requires a.mode == b.mode && a.mode != NamespaceProxy
    ensures AddAzureMcpServer(a, title, version).toolLoader == AddAzureMcpServer(b, title, version).toolLoader
    ensures AddAzureMcpServer(a, title, version).discovery == AddAzureMcpServer(b, title, version).discovery
    ensures AddAzureMcpServer(a, title, version).loaderOptions.namespace == a.namespace
  {
  }

  /** The read-only flag only reaches the loader options: it never changes which loader or
      discovery strategy is composed. */
  lemma ReadOnlyDoesNotChangeComposition(a: ServiceStartOptions, b: ServiceStartOptions,
                                         title: Option<string>, version: Option<string>)
    requires a.mode == b.mode && a.namespace == b.namespace
    ensures AddAzureMcpServer(a, title, version).toolLoader == AddAzureMcpServer(b, title, version).toolLoader
    ensures AddAzureMcpServer(a, title, version).discovery == AddAzureMcpServer(b, title, version).discovery
    ensures AddAzureMcpServer(a, title, version).loaderOptions.namespace
         == AddAzureMcpServer(b, title, version).loaderOptions.namespace
  {
  }

  /** Deriving the loader options is idempotent: starting again from the effective options, in
      the same mode, yields the same options. */
  lemma DefaultToolLoaderOptionsIdempotent(o: ServiceStartOptions)
    ensures var r := DefaultToolLoaderOptions(o);
            DefaultToolLoaderOptions(ServiceStartOptions(o.mode, r.namespace, Some(r.readOnly))) == r
  {
  }

  /** No composite built at start-up lists the same child twice, so the child order alone
      decides which child answers first. */
  lemma CompositionsHaveDistinctChildren(o: ServiceStartOptions, title: Option<string>, version: Option<string>)
    ensures var r := AddAzureMcpServer(o, title, version);
            (r.toolLoader.Some? && r.toolLoader.value.CompositeToolLoader? ==>
               forall i, j :: 0 <= i < j < |r.toolLoader.value.loaders| ==>
                 r.toolLoader.value.loaders[i] != r.toolLoader.value.loaders[j]) &&
            (r.discovery.Some? && r.discovery.value.CompositeDiscoveryStrategy? ==>
               forall i, j :: 0 <= i < j < |r.discovery.value.strategies| ==>
                 r.discovery.value.strategies[i] != r.discovery.value.strategies[j])
  {
  }
}
