/** FessAnalysisService: the node-level service that reads the host's plugin
    list once it is started and loads classes from those plugins by name. */
module Service {
  import opened Wrappers
  import opened Analysis
  import Plugins

  /** The host's PluginsService, as seen through reflection: the list held in
      its private `plugins` field, and whether reading that field succeeds. */
  datatype PluginsService = PluginsService(plugins: Plugins.Directory, fieldAccessible: bool)

  /** The ElasticsearchException thrown by the service. */
  datatype ServiceError = ServiceError(message: string)

  const AccessFailureMessage: string := "Failed to access plugins in PluginsService."

  /** FessAnalysisPlugin.PluginComponent: the holder through which the
      analysis factories reach the service. */
  class PluginComponent {
    var fessAnalysisService: FessAnalysisService?

    constructor ()
      ensures fessAnalysisService == null
    {
      fessAnalysisService := null;
    }

    /** The registered service; null until one is set. */
    function GetFessAnalysisService(): (s: FessAnalysisService?)
      reads this
      ensures s == fessAnalysisService
    {
      fessAnalysisService
    }

    method SetFessAnalysisService(service: FessAnalysisService?)
      modifies this
      ensures fessAnalysisService == service
    {
      fessAnalysisService := service;
    }
  }

  class FessAnalysisService {
    const pluginsService: PluginsService

    /** The plugin list; None (Java `null`) until the service is started. */
    var plugins: Option<Plugins.Directory>

    /** Builds the service and registers it in the plugin component, so that
        every later lookup through the component answers this service. */
    constructor (settings: Settings, pluginsService: PluginsService, pluginComponent: PluginComponent)
      modifies pluginComponent
      ensures this.pluginsService == pluginsService
      ensures plugins == None
      ensures pluginComponent.GetFessAnalysisService() == this
    {
      this.pluginsService := pluginsService;
      plugins := None;
      new;
      pluginComponent.SetFessAnalysisService(this);
    }

    /** doStart with loadPlugins inlined: reads the host's plugin list into
        `plugins`. When the list cannot be read the start fails with an
        exception and `plugins` keeps its value; it never becomes an empty
        list. */
    method DoStart() returns (o: Outcome<ServiceError>)
      modifies this`plugins
      ensures pluginsService.fieldAccessible ==> o == Pass && plugins == Some(pluginsService.plugins)
      ensures !pluginsService.fieldAccessible ==>
        o == Fail(ServiceError(AccessFailureMessage)) && plugins == old(plugins)
    {
      if pluginsService.fieldAccessible {
        plugins := Some(pluginsService.plugins);
        o := Pass;
      } else {
        o := Fail(ServiceError(AccessFailureMessage));
      }
    }

    /** loadClass: asks each plugin's class loader in load order and returns
        the first class found, or None when no plugin has it. It needs a
        started service (the Java loop dereferences `plugins`) and changes
        nothing, so equal calls give equal answers. */
    method LoadClass(className: ClassName) returns (c: Option<JavaClass>)
      requires plugins.Some?
      ensures c == Plugins.LoadClass(plugins.value, className)
    {
      var ps := plugins.value;
      for i := 0 to |ps|
        invariant Plugins.LoadClass(ps, className) == Plugins.LoadClass(ps[i..], className)
      {
        if className in ps[i].loader {
          return Some(ps[i].loader[className]);
        }
        // ClassNotFoundException: ignored, go on with the next plugin
        assert ps[i..][1..] == ps[i + 1..];
      }
      c := None;
    }
  }
}
