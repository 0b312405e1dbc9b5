# Plugin selection and the Liberty crawler of the agentless system crawler, in Dafny

This project models two pieces of the agentless system crawler, a host-side
program that collects features (load, application metrics, configuration)
of containers, VMs and the host through plugins.

**The plugin manager** (`crawler/plugins_manager.py`, module `PluginsManager`
in `plugins_manager.dfy`):

- It walks the plugins discovered for an audience (container, VM or host) in
  discovery order.
- It keeps a plugin when the plugin's name has a section in the configuration
  file's `crawlers` part, or when its feature is requested.
- It pairs each kept plugin with its arguments. These are resolved in three
  tiers: the configuration section, then the per-feature options, then the
  cross-cutting `avoid_setns` and `mountpoint` options.
- When a plugin has a configuration section, its argument dictionary *is* that
  section. Every write lands in the configuration too, so `Config` is a class
  and `GetPluginArgs` writes through to it.
- Three caches, one per audience, fill lazily and are replaced on reload. They
  sit, with the resolved runtime-environment plugin, in the class
  `ManagerState`.

**The Liberty container crawler**
(`crawler/plugins/applications/liberty/liberty_container_crawler.py`, module
`LibertyContainerCrawler` in `liberty_container_crawler.dfy`):

- It decides whether the plugin applies to a container: some exposed port must
  be 9443.
- It picks the address to probe: the first one that is not `127.0.0.1`.
- It maps every failure from then on to a ConnectionError naming the port.
- The container inspection, the JSON decoder, the namespace switch and the
  metrics client are inputs or function parameters.

`values.dfy` holds the JSON/INI values (`Value`) and `wrappers.dfy` holds
Option and Result.

Behaviour of the code that the model keeps, and that is easy to misread:

- **Precedence.** Feature options overwrite the configuration section key by
  key, so for the same key the option wins. `PrecedenceExample` shows it:
  section `{a: 1}` with feature options `{a: 2, b: 3}` gives `{a: 2, b: 3}`.
- **Raw port numbers.** The loop tests `"containerPort" in entry` before
  anything else. That raises TypeError on an integer entry and is a substring
  test on a string entry. So only strings such as `"9443"` work as raw port
  numbers (`RawIntegerEntryRaises`, `RawStringEntryMatches`).
- **Enabled plugins.** Every name with a section under `crawlers` is enabled.
- **All-loopback addresses.** When every address is `127.0.0.1`, the variable
  `ip` is never bound. It is first read inside the `try` block, so the bare
  `except` turns the resulting NameError into the same ConnectionError as a
  failed metrics call.
- **Not applicable.** A crawl that does not apply ends with the bare `return`,
  that is, None.

## Model

| member | source | states |
|---|---|---|
| `PluginsManager.ConfigTier` | crawler/plugins_manager.py:20-25 | no section gives `{}`; otherwise the section's keys and values, except `avoid_setns`, which becomes the boolean `as_bool` makes of it |
| `PluginsManager.FeatureOptions` | crawler/plugins_manager.py:31-32 | iterating and indexing `options[feature]` copies a dictionary's entries and nothing for the empty string; it raises TypeError (None) exactly on every other value |
| `PluginsManager.FeatureTier` | crawler/plugins_manager.py:27-32 | no feature or no entry keeps the arguments. Otherwise the result's keys are the union, option keys take the options' values, other keys keep theirs. It fails exactly on a non-iterable entry |
| `PluginsManager.GlobalTier` | crawler/plugins_manager.py:36-43 | `avoid_setns` is set to True only when the option is exactly True, otherwise kept. `root_dir` is the mount point when both options exist, otherwise kept. Other keys are unchanged and no other key appears |
| `PluginsManager.CrawlersAfter` | crawler/plugins_manager.py:22-25 | resolution leaves the same section names, changes no other plugin's section, and leaves the plugin's own section equal to its resolved arguments (the alias). When tier 2 raises, the section keeps the tier-1 write of `avoid_setns` |
| `PluginsManager.ResolveArgs` | crawler/plugins_manager.py:19-44 | the returned arguments keep every key of the plugin's section, and hold no key outside the section, the feature options, `avoid_setns` and `root_dir`; an error names the plugin's feature |
| `PluginsManager.GetPluginArgs` | crawler/plugins_manager.py:19-44 | the imperative merge returns the three-tier resolution and leaves `config.crawlers` as `CrawlersAfter` describes |
| `PluginsManager.UnconfiguredPluginStartsEmpty` | crawler/plugins_manager.py:20-22 | a plugin without a section leaves the configuration alone; its arguments hold only feature-option keys, `avoid_setns` and `root_dir` |
| `PluginsManager.FeatureOptionsOverrideConfig` | crawler/plugins_manager.py:27-32 | every key of a dictionary `options[feature]` ends with the options' value, unless tier 3 writes that key |
| `PluginsManager.UnmentionedConfigEntriesKept` | crawler/plugins_manager.py:22-32 | a section entry that the options do not mention (not `avoid_setns` or `root_dir`) reaches the arguments unchanged |
| `PluginsManager.AvoidSetnsFromOptionsOnlyWhenTrue` | crawler/plugins_manager.py:37-38 | `avoid_setns` is True when the option is exactly True; otherwise it is present iff the first two tiers produced it, with that value |
| `PluginsManager.RootDirNeedsBothOptions` | crawler/plugins_manager.py:36-43 | for a plugin with no section or feature options, `root_dir` is present iff both `avoid_setns` and `mountpoint` are options, and then equals the mount point; resolution never fails |
| `PluginsManager.ResolveFailsOnlyOnFeatureOptions` | crawler/plugins_manager.py:27-43 | resolution fails iff the plugin's feature entry in the options cannot be iterated; a missing key in tier 3 never aborts it |
| `PluginsManager.PrecedenceExample` | crawler/plugins_manager.py:27-32 | section `{a: 1}` with feature options `{a: 2, b: 3}` resolves to `{a: 2, b: 3}` |
| `PluginsManager.ResolveReadsOwnSection` | crawler/plugins_manager.py:22-23 | resolution depends on the configuration only through the plugin's own section |
| `PluginsManager.ResolveStableUnderOwnUpdate` | crawler/plugins_manager.py:19-44 | if `as_bool` leaves booleans alone, resolving again against the configuration that the first resolution wrote into gives the same arguments |
| `PluginsManager.PluginSelectionFilter` | crawler/plugins_manager.py:107-113 | kept iff the name is enabled or the feature is requested; the feature is asked for only when the name is not enabled |
| `PluginsManager.Selects` | crawler/plugins_manager.py:86-87 | the crawler walks use `plugin_selection_filter`; the environment walk keeps a plugin iff its environment name equals the requested environment string |
| `PluginsManager.SelectedOf` | crawler/plugins_manager.py:68-73 | the kept plugins are no more than the discovered ones; each was discovered and accepted, and every accepted one is kept |
| `PluginsManager.Walk` | crawler/plugins_manager.py:68-75 | the walk keeps the configuration's section names |
| `PluginsManager.LoadPlugins` | crawler/plugins_manager.py:47-75 | the imperative loop returns the walk's pairs or its error and leaves the configuration as the walk does |
| `PluginsManager.WalkLoadsSelectedInOrder` | crawler/plugins_manager.py:68-75 | the plugins of the loaded pairs are exactly the accepted discovered plugins, in discovery order: none reordered, dropped or repeated |
| `PluginsManager.SelectedIffKept` | crawler/plugins_manager.py:107-113 | a plugin is loaded iff it was discovered and the filter accepts it (name enabled, or feature requested) |
| `PluginsManager.WalkFailsOnlyOnFeatureOptions` | crawler/plugins_manager.py:68-75 | the walk fails iff some accepted plugin's resolution fails |
| `PluginsManager.WalkResolvesAgainst` | crawler/plugins_manager.py:68-75 | with unique names, each loaded pair's arguments are that plugin's resolution against the configuration before the walk |
| `PluginsManager.PairsCarryResolvedArgs` | crawler/plugins_manager.py:74-75 | with unique names, every loaded plugin is paired with `get_plugin_args` of that plugin |
| `PluginsManager.FirstSelected` | crawler/plugins_manager.py:83-90 | nothing is kept iff no discovered plugin is accepted; otherwise the first kept one is the first accepted discovered plugin |
| `PluginsManager.WalkWithoutOptionsSucceeds` | crawler/plugins_manager.py:83-87 | with empty options, as the lazy getters and the environment reload pass, the walk cannot fail |
| `PluginsManager.EnabledLoadPluginScenario` | crawler/plugins_manager.py:66-75 | a `load` plugin with an empty section and no options loads alone with `{}` as its arguments |
| `PluginsManager.ManagerState.constructor` | crawler/plugins_manager.py:12-16 | all three caches start empty and there is no runtime environment |
| `PluginsManager.ManagerState.Reload` | crawler/plugins_manager.py:116-155 | the audience's cache becomes the walk's pairs (the configured names are the enabled list); on an error it keeps its old value; the other caches and the runtime environment are unchanged |
| `PluginsManager.ManagerState.Get` | crawler/plugins_manager.py:158-194 | a non-empty cache is returned with nothing changed; an empty one is reloaded with empty options first, so an empty selection reloads on every call; other caches are untouched |
| `PluginsManager.ManagerState.ReloadEnvPlugin` | crawler/plugins_manager.py:78-97 | the environment plugin becomes the first discovered plugin named `options['environment']` (default `cloudsight`); if none matches, RuntimeEnvironmentPluginNotFound and the old value stays |
| `PluginsManager.ManagerState.GetRuntimeEnvPlugin` | crawler/plugins_manager.py:100-104 | a resolved environment plugin is returned unchanged; otherwise it is resolved with the default name `cloudsight`, and the configuration is left as that walk leaves it |
| `PluginsManager.GetTwice` | crawler/plugins_manager.py:158-168 | two getter calls with no reload between: once the first has filled the cache, the second returns the identical list |
| `LibertyContainerCrawler.GetFeature` | crawler/plugins/applications/liberty/liberty_container_crawler.py:14-19 | the feature is always `liberty` |
| `LibertyContainerCrawler.GetOpt` | crawler/plugins/applications/liberty/liberty_container_crawler.py:21-31 | the password and the user are each the keyword argument when given, else `"password"` and `"user"` |
| `LibertyContainerCrawler.GetOptComponentsIndependent` | crawler/plugins/applications/liberty/liberty_container_crawler.py:25-29 | two keyword maps that agree on `password` give the same password whatever their `user`, and two that agree on `user` give the same user whatever their `password` |
| `LibertyContainerCrawler.PortOf` | crawler/plugins/applications/liberty/liberty_container_crawler.py:52-56 | an object's port is `int` of its `containerPort`; a string without that word is converted itself. TypeError is raised by a bare integer or boolean, by an object without `containerPort`, and by a string containing that word |
| `LibertyContainerCrawler.StructuredEntryMatches` | crawler/plugins/applications/liberty/liberty_container_crawler.py:53-54 | `{"containerPort": 9443}` gives port 9443 |
| `LibertyContainerCrawler.RawStringEntryMatches` | crawler/plugins/applications/liberty/liberty_container_crawler.py:55-56 | the raw entry `"9443"` gives port 9443 |
| `LibertyContainerCrawler.RawIntegerEntryRaises` | crawler/plugins/applications/liberty/liberty_container_crawler.py:53 | the raw entry `9443` raises TypeError at the `in` test |
| `LibertyContainerCrawler.PortsToScan` | crawler/plugins/applications/liberty/liberty_container_crawler.py:40-49 | the ports are the decoded Kubernetes ports label when the container has that label, otherwise the container's own ports |
| `LibertyContainerCrawler.ScanPorts` | crawler/plugins/applications/liberty/liberty_container_crawler.py:51-59 | the scan succeeds iff every entry converts; it finds the port iff some entry's port is 9443; it fails with the first bad entry's error |
| `LibertyContainerCrawler.ScanForDefaultPort` | crawler/plugins/applications/liberty/liberty_container_crawler.py:51-59 | the loop ends with port 9443 iff some entry's port is 9443, with no port otherwise, or with the first bad entry's exception |
| `LibertyContainerCrawler.FirstNonLoopback` | crawler/plugins/applications/liberty/liberty_container_crawler.py:69-72 | none iff every address is `127.0.0.1`; otherwise an address in the list that is not loopback and has only loopback before it |
| `LibertyContainerCrawler.FirstNonLoopbackAt` | crawler/plugins/applications/liberty/liberty_container_crawler.py:69-72 | the address where the scan stops is the first non-loopback one |
| `LibertyContainerCrawler.ChooseAddress` | crawler/plugins/applications/liberty/liberty_container_crawler.py:69-72 | the loop with `break` returns the first non-loopback address, or none |
| `LibertyContainerCrawler.Crawl` | crawler/plugins/applications/liberty/liberty_container_crawler.py:33-83 | ports come from the Kubernetes label when present. A port-loop exception is passed on and no 9443 gives None. Otherwise the namespace call gets the pid and exactly `['net']`, and its failure is passed on. No usable address or a failed metrics call gives ConnectionError(9443); success gives the metrics |

## Left out

- Plugin discovery by the yapsy library (plugin places, category filters, `misc.execution_path`) is not modelled. Each reload takes the plugins discovered for its category as a sequence.
- Configuration-file parsing is not modelled. The configuration's `as_bool` is a parameter `asBool`, and the ValueError it raises on an unrecognised string is not modelled.
- `LoadPlugins`, `Reload`, `Get` and `ReloadEnvPlugin` require that the filter can be asked about every discovered plugin. In the source, a plugin without `get_feature` (or `get_environment_name`) would raise AttributeError here. The crawler and environment plugin interfaces always provide these methods.
- A loaded pair's arguments are a snapshot. In the source, the cached dictionary of a configured plugin is its configuration section, so a later write into that section also shows in older cached lists. `ResolveStableUnderOwnUpdate` shows that a repeated resolution writes back the same values.
- The insertion order of dictionary keys is not modelled. Arguments are maps.
- `Value` has no list, float or None (JSON `null`) variant. Not modelled: a list given as feature options, an option whose value is None, a `null` port entry, a ports label that decodes to anything but a list, and JSON decoding errors.
- `ParseInt` covers surrounding whitespace, one sign and ASCII digits. It does not cover underscores, non-ASCII digits or other forms of Python's `int`.
- The container inspection, the label's JSON decoding, the pid's conversion to a string, the namespace switch (`run_as_another_namespace`) and the metrics client (`liberty_crawler.retrieve_metrics`) are inputs or function parameters whose results are taken as given. Their own behaviour is not modelled, including the restoring of namespaces around a call.
- Logging and the message text of the exceptions (the plugin places in RuntimeEnvironmentPluginNotFound, the port format in ConnectionError) are not modelled. The errors carry the environment name and the port.
- Generators are finite sequences. An exception in the walk surfaces when the list is built, as in the source.
- Concurrent access to the caches is not modelled. The methods are sequential and replace a cache in one assignment.
- `crawler/plugins/systems/load_container_crawler.py` is not part of this model. It only returns the feature `load`, raises NotImplementedError when `avoid_setns` is set, and otherwise hands an OS call to the namespace switch.
- `PluginsManager.PairsCarryResolvedArgs`: proved only when the discovered plugins have distinct names. With a repeated name, the later plugin resolves against the section the earlier one wrote into; `Walk` describes that case.
