# ODL 2 license import and plugin loading, modelled in Dafny

This project models two parts of a library circulation manager's extension code.

**ODL 2 license extraction** (`odl2.dfy`, module `Odl2`). An ODL-over-OPDS-2 feed
attaches `odl:license` entries to each publication. For each license, in feed order,
the importer does the following:

- it emits format records, one per DRM scheme of a protected license;
- it finds the first `borrow` link and the first `self` link;
- if the self link's href is non-empty, it fetches the license status document there
  and reads `checkouts.left` and `checkouts.available`;
- it reads the expiry and concurrency terms;
- it builds one license record and adds to two totals, licenses owned and licenses available.

The license list and both totals then overwrite the publication's circulation data. The
new format records are appended after the formats already there. A status link that
cannot be fetched or parsed raises, and that aborts the publication.

The per-license pass is `ExtractLicense`. The loop is `ExtractLicenses`. The write into
the `CirculationData` object is `ExtractPublicationMetadata`. Each is proved against
functions over the license sequence (`Formats`, `Records`, `SumOwned`, `SumAvailable`,
`StatusFetches`), and lemmas state what those functions promise.

**Plugin discovery and activation** (`plugins.dfy`, module `Plugins`). The scan
`GetInstalledPlugins` goes through the installed package keys in order:

- only keys starting with `cm-plugin` are considered;
- such a key is imported under its module name, which is the key with every `-` turned into `_`;
- the package becomes a `Plugin` only if the import succeeds and the module defines
  every required attribute (`routes`, `run_func`).

A failing package is skipped and the scan goes on. `Plugin.EnableRoute` registers every
route with defaults `{"app": app}`. A route the application refuses does not stop the
routes after it. `Plugin.RunFunctions` runs each script in order. Nothing catches a
failure there, so the first missing `func` key or raising script ends the run.

Foreign calls are parameters of the model:

- the status-link HTTP GET plus `json.loads` is `fetch: string -> StatusResponse`;
- `importlib.import_module` is `importModule: string -> Option<PyModule>`;
- Flask's `add_url_rule` is `accepts: Route -> bool`;
- instantiating and running a script class is `runs: string -> bool`.

Three details of the code that the model keeps as written:

- `enable_route` passes each route's keyword arguments to `add_url_rule` unchanged (api/plugins.py:43-45). Rule paths are not rewritten under a prefix.
- A plugin module must define `run_func` (api/plugins.py:38). A `scripts` attribute is not accepted instead.
- Missing `checkouts`, `left` or `available` keys read as absent, and an absent `available` adds 0 (api/odl2.py:81-83). A malformed status document raises.

## Model

| member | source | states |
|---|---|---|
| `Odl2.FirstWithRel` | api/odl2.py:70-76 | The link picked for a relation is the first one that carries it. No earlier link carries it. When none does, the result is the list's length (no link). |
| `Odl2.Owned` | api/odl2.py:85-89 | A license adds its terms' concurrency to licenses owned. It adds 0 when terms or concurrency is missing. |
| `Odl2.Available` | api/odl2.py:74-90 | A license adds `checkouts.available` of its status document to licenses available. It adds 0 when there is no self link, the href is empty, or `checkouts` or `available` is absent. |
| `Odl2.Record` | api/odl2.py:65-99 | The license record carries the license's identifier, the first borrow href and the first self href. `remaining_checkouts` is the document's `checkouts.left`, and None when there is no self link or its href is empty. Expiry and concurrency come from the terms, and both are None without terms. |
| `Odl2.FirstUnfetchable` | api/odl2.py:78-80 | Gives the index of the first license whose status link raises. Every earlier license was processed without raising. |
| `Odl2.LicenseFormatsShape` | api/odl2.py:50-63 | An unprotected license contributes no format record. A protected license contributes one record per DRM scheme, or one record with no DRM when the scheme list is empty or missing. Every record has the first declared format as content type and in-copyright rights. |
| `Odl2.ExtractLicense` | api/odl2.py:49-99 | One license pass fails exactly when its status fetch raises. Otherwise it yields the license's format records, its one record and its shares of both totals. It requests the status URL only when the self href is non-empty. |
| `Odl2.ExtractLicenses` | api/odl2.py:41-99 | The loop succeeds exactly when every license's status link can be read. It then yields the feed-order format records, one record per license and both totals. Otherwise it stops at the first failing license with that license's URL, and it has requested the status URLs up to and including that one. |
| `Odl2.ExtractPublicationMetadata` | api/odl2.py:25-106 | On success, the existing formats are kept in order and the new ones are appended. The license list and both totals are overwritten. With no licenses the list is empty and both totals are 0. When a status fetch raises, the circulation data is left unchanged. |
| `Odl2.RecordsOnePerLicense` | api/odl2.py:47-99 | There is exactly one license record per license, in feed order. |
| `Odl2.RecordIdentifiers` | api/odl2.py:49-93 | The i-th record carries the i-th license's identifier. |
| `Odl2.OwnedMatchesRecords` | api/odl2.py:87-101 | Licenses owned equals the sum of the recorded concurrency, with a missing value counting 0. |
| `Odl2.UnfetchableStep` | api/odl2.py:78-80 | After a run of licenses that did not raise, the next license either raises, and is then the first to do so, or extends that run. |
| `Odl2.PrefixStep` | api/odl2.py:89-99 | Processing one more license extends each running list and total by exactly that license's share. |
| `Odl2.FormatsSplit` | api/odl2.py:55-63 | The format records of a concatenated feed are those of each part, in order. |
| `Odl2.RecordsSplit` | api/odl2.py:92-99 | The license records of a concatenated feed are those of each part, in order. |
| `Odl2.TotalsSplit` | api/odl2.py:89-90 | Both totals are additive over the licenses of a feed. |
| `Odl2.FormatsIffProtected` | api/odl2.py:55-63 | There are no new format records exactly when no license declares protection. |
| `Odl2.FormatsProvenance` | api/odl2.py:50-63 | Every new format record has in-copyright rights. Its content type is the first format of some protected license. |
| `Odl2.StatusFetchedAtMostOncePerLicense` | api/odl2.py:74-79 | There are at most as many status requests as licenses. Each request goes to a non-empty href that is some license's self link. |
| `Odl2.TwoLicenseTotals` | api/odl2.py:85-102 | Two licenses with concurrency 3 and 1 and availability 2 and 1 give 4 licenses owned and 3 available. |
| `Plugins.RequiredAttributesAreDescriptorFields` | api/plugins.py:36-38 | A module has both required attributes exactly when it defines `routes` and `run_func`. Those are the two fields a plugin is built from. |
| `Plugins.ModuleName` | api/plugins.py:11 | The module name has the key's length. Every `-` becomes `_`, every other character is kept, and no `-` remains. |
| `Plugins.Candidate` | api/plugins.py:9-24 | A package yields a plugin exactly when its key has the prefix, its module imports and the module has every required attribute. The plugin's name is the key, and its routes and functions are the module's `routes` and `run_func`. |
| `Plugins.GetInstalledPlugins` | api/plugins.py:5-26 | Returns the package-order selection of packages that yield a plugin. Its import log is the module names of the prefix-matching packages, in order. |
| `Plugins.Plugin.EnableRoute` | api/plugins.py:40-50 | Appends one rule with defaults `{"app": app}` for each accepted route, in route order. Refused routes are reported and do not stop later ones. |
| `Plugins.Plugin.RunFunctions` | api/plugins.py:52-54 | Completes exactly when every entry has a `func` and its script runs. It then has run every script in list order. Otherwise it stops at the first failing entry with a missing-key or raised error, having run the scripts before it. |
| `Plugins.RunStep` | api/plugins.py:52-54 | Reaching one more entry adds its script, if it has one, to those started. If that entry fails, it is the first failing entry; otherwise the run goes past it. |
| `Plugins.FirstFailing` | api/plugins.py:52-54 | Gives the index of the first entry that does not run to completion. Every earlier entry runs. |
| `Plugins.DiscoverSplit` | api/plugins.py:7-26 | Scanning a concatenation of package lists finds each part's plugins, in order, and makes each part's import attempts, in order. |
| `Plugins.DiscoverPrefixStep` | api/plugins.py:8-24 | Scanning one more package adds exactly that package's plugin, if it yields one, and its import, if its key has the prefix. |
| `Plugins.FailedPackageSkipped` | api/plugins.py:10-23 | A package whose import fails or whose module lacks an attribute is skipped. The plugins before and after it are found as if it were absent. |
| `Plugins.DiscoverSound` | api/plugins.py:9-24 | Every plugin found comes from a listed package and is that package's plugin. There are no more plugins than packages. |
| `Plugins.DiscoverComplete` | api/plugins.py:9-24 | Every package that yields a plugin has it among the plugins found. |
| `Plugins.OnlyPluginPackagesImported` | api/plugins.py:8-11 | Every attempted import is the module name of a prefix-matching package. Every prefix-matching package is attempted. |
| `Plugins.EveryRouteAttempted` | api/plugins.py:40-50 | Registered plus refused routes are as many as the plugin's routes. Every accepted route is registered with defaults `{"app": app}`, every refused one is reported, and nothing else is registered. |
| `Plugins.CompletedRunInvokesEveryEntry` | api/plugins.py:52-54 | When every entry has a `func`, the scripts run are exactly those entries' scripts, in list order. |

## Left out

- Logging (every `logging.error` / `logging.info` call) is not modelled. It has no effect on results.
- The HTTP GET of the status link and its `json.loads` are the `fetch` parameter. A transport error, a non-JSON body and a body whose shape makes `.get` raise all appear as `Raised`.
- The metadata extraction of the generic OPDS 2 importer is not modelled. Its result enters as the `CirculationData` object passed in.
- The `medium` computation is not modelled. It calls a library function outside this model, and its result is never stored.
- `ODL2API`, `ODL2ImportMonitor` and bin/odl2_import_monitor.py are not modelled. They hold only names and start-up wiring.
- `int(...)` of the counters is not modelled. Counters and concurrency are integers in the model, so converting a string or float is out of scope.
- The presence of `protection` and `terms` is modelled as their truthiness. An empty-but-present object is treated as present.
- `BORROW_REL`, `SELF_REL` and `IN_COPYRIGHT` come from the OPDS 2 link-relation registry and the platform's rights-status constants. Neither is part of this model, so the values used are those registries' standard values.
- `Odl2.ExtractLicenses`: `fetch` is a function of the URL, so one response per status URL is assumed for the whole publication. The code makes a separate GET per license, so two licenses sharing a status href could in reality get different documents, or one could fail and the other not.
- `Plugins.Plugin.RunFunctions`: `runs` is a function of the script class, so a class listed twice in `run_func` is assumed to behave the same both times.
- `Plugins.Plugin.EnableRoute`: whether Flask accepts a route depends only on the route. In Flask it can also depend on rules already registered, such as an endpoint already bound to another view.
- `pkg_resources.working_set` is the `packages` sequence of keys. Import side effects and module caching are not modelled.
- The error values of `RunFunctions` carry the index of the failing entry. Python's exception does not, but the index identifies which entry raised.
- The library-settings and search-service controllers, registry fallback and geographic validation are not modelled. Their tests exist, but their source is not part of this model.
