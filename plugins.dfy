/** Plugin discovery and activation. Installed packages whose key starts with
    "cm-plugin" are imported under their key with every '-' turned into '_';
    a module that imports and defines every required attribute becomes a
    plugin, whose routes can be registered with the web application and whose
    scripts can be run. A package that fails is skipped and the scan goes on. */
module Plugins {
  import opened Wrappers
  import opened Seqs

  /** The key prefix that marks an installed package as a plugin. */
  const PLUGIN_PREFIX: string := "cm-plugin"

  /** A route a plugin declares: the keyword arguments it passes to `add_url_rule`. */
  datatype Route = Route(rule: string, endpoint: string)

  /** An entry of a plugin's `run_func` list; `func` is the script class stored under
      the "func" key, None when that key is missing. */
  datatype ScriptEntry = ScriptEntry(func: Option<string>)

  /** An imported module: its `routes` and `run_func` attributes when it defines them,
      and the names of its other attributes. */
  datatype PyModule = PyModule(routes: Option<seq<Route>>, runFunc: Option<seq<ScriptEntry>>,
                               otherAttributes: set<string>)

  /** The web application; registering a route adds a rule to its URL map. */
  class App {
    var urlMap: seq<UrlRule>

    constructor ()
      ensures urlMap == []
    {
      urlMap := [];
    }
  }

  /** A registered rule: the plugin's route with the defaults it was registered with. */
  datatype UrlRule = UrlRule(route: Route, defaults: map<string, App>)

  /** The exception that stops `RunFunctions`: entry `index` has no "func" key, or its script raised. */
  datatype RunError = MissingFunc(index: nat) | ScriptRaised(index: nat, script: string)

  // ---------------------------------------------------------------------
  // Modules and their attributes
  // ---------------------------------------------------------------------

  /** `hasattr(module, attr)`. */
  predicate HasAttr(m: PyModule, attr: string) {
    if attr == "routes" then m.routes.Some?
    else if attr == "run_func" then m.runFunc.Some?
    else attr in m.otherAttributes
  }

  /** The attributes a plugin module must define. */
  function RequiredAttributes(): seq<string> {
    ["routes", "run_func"]
  }

  predicate HasRequiredAttributes(m: PyModule) {
    forall a | a in RequiredAttributes() :: HasAttr(m, a)
  }

  /** A module has every required attribute exactly when it provides both fields of a plugin. */
  lemma RequiredAttributesAreDescriptorFields(m: PyModule)
    ensures HasRequiredAttributes(m) <==> m.routes.Some? && m.runFunc.Some?
  {
    var attrs := RequiredAttributes();
    assert attrs[0] == "routes" && attrs[1] == "run_func";
    assert attrs[0] in attrs && attrs[1] in attrs;
    if m.routes.Some? && m.runFunc.Some? {
      forall a | a in attrs ensures HasAttr(m, a) {
        assert a == attrs[0] || a == attrs[1];
      }
    }
  }

  predicate IsPluginKey(key: string) {
    PLUGIN_PREFIX <= key
  }

  /** The module imported for a package: its key with every '-' replaced by '_'. */
  function ModuleName(key: string): (name: string)
    ensures |name| == |key|
    ensures forall i | 0 <= i < |key| :: name[i] == if key[i] == '-' then '_' else key[i]
    ensures '-' !in name
  {
    if key == [] then [] else [if key[0] == '-' then '_' else key[0]] + ModuleName(key[1..])
  }

  // ---------------------------------------------------------------------
  // Plugins
  // ---------------------------------------------------------------------

  /** A loaded plugin: the package key, the module's routes and its `run_func` list. */
  datatype Plugin = Plugin(name: string, routes: seq<Route>, functions: seq<ScriptEntry>) {

    /** Registers every route, in order, with defaults {"app": app}; a route the application
        refuses is returned in `failed` and does not stop the routes after it. */
    method EnableRoute(app: App, accepts: Route -> bool) returns (failed: seq<Route>)
      modifies app
      ensures app.urlMap == old(app.urlMap) + Registrations(routes, app, accepts)
      ensures failed == Rejections(routes, accepts)
    {
      failed := [];
      for i := 0 to |routes|
        invariant app.urlMap == old(app.urlMap) + Registrations(routes[..i], app, accepts)
        invariant failed == Rejections(routes[..i], accepts)
      {
        assert routes[..i + 1][..i] == routes[..i];
        var route := routes[i];
        var defaults := map["app" := app];
        if accepts(route) {
          app.urlMap := app.urlMap + [UrlRule(route, defaults)];
        } else {
          failed := failed + [route];
        }
      }
      assert routes[..|routes|] == routes;
    }

    /** Runs the script of every entry, in order. Nothing catches a failure: a missing "func"
        key or a script that raises ends the run with that entry's error. `invoked` lists the
        scripts the loop reached and started (instantiated, then run). */
    method RunFunctions(runs: string -> bool) returns (invoked: seq<string>, outcome: Result<(), RunError>)
      ensures outcome.Ok? <==> forall i | 0 <= i < |functions| :: Runs(functions[i], runs)
      ensures outcome.Ok? ==> invoked == Scripts(functions)
      ensures outcome.Err? ==>
                var k := FirstFailing(functions, runs);
                k < |functions| &&
                invoked == Scripts(functions[..k + 1]) &&
                outcome.error == if functions[k].func.None? then MissingFunc(k)
                                 else ScriptRaised(k, functions[k].func.value)
    {
      invoked := [];
      for i := 0 to |functions|
        invariant i <= FirstFailing(functions, runs)
        invariant invoked == Scripts(functions[..i])
      {
        RunStep(functions, i, runs);
        var entry := functions[i];
        if entry.func.None? {
          outcome := Err(MissingFunc(i));
          return;
        }
        var script := entry.func.value;
        invoked := invoked + [script];
        if !runs(script) {
          outcome := Err(ScriptRaised(i, script));
          return;
        }
      }
      assert functions[..|functions|] == functions;
      outcome := Ok(());
    }
  }

  /** The plugin made from a package, if any: none for a non-plugin key, a failed import or a
      module that lacks a required attribute. */
  function Candidate(key: string, importModule: string -> Option<PyModule>): (ps: seq<Plugin>)
    ensures |ps| <= 1
    ensures ps != [] <==>
              IsPluginKey(key) && importModule(ModuleName(key)).Some? &&
              HasRequiredAttributes(importModule(ModuleName(key)).value)
    ensures ps != [] ==>
              ps[0].name == key &&
              Some(ps[0].routes) == importModule(ModuleName(key)).value.routes &&
              Some(ps[0].functions) == importModule(ModuleName(key)).value.runFunc
  {
    if !IsPluginKey(key) then []
    else
      match importModule(ModuleName(key))
      case None => []
      case Some(m) =>
        RequiredAttributesAreDescriptorFields(m);
        if HasRequiredAttributes(m) then [Plugin(key, m.routes.value, m.runFunc.value)] else []
  }

  /** The plugins found among the installed packages, in package order. */
  function Discover(keys: seq<string>, importModule: string -> Option<PyModule>): seq<Plugin> {
    if keys == [] then []
    else Discover(keys[..|keys| - 1], importModule) + Candidate(keys[|keys| - 1], importModule)
  }

  /** The module names imported while scanning, in order. */
  function ImportAttempts(keys: seq<string>): seq<string> {
    if keys == [] then []
    else
      var last := keys[|keys| - 1];
      ImportAttempts(keys[..|keys| - 1]) + if IsPluginKey(last) then [ModuleName(last)] else []
  }

  /** The scan of the installed packages. `imported` lists the module names whose import was tried. */
  method GetInstalledPlugins(packages: seq<string>, importModule: string -> Option<PyModule>)
    returns (plugins: seq<Plugin>, imported: seq<string>)
    ensures plugins == Discover(packages, importModule)
    ensures imported == ImportAttempts(packages)
  {
    plugins := [];
    imported := [];
    for i := 0 to |packages|
      invariant plugins == Discover(packages[..i], importModule)
      invariant imported == ImportAttempts(packages[..i])
    {
      DiscoverPrefixStep(packages, i, importModule);
      var key := packages[i];
      if PLUGIN_PREFIX <= key {
        var name := ModuleName(key);
        imported := imported + [name];
        var loaded := importModule(name);
        if loaded.None? {
          continue;
        }
        var valid := true;
        var attrs := RequiredAttributes();
        for j := 0 to |attrs|
          invariant valid <==> forall a | 0 <= a < j :: HasAttr(loaded.value, attrs[a])
        {
          if !HasAttr(loaded.value, attrs[j]) {
            valid := false;
          }
        }
        RequiredAttributesAreDescriptorFields(loaded.value);
        if valid {
          plugins := plugins + [Plugin(key, loaded.value.routes.value, loaded.value.runFunc.value)];
        }
      }
    }
    assert packages[..|packages|] == packages;
  }

  // ---------------------------------------------------------------------
  // Specification of route registration and script runs
  // ---------------------------------------------------------------------

  /** The rules added to the URL map, in route order. */
  function Registrations(routes: seq<Route>, app: App, accepts: Route -> bool): seq<UrlRule> {
    if routes == [] then []
    else
      var last := routes[|routes| - 1];
      Registrations(routes[..|routes| - 1], app, accepts) +
        if accepts(last) then [UrlRule(last, map["app" := app])] else []
  }

  /** The routes whose registration failed, in route order. */
  function Rejections(routes: seq<Route>, accepts: Route -> bool): seq<Route> {
    if routes == [] then []
    else
      var last := routes[|routes| - 1];
      Rejections(routes[..|routes| - 1], accepts) + if accepts(last) then [] else [last]
  }

  /** The entry runs to completion: it has a "func" key and its script does not raise. */
  predicate Runs(entry: ScriptEntry, runs: string -> bool) {
    entry.func.Some? && runs(entry.func.value)
  }

  /** Index of the first entry that does not run to completion, or `|entries|`. */
  function FirstFailing(entries: seq<ScriptEntry>, runs: string -> bool): (k: nat)
    ensures k <= |entries|
    ensures forall j | 0 <= j < k :: Runs(entries[j], runs)
    ensures k < |entries| ==> !Runs(entries[k], runs)
  {
    if entries == [] then 0
    else if !Runs(entries[0], runs) then 0
    else 1 + FirstFailing(entries[1..], runs)
  }

  /** The scripts of the entries that have a "func" key, in order. */
  function Scripts(entries: seq<ScriptEntry>): seq<string> {
    if entries == [] then []
    else
      var last := entries[|entries| - 1];
      Scripts(entries[..|entries| - 1]) + if last.func.Some? then [last.func.value] else []
  }

  /** One more entry extends the scripts started before it; if it fails, it is the first failure. */
  lemma RunStep(entries: seq<ScriptEntry>, i: nat, runs: string -> bool)
    requires i < |entries| && i <= FirstFailing(entries, runs)
    ensures Scripts(entries[..i + 1]) ==
              Scripts(entries[..i]) + if entries[i].func.Some? then [entries[i].func.value] else []
    ensures Runs(entries[i], runs) ==> i + 1 <= FirstFailing(entries, runs)
    ensures !Runs(entries[i], runs) ==> FirstFailing(entries, runs) == i
  {
    assert entries[..i + 1][..i] == entries[..i];
  }

  // ---------------------------------------------------------------------
  // Properties
  // ---------------------------------------------------------------------

  /** Scanning two package lists one after the other finds the plugins of each, in order. */
  lemma {:induction false} DiscoverSplit(a: seq<string>, b: seq<string>, importModule: string -> Option<PyModule>)
    ensures Discover(a + b, importModule) == Discover(a, importModule) + Discover(b, importModule)
    ensures ImportAttempts(a + b) == ImportAttempts(a) + ImportAttempts(b)
  {
    if b == [] {
      assert a + b == a;
    } else {
      var init, last := b[..|b| - 1], b[|b| - 1];
      assert b == init + [last];
      assert a + b == (a + init) + [last];
      DiscoverAppendOne(a + init, last, importModule);
      DiscoverAppendOne(init, last, importModule);
      ImportsAppendOne(a + init, last);
      ImportsAppendOne(init, last);
      DiscoverSplit(a, init, importModule);
      ConcatAssoc(Discover(a, importModule), Discover(init, importModule), Candidate(last, importModule));
      ConcatAssoc(ImportAttempts(a), ImportAttempts(init), ImportAttempts([last]));
    }
  }

  /** Scanning one more package adds its plugin, if any. */
  lemma DiscoverAppendOne(keys: seq<string>, key: string, importModule: string -> Option<PyModule>)
    ensures Discover(keys + [key], importModule) == Discover(keys, importModule) + Candidate(key, importModule)
  {
    var ks := keys + [key];
    assert ks[..|ks| - 1] == keys && ks[|ks| - 1] == key;
  }

  /** Scanning one more package adds its import attempt, if its key is a plugin key. */
  lemma ImportsAppendOne(keys: seq<string>, key: string)
    ensures ImportAttempts(keys + [key]) == ImportAttempts(keys) + ImportAttempts([key])
    ensures ImportAttempts([key]) == if IsPluginKey(key) then [ModuleName(key)] else []
  {
    var ks := keys + [key];
    assert ks[..|ks| - 1] == keys && ks[|ks| - 1] == key;
    assert [key][..0] == [];
  }

  /** Scanning one more package of a list extends the scan of the packages before it. */
  lemma DiscoverPrefixStep(keys: seq<string>, i: nat, importModule: string -> Option<PyModule>)
    requires i < |keys|
    ensures Discover(keys[..i + 1], importModule) == Discover(keys[..i], importModule) + Candidate(keys[i], importModule)
    ensures ImportAttempts(keys[..i + 1]) ==
              ImportAttempts(keys[..i]) + if IsPluginKey(keys[i]) then [ModuleName(keys[i])] else []
  {
    assert keys[..i + 1] == keys[..i] + [keys[i]];
    DiscoverAppendOne(keys[..i], keys[i], importModule);
    ImportsAppendOne(keys[..i], keys[i]);
  }

  /** A package that yields no plugin (import failure, missing attribute) skips only itself. */
  lemma FailedPackageSkipped(a: seq<string>, key: string, b: seq<string>, importModule: string -> Option<PyModule>)
    requires Candidate(key, importModule) == []
    ensures Discover(a + [key] + b, importModule) == Discover(a, importModule) + Discover(b, importModule)
  {
    assert [key][..0] == [] && [key][0] == key;
    calc {
      Discover(a + [key] + b, importModule);
      { DiscoverSplit(a + [key], b, importModule); }
      Discover(a + [key], importModule) + Discover(b, importModule);
      { DiscoverSplit(a, [key], importModule); }
      Discover(a, importModule) + Discover([key], importModule) + Discover(b, importModule);
      Discover(a, importModule) + Candidate(key, importModule) + Discover(b, importModule);
      Discover(a, importModule) + [] + Discover(b, importModule);
      { assert Discover(a, importModule) + [] == Discover(a, importModule); }
      Discover(a, importModule) + Discover(b, importModule);
    }
  }

  /** Every plugin found comes from a listed package and is that package's plugin. */
  lemma {:induction false} DiscoverSound(keys: seq<string>, importModule: string -> Option<PyModule>)
    ensures |Discover(keys, importModule)| <= |keys|
    ensures forall p | p in Discover(keys, importModule) :: p.name in keys && Candidate(p.name, importModule) == [p]
  {
    if keys != [] {
      var init := keys[..|keys| - 1];
      DiscoverSound(init, importModule);
      forall p | p in Discover(keys, importModule)
        ensures p.name in keys && Candidate(p.name, importModule) == [p]
      {
        if p in Discover(init, importModule) {
          assert p.name in init;
        } else {
          assert p in Candidate(keys[|keys| - 1], importModule);
        }
      }
    }
  }

  /** Every package that yields a plugin has it among the plugins found. */
  lemma {:induction false} DiscoverComplete(keys: seq<string>, importModule: string -> Option<PyModule>)
    ensures forall i, p | 0 <= i < |keys| && p in Candidate(keys[i], importModule) ::
              p in Discover(keys, importModule)
  {
    if keys != [] {
      var init := keys[..|keys| - 1];
      DiscoverComplete(init, importModule);
      forall i, p | 0 <= i < |keys| && p in Candidate(keys[i], importModule)
        ensures p in Discover(keys, importModule)
      {
        if i < |keys| - 1 {
          assert init[i] == keys[i];
        }
      }
    }
  }

  /** Exactly the plugin packages are imported, each under its module name. */
  lemma {:induction false} OnlyPluginPackagesImported(keys: seq<string>)
    ensures forall n | n in ImportAttempts(keys) ::
              exists i | 0 <= i < |keys| :: IsPluginKey(keys[i]) && ModuleName(keys[i]) == n
    ensures forall i | 0 <= i < |keys| && IsPluginKey(keys[i]) :: ModuleName(keys[i]) in ImportAttempts(keys)
  {
    if keys != [] {
      var init := keys[..|keys| - 1];
      OnlyPluginPackagesImported(init);
      forall n | n in ImportAttempts(keys)
        ensures exists i | 0 <= i < |keys| :: IsPluginKey(keys[i]) && ModuleName(keys[i]) == n
      {
        if n in ImportAttempts(init) {
          var i :| 0 <= i < |init| && IsPluginKey(init[i]) && ModuleName(init[i]) == n;
          assert init[i] == keys[i];
        } else {
          assert IsPluginKey(keys[|keys| - 1]) && ModuleName(keys[|keys| - 1]) == n;
        }
      }
      forall i | 0 <= i < |keys| && IsPluginKey(keys[i])
        ensures ModuleName(keys[i]) in ImportAttempts(keys)
      {
        if i < |keys| - 1 {
          assert init[i] == keys[i];
        }
      }
    }
  }

  /** Every route is tried: each accepted route is registered with defaults {"app": app},
      each refused one is reported, and nothing else is registered. */
  lemma {:induction false} EveryRouteAttempted(routes: seq<Route>, app: App, accepts: Route -> bool)
    ensures |Registrations(routes, app, accepts)| + |Rejections(routes, accepts)| == |routes|
    ensures forall i | 0 <= i < |routes| && accepts(routes[i]) ::
              UrlRule(routes[i], map["app" := app]) in Registrations(routes, app, accepts)
    ensures forall i | 0 <= i < |routes| && !accepts(routes[i]) :: routes[i] in Rejections(routes, accepts)
    ensures forall u | u in Registrations(routes, app, accepts) ::
              u.route in routes && accepts(u.route) && u.defaults == map["app" := app]
  {
    if routes != [] {
      var init := routes[..|routes| - 1];
      EveryRouteAttempted(init, app, accepts);
      forall i | 0 <= i < |routes| - 1 ensures init[i] == routes[i] { }
    }
  }

  /** A run that completes invokes the script of every entry, in list order. */
  lemma {:induction false} CompletedRunInvokesEveryEntry(entries: seq<ScriptEntry>)
    requires forall i | 0 <= i < |entries| :: entries[i].func.Some?
    ensures |Scripts(entries)| == |entries|
    ensures forall i | 0 <= i < |entries| :: Scripts(entries)[i] == entries[i].func.value
  {
    if entries != [] {
      var init := entries[..|entries| - 1];
      forall i | 0 <= i < |init| ensures init[i] == entries[i] { }
      CompletedRunInvokesEveryEntry(init);
    }
  }
}
