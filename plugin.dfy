/**
 * The host-plugin layer (QueryServerPlugin): which plugin registered which query
 * type, the case-insensitive set of names in use, and the replay of registrations
 * into a freshly started query server.
 */
module Plugin {
  import opened Wrappers
  import opened Text
  import opened Server

  /** A host plugin, by identity. */
  type PluginId = nat

  /** One registration as a plugin made it: the name as given, the handler and its thread affinity. */
  datatype RegisteredQueryType = RegisteredQueryType(queryName: string, handler: QueryHandler, sync: bool)

  /** The name under which a registration is known: lower-cased. */
  function Key(rq: RegisteredQueryType): string {
    ToLower(rq.queryName)
  }

  /** The registry entry a registration becomes in the server. */
  function Entry(rq: RegisteredQueryType): MyHandler {
    MyHandler(rq.handler, rq.sync)
  }

  /** The names of a set of registrations. */
  function NamesIn(s: set<RegisteredQueryType>): set<string> {
    set rq | rq in s :: Key(rq)
  }

  /** Every registration of every plugin. */
  function All(m: map<PluginId, set<RegisteredQueryType>>): set<RegisteredQueryType> {
    set p, rq | p in m && rq in m[p] :: rq
  }

  /** The set of registrations of plugin p, empty when it has none (pluginQueryMap.get). */
  function Of(m: map<PluginId, set<RegisteredQueryType>>, p: PluginId): set<RegisteredQueryType> {
    if p in m then m[p] else {}
  }

  /** No two registrations in s share a name. */
  ghost predicate Distinct(s: set<RegisteredQueryType>) {
    forall r1, r2 :: r1 in s && r2 in s && Key(r1) == Key(r2) ==> r1 == r2
  }

  /** No name is registered twice, whether by one plugin or by two. */
  ghost predicate Unique(m: map<PluginId, set<RegisteredQueryType>>) {
    forall p1, p2, r1, r2 ::
      p1 in m && p2 in m && r1 in m[p1] && r2 in m[p2] && Key(r1) == Key(r2) ==> p1 == p2 && r1 == r2
  }

  /** The server's registry holds exactly the names of s, each with the handler registered for it. */
  ghost predicate Mirrors(handlers: map<string, MyHandler>, s: set<RegisteredQueryType>) {
    && handlers.Keys == NamesIn(s)
    && (forall rq :: rq in s ==> Key(rq) in handlers && handlers[Key(rq)] == Entry(rq))
  }

  /** The plugin map after the replay at start-up: a disabled plugin keeps its key and loses its registrations. */
  function Started(m: map<PluginId, set<RegisteredQueryType>>, enabled: set<PluginId>): map<PluginId, set<RegisteredQueryType>> {
    map p | p in m :: if p in enabled then m[p] else {}
  }

  /** The plugin map while the replay is under way: the plugins in `done` have been handled. */
  function Replayed(m: map<PluginId, set<RegisteredQueryType>>, enabled: set<PluginId>, done: set<PluginId>)
    : map<PluginId, set<RegisteredQueryType>>
  {
    map p | p in m :: if p in done && p !in enabled then {} else m[p]
  }

  /** The registrations replayed into the server once the plugins in `done` have been handled. */
  function Forwarded(m: map<PluginId, set<RegisteredQueryType>>, enabled: set<PluginId>, done: set<PluginId>)
    : set<RegisteredQueryType>
  {
    set p, rq | p in m && p in done && p in enabled && rq in m[p] :: rq
  }

  // ---------------------------------------------------------------------------
  // Facts about the bookkeeping
  // ---------------------------------------------------------------------------

  /** With unique names over the plugins, the registrations of all plugins have distinct names. */
  lemma UniqueDistinct(m: map<PluginId, set<RegisteredQueryType>>)
    requires Unique(m)
    ensures Distinct(All(m))
  {
    forall r1, r2 | r1 in All(m) && r2 in All(m) && Key(r1) == Key(r2) ensures r1 == r2 {
      var p1 :| p1 in m && r1 in m[p1];
      var p2 :| p2 in m && r2 in m[p2];
    }
  }

  /** One more registration adds exactly its name. */
  lemma NamesAdd(s: set<RegisteredQueryType>, rq: RegisteredQueryType)
    ensures NamesIn(s + {rq}) == NamesIn(s) + {Key(rq)}
  {
    assert Key(rq) in NamesIn(s + {rq});
  }

  /** One more registration of `regs` handled by a loop over `rest` adds exactly its name. */
  lemma NamesMore(regs: set<RegisteredQueryType>, rest: set<RegisteredQueryType>, rq: RegisteredQueryType)
    requires rq in rest && rest <= regs
    ensures NamesIn(regs - (rest - {rq})) == NamesIn(regs - rest) + {Key(rq)}
  {
    assert regs - (rest - {rq}) == (regs - rest) + {rq};
    NamesAdd(regs - rest, rq);
  }

  /** Names of the registrations in a subset of s, taken away from the names of s. */
  lemma NamesMinus(s: set<RegisteredQueryType>, r: set<RegisteredQueryType>)
    requires r <= s && Distinct(s)
    ensures NamesIn(s - r) == NamesIn(s) - NamesIn(r)
  {
    forall name | name in NamesIn(s) - NamesIn(r) ensures name in NamesIn(s - r) {
      var rq :| rq in s && Key(rq) == name;
    }
    forall name | name in NamesIn(s - r) ensures name !in NamesIn(r) {
      var rq :| rq in s - r && Key(rq) == name;
    }
  }

  /** A registration whose name is new extends the mirrored registry by its entry. */
  lemma MirrorAdd(handlers: map<string, MyHandler>, s: set<RegisteredQueryType>, rq: RegisteredQueryType)
    requires Mirrors(handlers, s) && Key(rq) !in NamesIn(s)
    ensures Mirrors(handlers[Key(rq) := Entry(rq)], s + {rq})
  {
    NamesAdd(s, rq);
    forall r | r in s ensures Key(r) != Key(rq) {
      assert Key(r) in NamesIn(s);
    }
  }

  /** Removing some registrations' names from the mirrored registry mirrors what is left. */
  lemma MirrorMinus(handlers: map<string, MyHandler>, s: set<RegisteredQueryType>, r: set<RegisteredQueryType>)
    requires Mirrors(handlers, s) && r <= s && Distinct(s)
    ensures Mirrors(handlers - NamesIn(r), s - r)
  {
    NamesMinus(s, r);
    forall rq | rq in s - r ensures Key(rq) !in NamesIn(r) {
    }
  }

  /** A registration added to plugin p joins All. */
  lemma AllAdd(m: map<PluginId, set<RegisteredQueryType>>, p: PluginId, rq: RegisteredQueryType)
    ensures All(m[p := Of(m, p) + {rq}]) == All(m) + {rq}
  {
    var m' := m[p := Of(m, p) + {rq}];
    forall r | r in All(m') ensures r in All(m) + {rq} {
      var q :| q in m' && r in m'[q];
      if q != p {
        assert r in m[q];
      }
    }
    forall r | r in All(m) + {rq} ensures r in All(m') {
      if r != rq {
        var q :| q in m && r in m[q];
        assert r in m'[q];
      } else {
        assert r in m'[p];
      }
    }
  }

  /** A registration whose name is not in use, added to plugin p, keeps the names unique. */
  lemma UniqueAdd(m: map<PluginId, set<RegisteredQueryType>>, p: PluginId, rq: RegisteredQueryType)
    requires Unique(m) && Key(rq) !in NamesIn(All(m))
    ensures Unique(m[p := Of(m, p) + {rq}])
  {
    forall q, r | q in m && r in m[q] ensures Key(r) != Key(rq) {
      assert r in All(m);
      assert Key(r) in NamesIn(All(m));
    }
  }

  /** Removing plugin p takes exactly its registrations out of All, and names stay unique. */
  lemma RemovePlugin(m: map<PluginId, set<RegisteredQueryType>>, p: PluginId)
    requires Unique(m) && p in m
    ensures Unique(m - {p})
    ensures All(m - {p}) == All(m) - m[p]
  {
    var m' := m - {p};
    forall r | r in All(m) - m[p] ensures r in All(m') {
      var q :| q in m && r in m[q];
      assert r in m'[q];
    }
    forall r | r in All(m') ensures r in All(m) - m[p] {
      var q :| q in m' && r in m'[q];
      assert q != p && r in m[q];
      assert Key(r) == Key(r);
      assert r !in m[p];
    }
  }

  /** Emptying plugin p's set takes exactly its registrations out of All, and names stay unique. */
  lemma ClearPlugin(m: map<PluginId, set<RegisteredQueryType>>, p: PluginId)
    requires Unique(m) && p in m
    ensures Unique(m[p := {}])
    ensures All(m[p := {}]) == All(m) - m[p]
  {
    var m' := m[p := {}];
    forall r | r in All(m) - m[p] ensures r in All(m') {
      var q :| q in m && r in m[q];
      assert r in m'[q];
    }
    forall r | r in All(m') ensures r in All(m) - m[p] {
      var q :| q in m' && r in m'[q];
      assert q != p && r in m[q];
      assert Key(r) == Key(r);
      assert r !in m[p];
    }
  }

  /** One more plugin handled by the replay: an enabled one is forwarded, a disabled one is emptied. */
  lemma ReplayStep(m: map<PluginId, set<RegisteredQueryType>>, enabled: set<PluginId>, done: set<PluginId>, p: PluginId)
    requires p in m && p !in done
    ensures Forwarded(m, enabled, done + {p}) == Forwarded(m, enabled, done) + (if p in enabled then m[p] else {})
    ensures Replayed(m, enabled, done + {p})
         == if p in enabled then Replayed(m, enabled, done) else Replayed(m, enabled, done)[p := {}]
  {
    forall r | r in Forwarded(m, enabled, done + {p})
      ensures r in Forwarded(m, enabled, done) + (if p in enabled then m[p] else {})
    {
      var q :| q in m && q in done + {p} && q in enabled && r in m[q];
      if q != p {
        assert r in Forwarded(m, enabled, done);
      }
    }
  }

  /** Once every plugin is handled, the replay has forwarded exactly the registrations kept. */
  lemma ReplayDone(m: map<PluginId, set<RegisteredQueryType>>, enabled: set<PluginId>)
    ensures Replayed(m, enabled, m.Keys) == Started(m, enabled)
    ensures Forwarded(m, enabled, m.Keys) == All(Started(m, enabled))
  {
    var s := Started(m, enabled);
    forall r | r in All(s) ensures r in Forwarded(m, enabled, m.Keys) {
      var q :| q in s && r in s[q];
    }
    forall r | r in Forwarded(m, enabled, m.Keys) ensures r in All(s) {
      var q :| q in m && q in enabled && r in m[q];
      assert r in s[q];
    }
  }

  /** A replayed map keeps each plugin's registrations or none, so names stay unique. */
  lemma ReplayedUnique(m: map<PluginId, set<RegisteredQueryType>>, enabled: set<PluginId>, done: set<PluginId>)
    requires Unique(m)
    ensures Unique(Replayed(m, enabled, done))
    ensures All(Replayed(m, enabled, done)) <= All(m)
  {
    var m' := Replayed(m, enabled, done);
    forall p1, p2, r1, r2 | p1 in m' && p2 in m' && r1 in m'[p1] && r2 in m'[p2] && Key(r1) == Key(r2)
      ensures p1 == p2 && r1 == r2
    {
      assert r1 in m[p1] && r2 in m[p2];
    }
    forall r | r in All(m') ensures r in All(m) {
      var q :| q in m' && r in m'[q];
      assert r in m[q];
    }
  }

  /** No registration of a plugin not yet handled has been forwarded. */
  lemma ForwardedApart(m: map<PluginId, set<RegisteredQueryType>>, enabled: set<PluginId>, done: set<PluginId>, p: PluginId)
    requires Unique(m) && p in m && p !in done
    ensures Forwarded(m, enabled, done) !! m[p]
  {
    forall r | r in Forwarded(m, enabled, done) ensures r !in m[p] {
      var q :| q in m && q in done && q in enabled && r in m[q];
      assert Key(r) == Key(r);
    }
  }

  /** The registrations forwarded so far are those of the replayed map from the handled plugins. */
  lemma ForwardedWithin(m: map<PluginId, set<RegisteredQueryType>>, enabled: set<PluginId>, done: set<PluginId>)
    ensures Forwarded(m, enabled, done) <= All(m)
  {
    forall r | r in Forwarded(m, enabled, done) ensures r in All(m) {
      var q :| q in m && q in done && q in enabled && r in m[q];
    }
  }

  // ---------------------------------------------------------------------------
  // Replaying registrations into a server
  // ---------------------------------------------------------------------------

  /**
   * Forwards every registration of `regs` to the server (the inner loop of the
   * replay). The names are new to the registry, which already mirrors `before`.
   */
  method ForwardAll(server: QueryServer, regs: set<RegisteredQueryType>, ghost before: set<RegisteredQueryType>)
    requires server.Valid() && Mirrors(server.handlers, before)
    requires Distinct(before + regs) && before !! regs
    modifies server
    ensures server.Valid() && Mirrors(server.handlers, before + regs)
    ensures server.executor == old(server.executor) && server.running == old(server.running)
    ensures server.connCleaner == old(server.connCleaner)
  {
    var rest := regs;
    assert regs - rest == {} && before + {} == before;
    while rest != {}
      invariant rest <= regs && Forwarding(server, before, regs - rest, regs)
      invariant server.executor == old(server.executor) && server.running == old(server.running)
      invariant server.connCleaner == old(server.connCleaner)
      decreases |rest|
    {
      var rq :| rq in rest;
      ForwardOne(server, rq, before, rest, regs);
      rest := rest - {rq};
    }
    assert regs - rest == regs;
  }

  /** Part-way through ForwardAll: the registry mirrors `before` and the registrations of `done`. */
  ghost predicate Forwarding(server: QueryServer, before: set<RegisteredQueryType>,
                             done: set<RegisteredQueryType>, regs: set<RegisteredQueryType>)
    reads server
  {
    && server.Valid() && Mirrors(server.handlers, before + done)
    && Distinct(before + regs) && before !! regs && done <= regs
  }

  /** One turn of ForwardAll: a registration still to forward goes to the server. */
  method ForwardOne(server: QueryServer, rq: RegisteredQueryType, ghost before: set<RegisteredQueryType>,
                    ghost rest: set<RegisteredQueryType>, ghost regs: set<RegisteredQueryType>)
    requires Forwarding(server, before, regs - rest, regs) && rq in rest && rest <= regs
    modifies server
    ensures Forwarding(server, before, regs - (rest - {rq}), regs)
    ensures server.executor == old(server.executor) && server.running == old(server.running)
    ensures server.connCleaner == old(server.connCleaner)
  {
    assert regs - (rest - {rq}) == (regs - rest) + {rq};
    ForwardStep(server.handlers, before, regs - rest, regs, rq);
    server.AddQueryType(rq.queryName, rq.handler, rq.sync);
  }

  /** Forwarding one more registration, not yet forwarded, keeps the registry a mirror. */
  lemma ForwardStep(handlers: map<string, MyHandler>, before: set<RegisteredQueryType>,
                    done: set<RegisteredQueryType>, regs: set<RegisteredQueryType>, rq: RegisteredQueryType)
    requires Mirrors(handlers, before + done)
    requires Distinct(before + regs) && before !! regs && done <= regs && rq in regs && rq !in done
    ensures Mirrors(handlers[Key(rq) := Entry(rq)], before + (done + {rq}))
  {
    forall r | r in before + done ensures Key(r) != Key(rq) {
      assert r in before + regs;
    }
    MirrorAdd(handlers, before + done, rq);
    assert before + done + {rq} == before + (done + {rq});
  }

  // ---------------------------------------------------------------------------
  // The plugin
  // ---------------------------------------------------------------------------

  class QueryServerPlugin {
    var server: QueryServer?
    var executor: Option<Executor>
    var queryNames: set<string>
    var pluginQueryMap: map<PluginId, set<RegisteredQueryType>>

    /**
     * The bookkeeping invariant: the names in use are the lower-cased names of all
     * registrations, no name is registered twice, and a server exists exactly
     * while an executor does; its registry then mirrors the registrations.
     */
    ghost predicate Valid()
      reads this, server
    {
      && queryNames == NamesIn(All(pluginQueryMap))
      && Unique(pluginQueryMap)
      && (server == null <==> executor.None?)
      && (server != null ==>
            server.Valid() && server.executor == executor && Mirrors(server.handlers, All(pluginQueryMap)))
    }

    constructor ()
      ensures Valid()
      ensures server == null && executor == None && queryNames == {} && pluginQueryMap == map[]
    {
      server := null;
      executor := None;
      queryNames := {};
      pluginQueryMap := map[];
    }

    /**
     * Registers a query type for a plugin. A name already in use, in any letter
     * case, is rejected and nothing changes; otherwise the registration joins the
     * plugin's set and, while a server exists, its registry.
     */
    method RegisterQueryType(query: string, handler: QueryHandler, runInPrimaryThread: bool, plugin: PluginId)
      requires Valid()
      modifies this, server
      ensures Valid()
      ensures server == old(server) && executor == old(executor)
      ensures server != null ==>
                server.running == old(server.running) && server.connCleaner == old(server.connCleaner)
      ensures ToLower(query) in old(queryNames) ==>
                && queryNames == old(queryNames) && pluginQueryMap == old(pluginQueryMap)
                && (server != null ==> server.handlers == old(server.handlers))
      ensures ToLower(query) !in old(queryNames) ==>
                var rq := RegisteredQueryType(query, handler, runInPrimaryThread);
                && pluginQueryMap == old(pluginQueryMap)[plugin := Of(old(pluginQueryMap), plugin) + {rq}]
                && queryNames == old(queryNames) + {ToLower(query)}
                && (server != null ==>
                      server.handlers == old(server.handlers)[ToLower(query) := MyHandler(handler, runInPrimaryThread)])
    {
      var queryToLowerCase := ToLower(query);
      if queryToLowerCase in queryNames {
        return;
      }
      var queryType := RegisteredQueryType(query, handler, runInPrimaryThread);
      ghost var m := pluginQueryMap;
      AllAdd(m, plugin, queryType);
      UniqueAdd(m, plugin, queryType);
      NamesAdd(All(m), queryType);
      var pluginQueries := if plugin in pluginQueryMap then pluginQueryMap[plugin] else {};
      pluginQueryMap := pluginQueryMap[plugin := pluginQueries + {queryType}];
      queryNames := queryNames + {queryToLowerCase};
      if server != null {
        ToLowerIdempotent(query);
        MirrorAdd(server.handlers, All(m), queryType);
        server.AddQueryType(queryToLowerCase, handler, runInPrimaryThread);
      }
    }

    /**
     * A plugin was disabled: its entry leaves the map and each of its names leaves
     * the set of names in use and the server's registry. Everything of other
     * plugins stays. The server must exist when the plugin had registrations.
     */
    method OnPluginDisable(plugin: PluginId)
      requires Valid()
      requires server != null || plugin !in pluginQueryMap || pluginQueryMap[plugin] == {}
      modifies this, server
      ensures Valid()
      ensures server == old(server) && executor == old(executor)
      ensures server != null ==>
                server.running == old(server.running) && server.connCleaner == old(server.connCleaner)
      ensures pluginQueryMap == old(pluginQueryMap) - {plugin}
      ensures queryNames == old(queryNames) - NamesIn(Of(old(pluginQueryMap), plugin))
      ensures server != null ==>
                server.handlers == old(server.handlers) - NamesIn(Of(old(pluginQueryMap), plugin))
    {
      if plugin !in pluginQueryMap {
        assert NamesIn({}) == {};
        return;
      }
      ghost var m := pluginQueryMap;
      var pluginQueries := pluginQueryMap[plugin];
      pluginQueryMap := pluginQueryMap - {plugin};
      Unregister(pluginQueries);
      RemovePlugin(m, plugin);
      UniqueDistinct(m);
      NamesMinus(All(m), pluginQueries);
      if server != null {
        MirrorMinus(old(server.handlers), All(m), pluginQueries);
      }
    }

    /**
     * The loop of OnPluginDisable: each name of `regs` leaves the set of names in
     * use and the server's registry.
     */
    method Unregister(regs: set<RegisteredQueryType>)
      requires server != null || regs == {}
      requires server != null ==> server.Valid()
      modifies this, server
      ensures server == old(server) && executor == old(executor) && pluginQueryMap == old(pluginQueryMap)
      ensures queryNames == old(queryNames) - NamesIn(regs)
      ensures server != null ==>
                && server.Valid() && server.executor == old(server.executor)
                && server.running == old(server.running) && server.connCleaner == old(server.connCleaner)
                && server.handlers == old(server.handlers) - NamesIn(regs)
    {
      var rest := regs;
      assert regs - rest == {} && NamesIn({}) == {};
      while rest != {}
        invariant rest <= regs
        invariant server == old(server) && executor == old(executor) && pluginQueryMap == old(pluginQueryMap)
        invariant queryNames == old(queryNames) - NamesIn(regs - rest)
        invariant server != null ==>
                    && server.Valid() && server.executor == old(server.executor)
                    && server.running == old(server.running) && server.connCleaner == old(server.connCleaner)
                    && server.handlers == old(server.handlers) - NamesIn(regs - rest)
        decreases |rest|
      {
        var queryType :| queryType in rest;
        NamesMore(regs, rest, queryType);
        UnregisterOne(queryType);
        rest := rest - {queryType};
      }
      assert regs - rest == regs;
    }

    /** One turn of Unregister: the name of one registration leaves the names in use and the registry. */
    method UnregisterOne(queryType: RegisteredQueryType)
      requires server != null && server.Valid()
      modifies this, server
      ensures server == old(server) && executor == old(executor) && pluginQueryMap == old(pluginQueryMap)
      ensures queryNames == old(queryNames) - {Key(queryType)}
      ensures && server.Valid() && server.executor == old(server.executor)
              && server.running == old(server.running) && server.connCleaner == old(server.connCleaner)
              && server.handlers == old(server.handlers) - {Key(queryType)}
    {
      queryNames := queryNames - {Key(queryType)};
      server.RemoveQueryType(queryType.queryName);
    }

    /**
     * Sets up and starts a server unless one exists: a fresh server with the
     * given pool as executor, into which the registrations of the enabled plugins
     * are replayed; the registrations of the other plugins are dropped.
     */
    method StartServer(enabled: set<PluginId>, pool: Executor)
      requires Valid()
      modifies this
      ensures Valid()
      ensures old(server) != null ==>
                && server == old(server) && executor == old(executor)
                && queryNames == old(queryNames) && pluginQueryMap == old(pluginQueryMap)
      ensures old(server) == null ==>
                && fresh(server) && server.running && executor == Some(pool)
                && pluginQueryMap == Started(old(pluginQueryMap), enabled)
    {
      if server != null {
        return;
      }
      var s := new QueryServer();
      server := s;
      executor := Some(pool);
      var _ := s.SetExecutor(Some(pool));
      ghost var m := pluginQueryMap;
      ReplayBegins(m, enabled, s, pool);
      ReplayAll(enabled, m, s, pool);
      ReplayComplete(m, enabled, s, pool);
      var _ := s.Start();
    }

    /** The replay loop of StartServer: every plugin of the map is handled once. */
    method ReplayAll(enabled: set<PluginId>, ghost m: map<PluginId, set<RegisteredQueryType>>, s: QueryServer, pool: Executor)
      requires Replaying(m, enabled, {}, s, pool)
      modifies this, s
      ensures Replaying(m, enabled, m.Keys, s, pool)
    {
      var keys := pluginQueryMap.Keys;
      assert m.Keys - keys == {};
      while keys != {}
        invariant keys <= m.Keys && Replaying(m, enabled, m.Keys - keys, s, pool)
        decreases |keys|
      {
        var p :| p in keys;
        ReplayPlugin(p, enabled, m, keys, s, pool);
        keys := keys - {p};
      }
      assert m.Keys - keys == m.Keys;
    }

    /** Before any plugin is handled, the replayed map is the map itself and nothing is forwarded. */
    lemma ReplayBegins(m: map<PluginId, set<RegisteredQueryType>>, enabled: set<PluginId>, s: QueryServer, pool: Executor)
      requires Unique(m) && pluginQueryMap == m && queryNames == NamesIn(All(m))
      requires server == s && executor == Some(pool)
      requires s.Valid() && s.executor == Some(pool) && !s.running && s.handlers == map[]
      ensures Replaying(m, enabled, {}, s, pool)
    {
      assert Replayed(m, enabled, {}) == m;
      assert Forwarded(m, enabled, {}) == {};
    }

    /** When every plugin is handled, the replay has reached the started map and the invariant holds again. */
    lemma ReplayComplete(m: map<PluginId, set<RegisteredQueryType>>, enabled: set<PluginId>, s: QueryServer, pool: Executor)
      requires Replaying(m, enabled, m.Keys, s, pool)
      ensures Valid() && pluginQueryMap == Started(m, enabled)
    {
      ReplayDone(m, enabled);
      ReplayedUnique(m, enabled, m.Keys);
    }

    /**
     * Part-way through the replay of StartServer, once the plugins of `done` are
     * handled: the map is replayed that far and the server's registry mirrors the
     * registrations forwarded so far.
     */
    ghost predicate Replaying(m: map<PluginId, set<RegisteredQueryType>>, enabled: set<PluginId>,
                              done: set<PluginId>, s: QueryServer, pool: Executor)
      reads this, s
    {
      && Unique(m) && server == s && executor == Some(pool)
      && pluginQueryMap == Replayed(m, enabled, done)
      && queryNames == NamesIn(All(pluginQueryMap))
      && s.Valid() && s.executor == Some(pool) && !s.running
      && Mirrors(s.handlers, Forwarded(m, enabled, done))
    }

    /**
     * One turn of the replay: an enabled plugin's registrations are forwarded to
     * the server, a disabled plugin's are dropped.
     */
    method ReplayPlugin(p: PluginId, enabled: set<PluginId>, ghost m: map<PluginId, set<RegisteredQueryType>>,
                        ghost keys: set<PluginId>, s: QueryServer, pool: Executor)
      requires p in keys && keys <= m.Keys && Replaying(m, enabled, m.Keys - keys, s, pool)
      modifies this, s
      ensures Replaying(m, enabled, m.Keys - (keys - {p}), s, pool)
    {
      ghost var done := m.Keys - keys;
      assert m.Keys - (keys - {p}) == done + {p};
      ReplayStep(m, enabled, done, p);
      ReplayedUnique(m, enabled, done);
      assert pluginQueryMap[p] == m[p];
      if p in enabled {
        UniqueDistinct(m);
        ForwardedWithin(m, enabled, done);
        ForwardedApart(m, enabled, done, p);
        assert Forwarded(m, enabled, done) + m[p] <= All(m);
        ForwardAll(s, pluginQueryMap[p], Forwarded(m, enabled, done));
        assert Forwarded(m, enabled, done + {p}) == Forwarded(m, enabled, done) + m[p];
        assert Replayed(m, enabled, done + {p}) == Replayed(m, enabled, done);
      } else {
        DropQueries(p);
        assert Forwarded(m, enabled, done + {p}) == Forwarded(m, enabled, done);
        assert Replayed(m, enabled, done + {p}) == Replayed(m, enabled, done)[p := {}];
      }
    }

    /**
     * The branch of the replay for a disabled plugin: each of its names leaves the
     * set of names in use, then its set is emptied (the key stays).
     */
    method DropQueries(plugin: PluginId)
      requires plugin in pluginQueryMap
      requires queryNames == NamesIn(All(pluginQueryMap)) && Unique(pluginQueryMap)
      modifies this
      ensures server == old(server) && executor == old(executor)
      ensures pluginQueryMap == old(pluginQueryMap)[plugin := {}]
      ensures queryNames == NamesIn(All(pluginQueryMap)) && Unique(pluginQueryMap)
    {
      ghost var m := pluginQueryMap;
      ForgetNames(pluginQueryMap[plugin]);
      pluginQueryMap := pluginQueryMap[plugin := {}];
      ClearPlugin(m, plugin);
      UniqueDistinct(m);
      NamesMinus(All(m), m[plugin]);
    }

    /** Takes the name of each registration of `regs` out of the set of names in use, one by one. */
    method ForgetNames(regs: set<RegisteredQueryType>)
      modifies this
      ensures queryNames == old(queryNames) - NamesIn(regs)
      ensures server == old(server) && executor == old(executor) && pluginQueryMap == old(pluginQueryMap)
    {
      var rest := regs;
      assert regs - rest == {} && NamesIn({}) == {};
      while rest != {}
        invariant rest <= regs
        invariant queryNames == old(queryNames) - NamesIn(regs - rest)
        invariant server == old(server) && executor == old(executor) && pluginQueryMap == old(pluginQueryMap)
        decreases |rest|
      {
        var queryType :| queryType in rest;
        NamesMore(regs, rest, queryType);
        queryNames := queryNames - {Key(queryType)};
        rest := rest - {queryType};
      }
      assert regs - rest == regs;
    }

    /**
     * Stops the server if one exists and forgets it and its executor. When the
     * server's listener has already died, its stop fails with an illegal-state
     * error and the plugin keeps the server.
     */
    method StopServer() returns (o: Outcome)
      requires Valid()
      modifies this, if server != null then server.StopFrame() else {}
      ensures Valid()
      ensures queryNames == old(queryNames) && pluginQueryMap == old(pluginQueryMap)
      ensures old(server) == null ==> o == Pass && server == null && executor == old(executor)
      ensures old(server) != null && old(server.running) ==>
                && o == Pass && server == null && executor == None
                && !old(server).running && old(server.connCleaner).stopAll
      ensures old(server) != null && !old(server.running) ==>
                o == Fail(IllegalState) && server == old(server) && executor == old(executor) && unchanged(server)
      ensures old(server) != null && !old(server.running) && old(server.connCleaner) != null ==>
                unchanged(old(server.connCleaner))
                && forall s :: s in old(server.connCleaner.Sockets()) ==> unchanged(s)
    {
      if server == null {
        return Pass;
      }
      o := server.Stop();
      if o.Fail? {
        return;
      }
      server := null;
      executor := None;
    }
  }
}
