/**
 * The listener-set reconciler of internal/sqlproxy (WatchInstances and
 * watchInstancesLoop, written identically in proxy.go and sqlproxy.go), and
 * the instance configurations that CreateProxy and GetInstance hand to it.
 *
 * Opening a listener (listenInstance, that is net.Listen plus an accept loop)
 * is an oracle: `listenOk(cfg)` says whether it succeeds, and a success yields
 * a fresh opaque handle numbered from a counter. Closing a listener is
 * recorded by returning the closed handles.
 */
module SqlProxy {
  import opened Wrappers
  import opened GoStrconv

  /** An open local listening socket. */
  datatype Listener = Listener(id: nat)

  datatype InstanceConfig = InstanceConfig(instance: string, network: string, address: string)

  /** The instance names that occur in `cfgs`. */
  function Names(cfgs: seq<InstanceConfig>): set<string> {
    if cfgs == [] then {} else Names(cfgs[..|cfgs| - 1]) + {cfgs[|cfgs| - 1].instance}
  }

  /** The instance names of `cfgs` with at least one configuration whose listener opens. */
  function Opening(cfgs: seq<InstanceConfig>, listenOk: InstanceConfig -> bool): set<string> {
    if cfgs == [] then {}
    else Opening(cfgs[..|cfgs| - 1], listenOk)
         + (if listenOk(cfgs[|cfgs| - 1]) then {cfgs[|cfgs| - 1].instance} else {})
  }

  /** The configurations of `cfgs` that are neither static nor already open, in order. */
  function NewConfigs(cfgs: seq<InstanceConfig>, statics: map<string, Listener>,
                      dynamic: map<string, Listener>): seq<InstanceConfig>
  {
    if cfgs == [] then []
    else
      var last := cfgs[|cfgs| - 1];
      NewConfigs(cfgs[..|cfgs| - 1], statics, dynamic)
      + (if last.instance !in statics && last.instance !in dynamic then [last] else [])
  }

  predicate DistinctInstances(cfgs: seq<InstanceConfig>) {
    forall a, b :: 0 <= a < b < |cfgs| ==> cfgs[a].instance != cfgs[b].instance
  }

  /** The dynamic entries that no non-static configuration of `cfgs` names. */
  function Vanished(cfgs: seq<InstanceConfig>, statics: map<string, Listener>,
                    dynamic: map<string, Listener>): map<string, Listener>
  {
    map k | k in dynamic && k !in Names(cfgs) - statics.Keys :: dynamic[k]
  }

  /**
   * Going through the keys of `m` in the order `keys`, each exactly once, the
   * listener of each is closed: `closed[i]` is the listener of `keys[i]`.
   */
  predicate ClosesExactly(keys: seq<string>, closed: seq<Listener>, m: map<string, Listener>) {
    && |keys| == |closed|
    && multiset(keys) == multiset(m.Keys)
    && (forall i :: 0 <= i < |keys| ==> keys[i] in m && closed[i] == m[keys[i]])
  }

  lemma {:induction false} NamesOfPrefix(cfgs: seq<InstanceConfig>, i: nat, k: string)
    requires i <= |cfgs|
    requires k in Names(cfgs[..i])
    ensures exists j :: 0 <= j < i && cfgs[j].instance == k
  {
    var p := cfgs[..i];
    if k != p[i - 1].instance {
      assert p[..i - 1] == cfgs[..i - 1];
      NamesOfPrefix(cfgs, i - 1, k);
    }
  }

  lemma NotYetNamed(cfgs: seq<InstanceConfig>, i: nat)
    requires DistinctInstances(cfgs) && i < |cfgs|
    ensures cfgs[i].instance !in Names(cfgs[..i])
  {
    if cfgs[i].instance in Names(cfgs[..i]) {
      NamesOfPrefix(cfgs, i, cfgs[i].instance);
    }
  }

  lemma {:induction false} OpeningWithinNames(cfgs: seq<InstanceConfig>, listenOk: InstanceConfig -> bool)
    ensures Opening(cfgs, listenOk) <= Names(cfgs)
  {
    if cfgs != [] {
      OpeningWithinNames(cfgs[..|cfgs| - 1], listenOk);
    }
  }

  lemma NamesWithin(cfgs: seq<InstanceConfig>, keys: set<string>)
    requires forall j :: 0 <= j < |cfgs| ==> cfgs[j].instance in keys
    ensures Names(cfgs) <= keys
  {
    forall k | k in Names(cfgs)
      ensures k in keys
    {
      assert cfgs[..|cfgs|] == cfgs;
      NamesOfPrefix(cfgs, |cfgs|, k);
    }
  }

  lemma NamesOfWhole(cfgs: seq<InstanceConfig>)
    ensures forall j :: 0 <= j < |cfgs| ==> cfgs[j].instance in Names(cfgs)
  {
    if cfgs != [] {
      var p := cfgs[..|cfgs| - 1];
      NamesOfWhole(p);
      assert forall j :: 0 <= j < |p| ==> p[j] == cfgs[j];
    }
  }

  /**
   * Closing every listener of a map, in Go's unspecified map order
   * (the loops of watchInstancesLoop over dynamicInstances and static).
   */
  method CloseAll(m: map<string, Listener>) returns (keys: seq<string>, closed: seq<Listener>)
    ensures ClosesExactly(keys, closed, m)
  {
    var rest := m;
    keys := [];
    closed := [];
    while rest != map[]
      invariant rest.Keys <= m.Keys
      invariant forall k :: k in rest ==> rest[k] == m[k]
      invariant multiset(keys) + multiset(rest.Keys) == multiset(m.Keys)
      invariant |keys| == |closed|
      invariant forall i :: 0 <= i < |keys| ==> keys[i] in m && closed[i] == m[keys[i]]
      decreases |rest|
    {
      var k :| k in rest;
      keys := keys + [k];
      closed := closed + [rest[k]];
      assert rest.Keys == (rest - {k}).Keys + {k};
      assert multiset(rest.Keys) == multiset((rest - {k}).Keys) + multiset{k};
      rest := rest - {k};
    }
    assert multiset(rest.Keys) == multiset{};
  }

  /** What one update step has built after going through a prefix of the desired list. */
  datatype StepState = StepState(
    unclaimed: map<string, Listener>,   // dynamic entries not yet found in the list
    stillOpen: map<string, Listener>,   // the next dynamic map
    attempts: seq<InstanceConfig>,      // configurations an open was tried for
    next: nat)                          // the next fresh handle

  /** One configuration of the update step: skip static, carry dynamic, else try to open. */
  function ReconcileOne(s: StepState, cfg: InstanceConfig, statics: map<string, Listener>,
                        listenOk: InstanceConfig -> bool): StepState
  {
    var instance := cfg.instance;
    if instance in statics then s
    else if instance in s.unclaimed then
      s.(unclaimed := s.unclaimed - {instance},
         stillOpen := s.stillOpen[instance := s.unclaimed[instance]])
    else if listenOk(cfg) then
      s.(stillOpen := s.stillOpen[instance := Listener(s.next)],
         attempts := s.attempts + [cfg], next := s.next + 1)
    else s.(attempts := s.attempts + [cfg])
  }

  /** The update step over the whole desired list, configuration by configuration. */
  function Reconcile(list: seq<InstanceConfig>, statics: map<string, Listener>,
                     dynamic: map<string, Listener>, listenOk: InstanceConfig -> bool,
                     next: nat): StepState
  {
    if list == [] then StepState(dynamic, map[], [], next)
    else
      ReconcileOne(Reconcile(list[..|list| - 1], statics, dynamic, listenOk, next),
                   list[|list| - 1], statics, listenOk)
  }

  /** The entries left unclaimed, and so closed, are those no longer desired. */
  lemma {:induction false} ReconcileUnclaimed(list: seq<InstanceConfig>, statics: map<string, Listener>,
                                              dynamic: map<string, Listener>,
                                              listenOk: InstanceConfig -> bool, next: nat)
    ensures Reconcile(list, statics, dynamic, listenOk, next).unclaimed == Vanished(list, statics, dynamic)
  {
    if list != [] {
      var p := list[..|list| - 1];
      ReconcileUnclaimed(p, statics, dynamic, listenOk, next);
      assert Names(list) == Names(p) + {list[|list| - 1].instance};
    }
  }

  /** Only desired, non-static instances stay open dynamically. */
  lemma {:induction false} ReconcileKeys(list: seq<InstanceConfig>, statics: map<string, Listener>,
                                         dynamic: map<string, Listener>,
                                         listenOk: InstanceConfig -> bool, next: nat)
    ensures Reconcile(list, statics, dynamic, listenOk, next).stillOpen.Keys <= Names(list) - statics.Keys
  {
    if list != [] {
      ReconcileKeys(list[..|list| - 1], statics, dynamic, listenOk, next);
    }
  }

  /** A dynamic entry that is still desired is carried forward, not reopened. */
  lemma {:induction false} ReconcileCarries(list: seq<InstanceConfig>, statics: map<string, Listener>,
                                            dynamic: map<string, Listener>,
                                            listenOk: InstanceConfig -> bool, next: nat)
    ensures forall k :: k in dynamic && k in Names(list) && k !in statics ==>
              k in Reconcile(list, statics, dynamic, listenOk, next).stillOpen
  {
    if list != [] {
      var p := list[..|list| - 1];
      ReconcileCarries(p, statics, dynamic, listenOk, next);
      ReconcileUnclaimed(p, statics, dynamic, listenOk, next);
    }
  }

  /**
   * Every handle kept is the one the dynamic map had for it, or was opened in
   * this step; a fresh handle is used per successful open, never more than tried.
   */
  lemma {:induction false} ReconcileHandles(list: seq<InstanceConfig>, statics: map<string, Listener>,
                                            dynamic: map<string, Listener>,
                                            listenOk: InstanceConfig -> bool, next: nat)
    ensures var r := Reconcile(list, statics, dynamic, listenOk, next);
            && next <= r.next <= next + |r.attempts|
            && forall k :: k in r.stillOpen ==>
                 (k in dynamic && r.stillOpen[k] == dynamic[k]) || next <= r.stillOpen[k].id < r.next
  {
    if list != [] {
      var p := list[..|list| - 1];
      ReconcileHandles(p, statics, dynamic, listenOk, next);
      ReconcileUnclaimed(p, statics, dynamic, listenOk, next);
    }
  }

  /** When every instance is listed once, a carried entry keeps its very handle. */
  lemma {:induction false} ReconcileKeepsHandles(list: seq<InstanceConfig>, statics: map<string, Listener>,
                                                 dynamic: map<string, Listener>,
                                                 listenOk: InstanceConfig -> bool, next: nat)
    requires DistinctInstances(list)
    ensures var r := Reconcile(list, statics, dynamic, listenOk, next);
            forall k :: k in dynamic && k in r.stillOpen ==> r.stillOpen[k] == dynamic[k]
  {
    if list != [] {
      var p := list[..|list| - 1];
      ReconcileKeepsHandles(p, statics, dynamic, listenOk, next);
      ReconcileUnclaimed(p, statics, dynamic, listenOk, next);
      assert list[..|list| - 1] == p;
      NotYetNamed(list, |list| - 1);
    }
  }

  /** A new desired instance is open afterwards exactly when one of its listeners opened. */
  lemma {:induction false} ReconcileOpens(list: seq<InstanceConfig>, statics: map<string, Listener>,
                                          dynamic: map<string, Listener>,
                                          listenOk: InstanceConfig -> bool, next: nat)
    ensures forall k :: k in Names(list) && k !in statics && k !in dynamic ==>
              (k in Reconcile(list, statics, dynamic, listenOk, next).stillOpen <==> k in Opening(list, listenOk))
  {
    if list != [] {
      var p := list[..|list| - 1];
      ReconcileOpens(p, statics, dynamic, listenOk, next);
      ReconcileUnclaimed(p, statics, dynamic, listenOk, next);
      ReconcileKeys(p, statics, dynamic, listenOk, next);
      OpeningWithinNames(p, listenOk);
    }
  }

  /**
   * Opens are only tried for listed, non-static instances; when every instance
   * is listed once, exactly for those neither static nor already open.
   */
  lemma {:induction false} ReconcileAttempts(list: seq<InstanceConfig>, statics: map<string, Listener>,
                                             dynamic: map<string, Listener>,
                                             listenOk: InstanceConfig -> bool, next: nat)
    ensures var r := Reconcile(list, statics, dynamic, listenOk, next);
            && (forall j :: 0 <= j < |r.attempts| ==> r.attempts[j] in list && r.attempts[j].instance !in statics)
            && (DistinctInstances(list) ==> r.attempts == NewConfigs(list, statics, dynamic))
  {
    if list != [] {
      var p := list[..|list| - 1];
      ReconcileAttempts(p, statics, dynamic, listenOk, next);
      ReconcileUnclaimed(p, statics, dynamic, listenOk, next);
      var r := Reconcile(list, statics, dynamic, listenOk, next);
      var rp := Reconcile(p, statics, dynamic, listenOk, next);
      assert forall j :: 0 <= j < |rp.attempts| ==> rp.attempts[j] in list by {
        forall j | 0 <= j < |rp.attempts|
          ensures rp.attempts[j] in list
        {
          var x :| 0 <= x < |p| && p[x] == rp.attempts[j];
          assert list[x] == p[x];
        }
      }
      if DistinctInstances(list) {
        assert DistinctInstances(p);
        NotYetNamed(list, |list| - 1);
      }
    }
  }

  /**
   * One iteration of watchInstancesLoop for the desired configurations `list`
   * (which the source always takes to be `cfgs`): the new dynamic map, the
   * listeners closed, the configurations an open was tried for.
   */
  method UpdateStep(list: seq<InstanceConfig>, statics: map<string, Listener>,
                    dynamic: map<string, Listener>, listenOk: InstanceConfig -> bool, next: nat)
    returns (stillOpen: map<string, Listener>, closedKeys: seq<string>, closed: seq<Listener>,
             attempts: seq<InstanceConfig>, next': nat)
    ensures var r := Reconcile(list, statics, dynamic, listenOk, next);
            stillOpen == r.stillOpen && attempts == r.attempts && next' == r.next
    // the listeners closed are exactly those of the dynamic entries no longer desired
    ensures ClosesExactly(closedKeys, closed, Vanished(list, statics, dynamic))
  {
    var dyn := dynamic;
    stillOpen := map[];
    attempts := [];
    next' := next;
    var i := 0;
    while i < |list|
      invariant 0 <= i <= |list|
      invariant StepState(dyn, stillOpen, attempts, next') == Reconcile(list[..i], statics, dynamic, listenOk, next)
    {
      var cfg := list[i];
      var instance := cfg.instance;
      assert list[..i + 1][..i] == list[..i];
      if instance in statics {
        // already open and stays open for good
      } else if instance in dyn {
        var l := dyn[instance];
        dyn := dyn - {instance};
        stillOpen := stillOpen[instance := l];
      } else {
        attempts := attempts + [cfg];
        if listenOk(cfg) {
          stillOpen := stillOpen[instance := Listener(next')];
          next' := next' + 1;
        }
      }
      i := i + 1;
    }
    assert list[..i] == list;
    ReconcileUnclaimed(list, statics, dynamic, listenOk, next);
    closedKeys, closed := CloseAll(dyn);
  }

  /** When every configured instance is static, an update step from an empty dynamic map does nothing. */
  lemma AllStaticStep(list: seq<InstanceConfig>, statics: map<string, Listener>,
                      listenOk: InstanceConfig -> bool, next: nat)
    requires forall j :: 0 <= j < |list| ==> list[j].instance in statics
    ensures Reconcile(list, statics, map[], listenOk, next) == StepState(map[], map[], [], next)
    ensures Vanished(list, statics, map[]) == map[]
  {
    NamesWithin(list, statics.Keys);
    ReconcileKeys(list, statics, map[], listenOk, next);
    ReconcileAttempts(list, statics, map[], listenOk, next);
    ReconcileHandles(list, statics, map[], listenOk, next);
    ReconcileUnclaimed(list, statics, map[], listenOk, next);
  }

  /** On shutdown every static listener is closed, then every remaining dynamic one. */
  method Shutdown(statics: map<string, Listener>, dynamic: map<string, Listener>)
    returns (staticKeys: seq<string>, dynamicKeys: seq<string>, closed: seq<Listener>)
    ensures |closed| == |statics| + |dynamic|
    ensures ClosesExactly(staticKeys, closed[..|statics|], statics)
    ensures ClosesExactly(dynamicKeys, closed[|statics|..], dynamic)
  {
    var closedStatic, closedDynamic;
    staticKeys, closedStatic := CloseAll(statics);
    dynamicKeys, closedDynamic := CloseAll(dynamic);
    closed := closedStatic + closedDynamic;
    assert |staticKeys| == |statics| by {
      assert |multiset(staticKeys)| == |multiset(statics.Keys)|;
    }
    assert closed[..|statics|] == closedStatic;
    assert closed[|statics|..] == closedDynamic;
    assert |dynamicKeys| == |dynamic| by {
      assert |multiset(dynamicKeys)| == |multiset(dynamic.Keys)|;
    }
  }

  /**
   * watchInstancesLoop: one update step per event received on `updates` (each
   * event's payload is discarded; `updates[e]` is how opening listeners fares at
   * that event), then the shutdown when the channel is closed.
   */
  method WatchInstancesLoop(statics: map<string, Listener>, cfgs: seq<InstanceConfig>,
                            updates: seq<InstanceConfig -> bool>, next: nat)
    returns (stepCloses: seq<seq<Listener>>, dynamic: map<string, Listener>,
             staticKeys: seq<string>, dynamicKeys: seq<string>, shutdownClosed: seq<Listener>, next': nat)
    // the dynamic map only ever holds configured, non-static instances
    ensures dynamic.Keys <= Names(cfgs) - statics.Keys
    ensures |stepCloses| == |updates|
    ensures |shutdownClosed| == |statics| + |dynamic|
    ensures ClosesExactly(staticKeys, shutdownClosed[..|statics|], statics)
    ensures ClosesExactly(dynamicKeys, shutdownClosed[|statics|..], dynamic)
    // every step iterates `cfgs`, so when all of them are static nothing ever opens or closes
    ensures (forall j :: 0 <= j < |cfgs| ==> cfgs[j].instance in statics) ==>
              && dynamic == map[] && next' == next
              && (forall e :: 0 <= e < |stepCloses| ==> stepCloses[e] == [])
  {
    var covered := forall j :: 0 <= j < |cfgs| ==> cfgs[j].instance in statics;
    dynamic := map[];
    stepCloses := [];
    next' := next;
    var e := 0;
    while e < |updates|
      invariant 0 <= e <= |updates|
      invariant |stepCloses| == e
      invariant dynamic.Keys <= Names(cfgs) - statics.Keys
      invariant covered ==> dynamic == map[] && next' == next
      invariant covered ==> forall x :: 0 <= x < e ==> stepCloses[x] == []
    {
      var list := cfgs;
      var stillOpen, closedKeys, closed, attempts, n := UpdateStep(list, statics, dynamic, updates[e], next');
      ReconcileKeys(list, statics, dynamic, updates[e], next');
      if covered {
        AllStaticStep(list, statics, updates[e], next');
        assert closed == [] by {
          assert |multiset(closedKeys)| == |closedKeys|;
        }
      }
      stepCloses := stepCloses + [closed];
      dynamic := stillOpen;
      next' := n;
      e := e + 1;
    }
    staticKeys, dynamicKeys, shutdownClosed := Shutdown(statics, dynamic);
  }

  /** How WatchInstances ends: the static listeners and whether the update loop runs, or the first failure. */
  datatype WatchResult =
    | Started(statics: map<string, Listener>, loopStarted: bool)
    | Failed(failedAt: nat, leftOpen: seq<Listener>)

  /** Index of the first configuration whose listener fails to open, |cfgs| if none. */
  function FirstFailure(cfgs: seq<InstanceConfig>, listenOk: InstanceConfig -> bool): (f: nat)
    ensures f <= |cfgs|
    ensures forall j :: 0 <= j < f ==> listenOk(cfgs[j])
    ensures f < |cfgs| ==> !listenOk(cfgs[f])
  {
    if cfgs == [] || !listenOk(cfgs[0]) then 0 else 1 + FirstFailure(cfgs[1..], listenOk)
  }

  /**
   * WatchInstances: open one static listener per configuration, keyed by its
   * instance; stop at the first failure, leaving the listeners openedSoFar so far
   * open; start the update loop only when there is an update channel.
   */
  method WatchInstances(cfgs: seq<InstanceConfig>, listenOk: InstanceConfig -> bool,
                        hasUpdates: bool, next: nat)
    returns (r: WatchResult, next': nat)
    ensures r.Started? <==> FirstFailure(cfgs, listenOk) == |cfgs|
    ensures r.Started? ==> r.statics.Keys == Names(cfgs) && r.loopStarted == hasUpdates
    ensures r.Started? ==> forall k :: k in r.statics ==> next <= r.statics[k].id < next'
    ensures r.Failed? ==> r.failedAt == FirstFailure(cfgs, listenOk) && |r.leftOpen| == r.failedAt
    ensures r.Failed? ==> forall j :: 0 <= j < |r.leftOpen| ==> next <= r.leftOpen[j].id < next'
  {
    var staticInstances: map<string, Listener> := map[];
    var openedSoFar: seq<Listener> := [];
    next' := next;
    var i := 0;
    while i < |cfgs|
      invariant 0 <= i <= |cfgs|
      invariant forall j :: 0 <= j < i ==> listenOk(cfgs[j])
      invariant staticInstances.Keys == Names(cfgs[..i])
      invariant |openedSoFar| == i && next' == next + i
      invariant forall k :: k in staticInstances ==> next <= staticInstances[k].id < next'
      invariant forall j :: 0 <= j < |openedSoFar| ==> next <= openedSoFar[j].id < next'
    {
      var v := cfgs[i];
      assert cfgs[..i + 1][..i] == cfgs[..i];
      if !listenOk(v) {
        FirstFailureAt(cfgs, listenOk, i);
        return Failed(i, openedSoFar), next';
      }
      var l := Listener(next');
      next' := next' + 1;
      openedSoFar := openedSoFar + [l];
      staticInstances := staticInstances[v.instance := l];
      i := i + 1;
    }
    assert cfgs[..i] == cfgs;
    FirstFailureAt(cfgs, listenOk, i);
    r := Started(staticInstances, hasUpdates);
  }

  lemma {:induction false} FirstFailureAt(cfgs: seq<InstanceConfig>, listenOk: InstanceConfig -> bool, i: nat)
    requires i <= |cfgs|
    requires forall j :: 0 <= j < i ==> listenOk(cfgs[j])
    requires i < |cfgs| ==> !listenOk(cfgs[i])
    ensures FirstFailure(cfgs, listenOk) == i
  {
    if i > 0 {
      FirstFailureAt(cfgs[1..], listenOk, i - 1);
    }
  }

  // ---------------------------------------------------------------------------
  // The configurations built by CreateProxy (proxy.go) and GetInstance (sqlproxy.go)

  /** net.JoinHostPort: an IPv6 host (one holding ':') is bracketed. */
  function JoinHostPort(host: string, port: string): string {
    if ':' in host then "[" + host + "]:" + port else host + ":" + port
  }

  /** The single configuration CreateProxy watches: the instance, over TCP on 0.0.0.0:localPort. */
  function CreateProxyConfigs(localPort: Int, connectionName: string): (cfgs: seq<InstanceConfig>)
    ensures |cfgs| == 1 && cfgs[0].instance == connectionName && cfgs[0].network == "tcp"
    ensures cfgs[0].address == "0.0.0.0:" + Itoa(localPort)
    ensures Atoi(cfgs[0].address[8..]) == IntResult(localPort, true)
  {
    var address := JoinHostPort("0.0.0.0", Itoa(localPort));
    AtoiOfItoa(localPort);
    assert address[8..] == Itoa(localPort);
    [InstanceConfig(connectionName, "tcp", address)]
  }

  const GetInstanceLocalPort: Int := 3306

  /** The single configuration GetInstance watches: "<name>=tcp:3306" on 127.0.0.1:3306. */
  function GetInstanceConfigs(connectionName: string): (cfgs: seq<InstanceConfig>)
    ensures |cfgs| == 1
    ensures cfgs[0].instance == connectionName + "=tcp:3306"
    ensures cfgs[0].network == "tcp" && cfgs[0].address == "127.0.0.1:3306"
  {
    var port := Itoa(GetInstanceLocalPort);
    assert port == "3306";
    [InstanceConfig(connectionName + "=tcp:" + port, "tcp", JoinHostPort("127.0.0.1", port))]
  }
}
