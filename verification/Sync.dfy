/** Labels and annotations: wanted entries must be there, extra ones are tolerated. */
module Metadata {
  predicate Included(wanted: map<string, string>, existing: map<string, string>) {
    forall k :: k in wanted ==> k in existing && existing[k] == wanted[k]
  }

  method LabelsMatch(existing: map<string, string>, desired: map<string, string>) returns (r: bool)
    ensures r <==> Included(desired, existing)
    ensures r <==> forall k :: k in desired ==> k in existing && desired[k] == existing[k]
  {
    if |desired| == 0 {
      return true;
    }
    var todo := desired.Keys;
    while todo != {}
      invariant todo <= desired.Keys
      invariant forall k :: k in desired && k !in todo ==> k in existing && existing[k] == desired[k]
      decreases todo
    {
      var k :| k in todo;
      if k !in existing || existing[k] != desired[k] {
        return false;
      }
      todo := todo - {k};
    }
    return true;
  }
}

/** The SPIRE server Service: preserve what the API server manages, normalise, compare, write. */
module ServiceSync {
  import opened Wrappers
  import opened KeyedLists
  import opened Metadata

  const TCP := "TCP"
  const CA_ANNOTATION := "service.beta.openshift.io/serving-cert-secret-name"
  const SERVING_CERT := "spire-server-serving-cert"

  datatype ServicePort = ServicePort(name: string, port: int, targetPort: string, protocol: string)

  datatype Service = Service(
    labels: map<string, string>, annotations: map<string, string>, stype: string, ports: seq<ServicePort>,
    selector: map<string, string>, clusterIP: string, clusterIPs: seq<string>, ipFamilies: seq<string>,
    ipFamilyPolicy: Option<string>, internalTrafficPolicy: Option<string>, sessionAffinity: string,
    healthCheckNodePort: int)

  datatype Action = Nothing | Create(sent: Service) | Update(sent: Service)

  function WithDefault(p: ServicePort): ServicePort {
    if p.protocol == "" then p.(protocol := TCP) else p
  }

  function Normalised(ports: seq<ServicePort>): (r: seq<ServicePort>)
    ensures |r| == |ports| && forall i :: 0 <= i < |r| ==> r[i] == WithDefault(ports[i])
  {
    seq(|ports|, i requires 0 <= i < |ports| => WithDefault(ports[i]))
  }

  predicate NotFederation(p: ServicePort) {
    p.name != "federation"
  }

  function WithoutFederation(ports: seq<ServicePort>): seq<ServicePort> {
    Filtered(ports, NotFederation)
  }

  const FEDERATION_PORT := ServicePort("federation", 8443, "8443", TCP)

  /** The desired Service, from its manifest and the configuration. */
  method Desired(asset: Service, labels: map<string, string>, selector: map<string, string>, federation: bool)
    returns (svc: Service)
    ensures svc.labels == labels && svc.selector == selector && svc.stype == asset.stype
    ensures svc.ports == if federation then asset.ports + [FEDERATION_PORT] else WithoutFederation(asset.ports)
    ensures federation <==> CA_ANNOTATION in svc.annotations
    ensures federation ==> svc.annotations[CA_ANNOTATION] == "spire-server-serving-cert"
    ensures CA_ANNOTATION == "service.beta.openshift.io/serving-cert-secret-name"
    // A port is there iff it is the federation port, if wanted, or one of the manifest, not so named if not.
    ensures forall p :: p in svc.ports <==>
              || (federation && p == ServicePort("federation", 8443, "8443", "TCP"))
              || (p in asset.ports && (federation || p.name != "federation"))
    ensures svc.(labels := asset.labels, annotations := asset.annotations, selector := asset.selector,
                 ports := asset.ports) == asset
    ensures forall k :: k != CA_ANNOTATION ==>
              (k in svc.annotations <==> k in asset.annotations)
              && (k in asset.annotations ==> svc.annotations[k] == asset.annotations[k])
  {
    svc := asset.(labels := labels, selector := selector);
    if federation {
      svc := svc.(annotations := svc.annotations[CA_ANNOTATION := SERVING_CERT],
                  ports := svc.ports + [FEDERATION_PORT]);
    } else {
      svc := svc.(annotations := svc.annotations - {CA_ANNOTATION});
      var kept := [];
      for i := 0 to |svc.ports|
        invariant kept == WithoutFederation(svc.ports[..i])
      {
        assert svc.ports[..i + 1][..i] == svc.ports[..i];
        if svc.ports[i].name != "federation" {
          kept := kept + [svc.ports[i]];
        }
      }
      assert svc.ports[..|svc.ports|] == svc.ports;
      FilteredMembers(svc.ports, NotFederation);
      svc := svc.(ports := kept);
    }
  }

  /** The desired Service with the fields the API server manages taken over from the stored one. */
  function Merged(existing: Service, desired: Service): Service {
    existing.(labels := desired.labels, annotations := desired.annotations, stype := desired.stype,
              ports := Normalised(desired.ports), selector := desired.selector,
              healthCheckNodePort := if existing.healthCheckNodePort != 0 then existing.healthCheckNodePort
                                     else desired.healthCheckNodePort)
  }

  /** Every field the API server manages is as stored. */
  ghost predicate Preserves(existing: Service, d: Service) {
    && d.clusterIP == existing.clusterIP && d.clusterIPs == existing.clusterIPs && d.ipFamilies == existing.ipFamilies
    && d.ipFamilyPolicy == existing.ipFamilyPolicy && d.internalTrafficPolicy == existing.internalTrafficPolicy
    && d.sessionAffinity == existing.sessionAffinity
    && (existing.healthCheckNodePort != 0 ==> d.healthCheckNodePort == existing.healthCheckNodePort)
  }

  /** Every other field is as desired, with the protocol of a port filled in where it is left open. */
  ghost predicate Wants(desired: Service, d: Service) {
    && d.labels == desired.labels && d.annotations == desired.annotations && d.stype == desired.stype
    && d.selector == desired.selector && |d.ports| == |desired.ports|
    && (forall i :: 0 <= i < |d.ports| ==>
          && d.ports[i].name == desired.ports[i].name && d.ports[i].port == desired.ports[i].port
          && d.ports[i].targetPort == desired.ports[i].targetPort
          && d.ports[i].protocol == if desired.ports[i].protocol == "" then "TCP" else desired.ports[i].protocol)
  }

  method Merge(existing: Service, desired: Service) returns (d: Service)
    ensures d == Merged(existing, desired)
    ensures Preserves(existing, d) && Wants(desired, d)
  {
    d := desired;
    d := d.(clusterIP := existing.clusterIP, clusterIPs := existing.clusterIPs, ipFamilies := existing.ipFamilies,
            ipFamilyPolicy := existing.ipFamilyPolicy, internalTrafficPolicy := existing.internalTrafficPolicy,
            sessionAffinity := existing.sessionAffinity);
    if existing.healthCheckNodePort != 0 {
      d := d.(healthCheckNodePort := existing.healthCheckNodePort);
    }
    for i := 0 to |desired.ports|
      invariant |d.ports| == |desired.ports| && d == d.(ports := d.ports)
      invariant forall j :: 0 <= j < i ==> d.ports[j] == WithDefault(desired.ports[j])
      invariant forall j :: i <= j < |desired.ports| ==> d.ports[j] == desired.ports[j]
      invariant d.(ports := Normalised(desired.ports)) == Merged(existing, desired)
    {
      if d.ports[i].protocol == "" {
        d := d.(ports := d.ports[i := d.ports[i].(protocol := TCP)]);
      }
    }
    assert d.ports == Normalised(desired.ports);
  }

  /** The comparison of the stored Service with the merged one. */
  predicate UpToDate(existing: Service, merged: Service) {
    && Included(merged.labels, existing.labels) && Included(merged.annotations, existing.annotations)
    && existing.stype == merged.stype && existing.ports == merged.ports && existing.selector == merged.selector
  }

  /** The stored Service shows everything the comparison looks at. */
  ghost predicate Shows(existing: Service, desired: Service) {
    && Included(desired.labels, existing.labels) && Included(desired.annotations, existing.annotations)
    && existing.stype == desired.stype && existing.ports == Normalised(desired.ports)
    && existing.selector == desired.selector
  }

  /** What the comparison with the merged Service decides: whether the stored one has all that is wanted, apart
      from labels and annotations of its own. */
  lemma ShowsExactly(existing: Service, desired: Service)
    ensures UpToDate(existing, Merged(existing, desired)) <==> Shows(existing, desired)
    ensures Shows(existing, desired) <==>
              && (forall k :: k in desired.labels ==> k in existing.labels && desired.labels[k] == existing.labels[k])
              && (forall k :: k in desired.annotations ==>
                    k in existing.annotations && desired.annotations[k] == existing.annotations[k])
              && Wants(desired, existing.(labels := desired.labels, annotations := desired.annotations))
  {
    if Wants(desired, existing.(labels := desired.labels, annotations := desired.annotations)) {
      assert existing.ports == Normalised(desired.ports);
    }
  }

  method Reconcile(existing: Option<Service>, desired: Service, createOnly: bool) returns (action: Action)
    ensures existing.None? ==> action == Create(desired)
    ensures existing.Some? && createOnly ==> action == Nothing
    ensures existing.Some? && !createOnly ==>
              action == if Shows(existing.value, desired) then Nothing else Update(Merged(existing.value, desired))
    ensures action.Update? ==> existing.Some? && Preserves(existing.value, action.sent) && Wants(desired, action.sent)
  {
    if existing.None? {
      return Create(desired);
    }
    if createOnly {
      return Nothing;
    }
    var merged := Merge(existing.value, desired);
    var labels := LabelsMatch(existing.value.labels, merged.labels);
    var annotations := LabelsMatch(existing.value.annotations, merged.annotations);
    if labels && annotations && existing.value.stype == merged.stype && existing.value.ports == merged.ports
       && existing.value.selector == merged.selector {
      return Nothing;
    }
    return Update(merged);
  }

  /** What an API server may make of a written Service: it adds labels and annotations, fills in
      empty port protocols, and sets every field it manages as it likes. */
  ghost predicate Admits(sent: Service, stored: Service) {
    && Included(sent.labels, stored.labels) && Included(sent.annotations, stored.annotations)
    && stored.stype == sent.stype && stored.selector == sent.selector && stored.ports == Normalised(sent.ports)
  }

  /** What a run may send: the desired Service, or its merge with a stored one. */
  ghost predicate Sends(desired: Service, sent: Service) {
    sent == desired || exists e :: sent == Merged(e, desired)
  }

  /** Whatever the API server makes of what is sent, it is up to date for the next run. */
  lemma AdmittedIsUpToDate(desired: Service, sent: Service, stored: Service)
    requires Sends(desired, sent) && Admits(sent, stored)
    ensures Shows(stored, desired) && UpToDate(stored, Merged(stored, desired))
  {
    assert Normalised(Normalised(desired.ports)) == Normalised(desired.ports);
  }

  /** One write suffices: after the first reconciliation, whatever was stored before it and whatever
      the API server made of what was sent, the next one writes nothing. */
  method TwoRuns(existing: Option<Service>, desired: Service, server: Service -> Service)
    returns (first: Action, stored: Service, second: Action)
    requires forall s :: Admits(s, server(s))
    ensures first == Nothing ==> existing == Some(stored)
    ensures Shows(stored, desired) && second == Nothing
  {
    first := Reconcile(existing, desired, false);
    if first == Nothing {
      stored := existing.value;
    } else {
      stored := server(first.sent);
      AdmittedIsUpToDate(desired, first.sent, stored);
    }
    second := Reconcile(Some(stored), desired, false);
  }
}

/** The webhook configuration: a nested merge loop preserves, position by position, what the API
    server or a certificate injector filled in. */
module WebhookSync {
  import opened Wrappers
  import opened Metadata

  datatype Rule = Rule(resources: string, scope: Option<string>)
  datatype ServiceRef = ServiceRef(name: string, namespace: string, path: string, port: Option<int>)
  datatype Webhook = Webhook(
    name: string, policies: string, caBundle: string, matchPolicy: Option<string>, timeout: Option<int>,
    namespaceSelector: Option<string>, objectSelector: Option<string>, rules: seq<Rule>, service: Option<ServiceRef>)

  function Kept<T>(existing: Option<T>, desired: Option<T>): Option<T> {
    if existing.Some? then existing else desired
  }

  function MergedRules(d: seq<Rule>, e: seq<Rule>): (r: seq<Rule>)
    ensures |r| == |d|
    ensures forall j :: 0 <= j < |d| ==> r[j] == if j < |e| then d[j].(scope := Kept(e[j].scope, d[j].scope)) else d[j]
  {
    seq(|d|, j requires 0 <= j < |d| => if j < |e| then d[j].(scope := Kept(e[j].scope, d[j].scope)) else d[j])
  }

  function MergedService(d: Option<ServiceRef>, e: Option<ServiceRef>): Option<ServiceRef> {
    if d.Some? && e.Some? then Some(d.value.(port := Kept(e.value.port, d.value.port))) else d
  }

  function MergedHook(d: Webhook, e: Webhook): Webhook {
    d.(caBundle := if e.caBundle != "" then e.caBundle else d.caBundle,
       matchPolicy := Kept(e.matchPolicy, d.matchPolicy), timeout := Kept(e.timeout, d.timeout),
       namespaceSelector := Kept(e.namespaceSelector, d.namespaceSelector),
       objectSelector := Kept(e.objectSelector, d.objectSelector),
       rules := MergedRules(d.rules, e.rules), service := MergedService(d.service, e.service))
  }

  function MergedAll(d: seq<Webhook>, e: seq<Webhook>): (r: seq<Webhook>)
    ensures |r| == |d|
    ensures forall i :: 0 <= i < |d| ==> r[i] == if i < |e| then MergedHook(d[i], e[i]) else d[i]
  {
    seq(|d|, i requires 0 <= i < |d| => if i < |e| then MergedHook(d[i], e[i]) else d[i])
  }

  /** A stored value is kept, and otherwise the desired one is taken. */
  ghost predicate Keeps<T>(e: Option<T>, d: Option<T>, r: Option<T>) {
    (e.Some? ==> r == e) && (e.None? ==> r == d)
  }

  ghost predicate KeepsScopes(e: seq<Rule>, d: seq<Rule>, r: seq<Rule>) {
    && |r| == |d|
    && forall j :: 0 <= j < |r| ==>
         && r[j].resources == d[j].resources
         && if j < |e| then Keeps(e[j].scope, d[j].scope, r[j].scope) else r[j].scope == d[j].scope
  }

  ghost predicate KeepsPort(e: Option<ServiceRef>, d: Option<ServiceRef>, r: Option<ServiceRef>) {
    match d
    case None => r.None?
    case Some(ref) =>
      && r.Some? && r.value.name == ref.name && r.value.namespace == ref.namespace && r.value.path == ref.path
      && if e.Some? then Keeps(e.value.port, ref.port, r.value.port) else r.value.port == ref.port
  }

  /** Field by field, what a webhook `r` to be written takes from the stored one and what from the desired one. */
  ghost predicate Preserves(e: Webhook, d: Webhook, r: Webhook) {
    && r.name == d.name && r.policies == d.policies
    && (if e.caBundle == "" then r.caBundle == d.caBundle else r.caBundle == e.caBundle)
    && Keeps(e.matchPolicy, d.matchPolicy, r.matchPolicy) && Keeps(e.timeout, d.timeout, r.timeout)
    && Keeps(e.namespaceSelector, d.namespaceSelector, r.namespaceSelector)
    && Keeps(e.objectSelector, d.objectSelector, r.objectSelector)
    && KeepsScopes(e.rules, d.rules, r.rules) && KeepsPort(e.service, d.service, r.service)
  }

  /** The webhooks of two lists are merged by position. */
  ghost predicate PreservesAll(e: seq<Webhook>, d: seq<Webhook>, r: seq<Webhook>) {
    && |r| == |d|
    && forall i :: 0 <= i < |r| ==> if i < |e| then Preserves(e[i], d[i], r[i]) else r[i] == d[i]
  }

  /** The merge loops, in place on the desired list, for stored lists of any length. */
  method MergePreserved(desired: array<Webhook>, existing: seq<Webhook>)
    modifies desired
    ensures desired[..] == MergedAll(old(desired[..]), existing)
    ensures PreservesAll(existing, old(desired[..]), desired[..])
  {
    for i := 0 to desired.Length
      invariant forall k :: 0 <= k < i ==> desired[k] == MergedAll(old(desired[..]), existing)[k]
      invariant forall k :: i <= k < desired.Length ==> desired[k] == old(desired[k])
    {
      if i < |existing| {
        desired[i] := MergeHook(desired[i], existing[i]);
      }
    }
    MergePreserves(existing, old(desired[..]));
  }

  lemma MergePreserves(e: seq<Webhook>, d: seq<Webhook>)
    ensures PreservesAll(e, d, MergedAll(d, e))
  {
    forall i | 0 <= i < |d| && i < |e| ensures Preserves(e[i], d[i], MergedAll(d, e)[i]) {
      HookPreserves(e[i], d[i]);
    }
  }

  lemma HookPreserves(e: Webhook, d: Webhook)
    ensures Preserves(e, d, MergedHook(d, e))
  {
    assert KeepsScopes(e.rules, d.rules, MergedRules(d.rules, e.rules));
    assert KeepsPort(e.service, d.service, MergedService(d.service, e.service));
  }

  method MergeHook(desired: Webhook, e: Webhook) returns (d: Webhook)
    ensures d == MergedHook(desired, e)
  {
    d := desired;
    if |e.caBundle| > 0 {
      d := d.(caBundle := e.caBundle);
    }
    if e.matchPolicy.Some? {
      d := d.(matchPolicy := e.matchPolicy);
    }
    if e.timeout.Some? {
      d := d.(timeout := e.timeout);
    }
    if e.namespaceSelector.Some? {
      d := d.(namespaceSelector := e.namespaceSelector);
    }
    if e.objectSelector.Some? {
      d := d.(objectSelector := e.objectSelector);
    }
    var rules := MergeScopes(d.rules, e.rules);
    d := d.(rules := rules);
    if e.service.Some? && d.service.Some? && e.service.value.port.Some? {
      d := d.(service := Some(d.service.value.(port := e.service.value.port)));
    }
  }

  method MergeScopes(desired: seq<Rule>, existing: seq<Rule>) returns (rules: seq<Rule>)
    ensures rules == MergedRules(desired, existing)
  {
    rules := desired;
    for j := 0 to |desired|
      invariant |rules| == |desired|
      invariant forall k :: 0 <= k < j ==> rules[k] == MergedRules(desired, existing)[k]
      invariant forall k :: j <= k < |desired| ==> rules[k] == desired[k]
    {
      if j < |existing| && existing[j].scope.Some? {
        rules := rules[j := rules[j].(scope := existing[j].scope)];
      }
    }
  }

  // ---------- what the merge may and may not touch ----------

  function ErasedRules(rules: seq<Rule>): (r: seq<Rule>)
    ensures |r| == |rules| && forall j :: 0 <= j < |r| ==> r[j] == rules[j].(scope := None)
  {
    seq(|rules|, j requires 0 <= j < |rules| => rules[j].(scope := None))
  }

  /** A webhook without the preserved fields. */
  function Erased(w: Webhook): Webhook {
    w.(caBundle := "", matchPolicy := None, timeout := None, namespaceSelector := None, objectSelector := None,
       rules := ErasedRules(w.rules),
       service := if w.service.Some? then Some(w.service.value.(port := None)) else None)
  }

  ghost predicate Covers<T>(e: Option<T>, d: Option<T>) {
    d.Some? ==> e.Some?
  }

  /** Whatever the desired webhook sets among the preserved fields, the stored one sets too. */
  ghost predicate HookCovers(e: Webhook, d: Webhook) {
    && (e.caBundle == "" ==> d.caBundle == "")
    && Covers(e.matchPolicy, d.matchPolicy) && Covers(e.timeout, d.timeout)
    && Covers(e.namespaceSelector, d.namespaceSelector) && Covers(e.objectSelector, d.objectSelector)
    && (forall j :: 0 <= j < |d.rules| && j < |e.rules| ==> Covers(e.rules[j].scope, d.rules[j].scope))
    && (e.service.Some? && d.service.Some? ==> Covers(e.service.value.port, d.service.value.port))
  }

  /** The stored list is the desired one up to the preserved fields. */
  ghost predicate SameUpToPreserved(e: seq<Webhook>, d: seq<Webhook>) {
    |e| == |d| && forall i :: 0 <= i < |d| ==> Erased(e[i]) == Erased(d[i]) && HookCovers(e[i], d[i])
  }

  /** On stored lists of any length the merge changes no other field of the desired list. */
  lemma MergeTouchesOnlyPreserved(d: seq<Webhook>, e: seq<Webhook>)
    ensures forall i :: 0 <= i < |d| ==> Erased(MergedAll(d, e)[i]) == Erased(d[i])
    ensures forall i :: |e| <= i < |d| ==> MergedAll(d, e)[i] == d[i]
  {
    forall i | 0 <= i < |d| ensures Erased(MergedAll(d, e)[i]) == Erased(d[i]) {
      assert ErasedRules(MergedAll(d, e)[i].rules) == ErasedRules(d[i].rules);
    }
  }

  lemma SameRules(d: Webhook, e: Webhook)
    requires Erased(e) == Erased(d)
    ensures |e.rules| == |d.rules| && e.service.Some? == d.service.Some?
    ensures forall j :: 0 <= j < |d.rules| ==> e.rules[j].resources == d.rules[j].resources
  {
    assert |ErasedRules(e.rules)| == |ErasedRules(d.rules)|;
    forall j | 0 <= j < |d.rules| ensures e.rules[j].resources == d.rules[j].resources {
      assert ErasedRules(e.rules)[j] == ErasedRules(d.rules)[j];
    }
  }

  lemma HookReproduced(d: Webhook, e: Webhook)
    ensures MergedHook(d, e) == e <==> Erased(e) == Erased(d) && HookCovers(e, d)
  {
    if Erased(e) == Erased(d) && HookCovers(e, d) {
      SameRules(d, e);
      assert MergedRules(d.rules, e.rules) == e.rules;
      assert MergedService(d.service, e.service) == e.service;
    }
    if MergedHook(d, e) == e {
      assert MergedRules(d.rules, e.rules) == e.rules;
      forall j | 0 <= j < |d.rules|
        ensures e.rules[j].resources == d.rules[j].resources && Covers(e.rules[j].scope, d.rules[j].scope)
      {
        assert MergedRules(d.rules, e.rules)[j] == e.rules[j];
      }
      assert ErasedRules(e.rules) == ErasedRules(d.rules);
      assert MergedService(d.service, e.service) == e.service;
    }
  }

  /** The merge reproduces the stored list, and so no write follows, exactly when that list is the
      desired one up to the preserved fields. */
  lemma ReproducedIffSameUpToPreserved(d: seq<Webhook>, e: seq<Webhook>)
    ensures MergedAll(d, e) == e <==> SameUpToPreserved(e, d)
  {
    if |d| == |e| {
      forall i | 0 <= i < |d|
        ensures MergedAll(d, e)[i] == e[i] <==> Erased(e[i]) == Erased(d[i]) && HookCovers(e[i], d[i])
      {
        HookReproduced(d[i], e[i]);
      }
      if SameUpToPreserved(e, d) {
        assert MergedAll(d, e) == e;
      }
    }
  }

  /** What the API server and an injector may make of a written list: fill in or replace preserved
      fields, never clear one, change nothing else. */
  ghost predicate Admits(sent: seq<Webhook>, stored: seq<Webhook>) {
    SameUpToPreserved(stored, sent)
  }

  /** One write suffices: whatever was stored before, the list stored after a write is reproduced. */
  lemma OneWriteSuffices(d: seq<Webhook>, e: seq<Webhook>, stored: seq<Webhook>)
    requires Admits(MergedAll(d, e), stored)
    ensures MergedAll(d, stored) == stored
  {
    var sent := MergedAll(d, e);
    MergeTouchesOnlyPreserved(d, e);
    forall i | 0 <= i < |d| ensures Erased(stored[i]) == Erased(d[i]) && HookCovers(stored[i], d[i]) {
      assert HookCovers(sent[i], d[i]) by {
        if i < |e| { MergedCovers(d[i], e[i]); }
      }
      CoversTransitive(stored[i], sent[i], d[i]);
    }
    ReproducedIffSameUpToPreserved(d, stored);
  }

  lemma MergedCovers(d: Webhook, e: Webhook)
    ensures HookCovers(MergedHook(d, e), d)
  {
  }

  lemma CoversTransitive(a: Webhook, b: Webhook, c: Webhook)
    requires Erased(a) == Erased(b) && HookCovers(a, b) && HookCovers(b, c) && |b.rules| == |c.rules|
    requires b.service.Some? == c.service.Some?
    ensures HookCovers(a, c)
  {
    SameRules(b, a);
  }

  datatype Configuration = Configuration(labels: map<string, string>, annotations: map<string, string>,
                                         hooks: seq<Webhook>)

  function Merged(existing: Configuration, desired: Configuration): Configuration {
    desired.(hooks := MergedAll(desired.hooks, existing.hooks))
  }

  /** The comparison of the stored configuration with the merged one. */
  predicate UpToDate(existing: Configuration, merged: Configuration) {
    && Included(merged.labels, existing.labels) && Included(merged.annotations, existing.annotations)
    && existing.hooks == merged.hooks
  }

  ghost predicate Shows(existing: Configuration, desired: Configuration) {
    && Included(desired.labels, existing.labels) && Included(desired.annotations, existing.annotations)
    && SameUpToPreserved(existing.hooks, desired.hooks)
  }

  /** What the comparison with the merged configuration decides: whether the stored one already keeps and has
      all that a written one would. */
  lemma ShowsExactly(existing: Configuration, desired: Configuration)
    ensures UpToDate(existing, Merged(existing, desired)) <==> Shows(existing, desired)
    ensures Shows(existing, desired) <==>
              && (forall k :: k in desired.labels ==> k in existing.labels && desired.labels[k] == existing.labels[k])
              && (forall k :: k in desired.annotations ==>
                    k in existing.annotations && desired.annotations[k] == existing.annotations[k])
              && PreservesAll(existing.hooks, desired.hooks, existing.hooks)
  {
    var e, d := existing.hooks, desired.hooks;
    ReproducedIffSameUpToPreserved(d, e);
    MergePreserves(e, d);
    if PreservesAll(e, d, e) {
      forall i | 0 <= i < |d| ensures MergedHook(d[i], e[i]) == e[i] {
        HookPreserves(e[i], d[i]);
        SamePreserved(e[i], d[i], MergedHook(d[i], e[i]), e[i]);
      }
      assert MergedAll(d, e) == e;
    }
  }

  /** There is one way to preserve a stored webhook's fields in a desired one. */
  lemma SamePreserved(e: Webhook, d: Webhook, r: Webhook, r': Webhook)
    requires Preserves(e, d, r) && Preserves(e, d, r')
    ensures r == r'
  {
    assert r.rules == r'.rules;
  }

  /** One run of the webhook reconciliation: the configuration to write, if any. */
  method Reconcile(existing: Option<Configuration>, desired: Configuration, createOnly: bool)
    returns (write: Option<Configuration>)
    ensures existing.None? ==> write == Some(desired)
    ensures existing.Some? && createOnly ==> write.None?
    ensures existing.Some? && !createOnly ==>
              write == if Shows(existing.value, desired) then None
                       else Some(Merged(existing.value, desired))
    ensures existing.Some? && write.Some? ==>
              && PreservesAll(existing.value.hooks, desired.hooks, write.value.hooks)
              && write.value.labels == desired.labels && write.value.annotations == desired.annotations
  {
    if existing.None? {
      return Some(desired);
    }
    if createOnly {
      return None;
    }
    var hooks := desired.hooks;
    var draft := new Webhook[|hooks|](i requires 0 <= i < |hooks| => hooks[i]);
    assert draft[..] == hooks;
    MergePreserved(draft, existing.value.hooks);
    ReproducedIffSameUpToPreserved(hooks, existing.value.hooks);
    var labels := LabelsMatch(existing.value.labels, desired.labels);
    var annotations := LabelsMatch(existing.value.annotations, desired.annotations);
    if labels && annotations && existing.value.hooks == draft[..] {
      return None;
    }
    return Some(desired.(hooks := draft[..]));
  }

  ghost predicate ServerAdmits(sent: Configuration, stored: Configuration) {
    && Included(sent.labels, stored.labels) && Included(sent.annotations, stored.annotations)
    && Admits(sent.hooks, stored.hooks)
  }

  /** Whatever the API server makes of what a run sends is up to date for the next run. */
  lemma AdmittedIsUpToDate(desired: Configuration, existing: Option<Configuration>, stored: Configuration)
    requires ServerAdmits(if existing.Some? then Merged(existing.value, desired) else desired, stored)
    ensures Shows(stored, desired) && UpToDate(stored, Merged(stored, desired))
  {
    if existing.Some? {
      OneWriteSuffices(desired.hooks, existing.value.hooks, stored.hooks);
    }
    ReproducedIffSameUpToPreserved(desired.hooks, stored.hooks);
  }

  /** With any API server that adds metadata and otherwise keeps to Admits, the run after a run
      writes nothing. */
  method TwoRuns(existing: Option<Configuration>, desired: Configuration, server: Configuration -> Configuration)
    returns (stored: Configuration, second: Option<Configuration>)
    requires forall s :: ServerAdmits(s, server(s))
    ensures second.None?
  {
    var first := Reconcile(existing, desired, false);
    if first.None? {
      stored := existing.value;
    } else {
      stored := server(first.value);
      assert ServerAdmits(first.value, stored);
      AdmittedIsUpToDate(desired, existing, stored);
    }
    second := Reconcile(Some(stored), desired, false);
  }
}
