/**
 * The plugin's state: the parsed settings, the object reference events are
 * attributed to, and what startup wires together from them.
 */
module K8sEvent {
  import opened Wrappers
  import opened Plugin
  import opened Events
  import Listener

  /** The source component every recorded event names. */
  const ComponentName: string := "CoreDNS"

  /** The four values the configuration stanza sets. */
  datatype Settings = Settings(levels: Mask, qps: real, burst: int, cacheSize: int)

  /** `record.CorrelatorOptions`, as far as the plugin fills it in. */
  datatype CorrelatorOptions = CorrelatorOptions(lruCacheSize: int, qps: real, burstSize: int)

  /** An event broadcaster, known here only by the options it was built with. */
  datatype Broadcaster = Broadcaster(options: CorrelatorOptions)

  /** A Kubernetes API client handle, opaque to the plugin. */
  datatype Client = Client(handle: nat)

  /** The reference used when the pod cannot be identified. */
  const DefaultNamespaceRef: ObjectRef := ObjectRef("Namespace", "default", "")

  /**
   * The reference events are reported against, from the values of
   * COREDNS_NAMESPACE and COREDNS_POD_NAME: the pod when both are set, the
   * default namespace otherwise.
   */
  function ResolveRef(namespace: string, pod: string): (r: ObjectRef)
    ensures r.kind == "Pod" <==> |namespace| > 0 && |pod| > 0
    ensures r.kind == "Pod" ==> r.name == pod && r.namespace == namespace
    ensures r.kind != "Pod" ==> r == DefaultNamespaceRef
  {
    if |namespace| > 0 && |pod| > 0 then ObjectRef("Pod", pod, namespace)
    else DefaultNamespaceRef
  }

  /** The four environments of k8s_event_test.go. */
  lemma ResolveRefExamples()
    ensures ResolveRef("", "") == ObjectRef("Namespace", "default", "")
    ensures ResolveRef("ns1", "") == ObjectRef("Namespace", "default", "")
    ensures ResolveRef("", "pod1") == ObjectRef("Namespace", "default", "")
    ensures ResolveRef("ns1", "pod1") == ObjectRef("Pod", "pod1", "ns1")
  {
  }

  class K8sEvent {
    var client: Option<Client>
    var ref: Option<ObjectRef>
    var qps: real
    var burst: int
    var cacheSize: int
    var levels: Mask
    var broadcaster: Option<Broadcaster>
    var l: Listener.Listener?

    function CurrentSettings(): Settings
      reads this
    {
      Settings(levels, qps, burst, cacheSize)
    }

    /** Nothing but the settings is set yet. */
    predicate Unstarted()
      reads this
    {
      client == None && ref == None && broadcaster == None && l == null
    }

    /** The struct literal `&k8sEvent{levels: …, qps: …, burst: …, cacheSize: …}`. */
    constructor (s: Settings)
      ensures CurrentSettings() == s && Unstarted()
    {
      client := None;
      ref := None;
      qps := s.qps;
      burst := s.burst;
      cacheSize := s.cacheSize;
      levels := s.levels;
      broadcaster := None;
      l := null;
    }

    /**
     * `Init`, with the two environment values as parameters. It always succeeds
     * and sets the reference only.
     */
    method Init(namespace: string, pod: string) returns (err: Option<string>)
      modifies this`ref
      ensures err == None
      ensures ref == Some(ResolveRef(namespace, pod))
      ensures CurrentSettings() == old(CurrentSettings())
    {
      if |namespace| > 0 && |pod| > 0 {
        ref := Some(ObjectRef("Pod", pod, namespace));
      } else {
        ref := Some(ObjectRef("Namespace", "default", ""));
      }
      err := None;
    }

    /**
     * The function `Startup` returns, run once: `connect` is what `kubeapi.Client`
     * gave, `id` the listener's random id, and `registration` the error, if any,
     * of registering the listener with the log package.
     */
    method Startup(connect: Result<Client, string>, id: nat, registration: Option<string>) returns (err: Option<string>)
      modifies this`client, this`broadcaster, this`l
      ensures CurrentSettings() == old(CurrentSettings()) && ref == old(ref)
      ensures connect.Err? ==>
        (err == Some(connect.error) && client == None && broadcaster == old(broadcaster) && l == old(l))
      ensures connect.Ok? ==>
        (&& err == registration
         && client == Some(connect.value)
         && broadcaster == Some(Broadcaster(CorrelatorOptions(cacheSize, qps, burst)))
         && l != null && fresh(l) && fresh(l.recorder)
         && l.ref == ref && l.levels == levels && l.id == id
         && l.recorder.component == ComponentName && l.recorder.events == [])
    {
      if connect.Err? {
        client := None;
        return Some(connect.error);
      }
      client := Some(connect.value);
      broadcaster := Some(Broadcaster(CorrelatorOptions(cacheSize, qps, burst)));
      var recorder := new Recorder(ComponentName);
      l := new Listener.Listener(ref, recorder, levels, id);
      if registration.Some? {
        return registration;
      }
      return None;
    }
  }
}
