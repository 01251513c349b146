/** The admission handler and the patches it returns. A Go map is a reference, so annotations are an
    object that the workload resource and the patch share. */
module Handler {
  import opened GoErrors
  import opened Contracts
  import opened JsonCodec
  import opened CacheStore
  import opened RetryPolicy

  /** Annotation values are strings; the scan information is the text of a JSON document. */
  type Annotations = map<string, Value>

  class AnnotationMap {
    var entries: Annotations

    constructor (entries: Annotations)
      ensures this.entries == entries
    {
      this.entries := entries;
    }
  }

  class WorkloadResource {
    var annotations: AnnotationMap?

    /** Extraction copies the annotations of the object; none and an empty map both become nil. */
    constructor (original: Option<Annotations>)
      ensures annotations == null <==> original.None? || original.value == map[]
      ensures annotations != null ==> fresh(annotations) && annotations.entries == original.value
    {
      if original.None? || original.value == map[] {
        annotations := null;
      } else {
        var copy := new AnnotationMap(original.value);
        annotations := copy;
      }
    }
  }

  /** The one operation used: "add" at "/metadata/annotations". */
  datatype Patch = AddAnnotations(value: AnnotationMap)

  /** Applying patches by section 4.1 of RFC 6902: adding a member that exists replaces its value. */
  function Patched(original: Option<Annotations>, patches: seq<Patch>): Option<Annotations>
    reads set p | p in patches :: p.value
  {
    if patches == [] then original
    else
      var last := patches[|patches| - 1];
      assert last in patches;
      Some(last.value.entries)
  }

  datatype Reason = PatchedReason | NotPatchedError | PatchedDeleteStale | DryRunReason
                  | NotSupportedKind | NotSupportedOperation | SelfManagement

  /** `err` is the error whose message the result carries. */
  datatype Response = Response(allowed: bool, code: int, reason: Reason, err: Err, patches: seq<Patch>)

  datatype HandlerConfiguration = HandlerConfiguration(ownNamespace: string, dryRun: bool, supportedKinds: seq<string>)

  datatype AdmissionRequest = AdmissionRequest(namespace: string, kind: string, operation: string, original: Option<Annotations>)

  // The patch generator.

  function ScanInfoValue(timestamp: string, list: Slice<ScanInfo>): Value {
    Doc(MarshalAnnotation(timestamp, list))
  }

  method UpdateAnnotations(resource: WorkloadResource, key: string, value: Value) returns (annotations: AnnotationMap)
    modifies resource, if resource.annotations == null then {} else {resource.annotations}
    ensures annotations == resource.annotations
    ensures if old(resource.annotations) == null then fresh(annotations) && annotations.entries == map[key := value]
            else annotations == old(resource.annotations) && annotations.entries == old(resource.annotations.entries)[key := value]
  {
    if resource.annotations == null {
      resource.annotations := new AnnotationMap(map[]);
    }
    annotations := resource.annotations;
    annotations.entries := annotations.entries[key := value];
  }

  /** The patch holds the resource's own map, not a copy of it. */
  method CreatePatchAdd(list: Slice<ScanInfo>, resource: WorkloadResource, timestamp: string) returns (patch: Patch)
    modifies resource, if resource.annotations == null then {} else {resource.annotations}
    ensures patch.value == resource.annotations
    ensures old(resource.annotations) == null ==> fresh(patch.value)
    ensures old(resource.annotations) != null ==> patch.value == old(resource.annotations)
    ensures patch.value.entries ==
      (if old(resource.annotations) == null then map[] else old(resource.annotations.entries))
        [SCAN_INFO_ANNOTATION := ScanInfoValue(timestamp, list)]
  {
    var annotations := UpdateAnnotations(resource, SCAN_INFO_ANNOTATION, ScanInfoValue(timestamp, list));
    patch := AddAnnotations(annotations);
  }

  method CreatePatchToDeleteIfNeeded(resource: WorkloadResource) returns (patch: Option<Patch>)
    modifies if resource.annotations == null then {} else {resource.annotations}
    ensures resource.annotations == old(resource.annotations)
    ensures patch.Some? <==> resource.annotations != null && SCAN_INFO_ANNOTATION in old(resource.annotations.entries)
    ensures patch.Some? ==> patch.value.value == resource.annotations
    ensures resource.annotations != null ==>
      resource.annotations.entries == old(resource.annotations.entries) - {SCAN_INFO_ANNOTATION}
  {
    if resource.annotations == null {
      return None;
    }
    var annotations := resource.annotations;
    if SCAN_INFO_ANNOTATION !in annotations.entries {
      assert annotations.entries - {SCAN_INFO_ANNOTATION} == annotations.entries;
      return None;
    }
    annotations.entries := annotations.entries - {SCAN_INFO_ANNOTATION};
    return Some(AddAnnotations(annotations));
  }

  /** A write to the resource's annotations after the patch was made changes the patch too. */
  method WriteAfterPatch(resource: WorkloadResource, patch: Patch, original: Option<Annotations>, key: string,
      value: Value)
    requires resource.annotations == patch.value
    modifies resource, resource.annotations
    ensures Patched(original, [patch]) == Some(old(patch.value.entries)[key := value])
  {
    var same := UpdateAnnotations(resource, key, value);
  }

  // The handler.

  /** `shouldRequestBeFiltered`, in the order of its tests. */
  function FilterReason(c: HandlerConfiguration, req: AdmissionRequest): Option<Reason> {
    if req.namespace == c.ownNamespace then Some(SelfManagement)
    else if req.kind !in c.supportedKinds then Some(NotSupportedKind)
    else if req.operation != "CREATE" && req.operation != "UPDATE" then Some(NotSupportedOperation)
    else None
  }

  function Base(original: Option<Annotations>): Annotations {
    if original.None? then map[] else original.value
  }

  /** The annotations of the object once the response has been applied. */
  function Effect(c: HandlerConfiguration, req: AdmissionRequest, extraction: Err,
      provider: Attempt<Slice<ScanInfo>>, timestamp: string): Option<Annotations> {
    if FilterReason(c, req).Some? || extraction.Some? then req.original
    else if provider.err.Some? then
      if SCAN_INFO_ANNOTATION in Base(req.original) then Some(Base(req.original) - {SCAN_INFO_ANNOTATION}) else req.original
    else if c.dryRun then req.original
    else Some(Base(req.original)[SCAN_INFO_ANNOTATION := ScanInfoValue(timestamp, provider.value)])
  }

  /** `getResponseWhenErrorEncountered`. */
  method ResponseWhenErrorEncountered(resource: WorkloadResource, err: Error) returns (response: Response)
    modifies if resource.annotations == null then {} else {resource.annotations}
    ensures response.allowed && response.code == 500 && response.err.Some? && Cause(response.err.value) == Cause(err)
    ensures response.patches != [] <==> old(resource.annotations != null && SCAN_INFO_ANNOTATION in resource.annotations.entries)
    ensures response.patches != [] ==>
      && resource.annotations != null && response.patches == [AddAnnotations(resource.annotations)]
      && resource.annotations.entries == old(resource.annotations.entries) - {SCAN_INFO_ANNOTATION}
    ensures response.reason == if response.patches == [] then NotPatchedError else PatchedDeleteStale
  {
    var patch := CreatePatchToDeleteIfNeeded(resource);
    if patch.None? {
      return Response(true, 500, NotPatchedError, Some(Wrapped("not patched", err)), []);
    }
    return Response(true, 500, PatchedDeleteStale, Some(Wrapped("stale deleted", err)), [patch.value]);
  }

  /** `handleWorkLoadResourceRequest`; `provider` is what the scan-info provider answers. */
  method HandleWorkLoadResourceRequest(resource: WorkloadResource, provider: Attempt<Slice<ScanInfo>>,
      timestamp: string)
    returns (response: Response, err: Err)
    modifies resource, if resource.annotations == null then {} else {resource.annotations}
    ensures err.Some? <==> provider.err.Some?
    ensures err.Some? ==>
      && Cause(err.value) == Cause(provider.err.value)
      && resource.annotations == old(resource.annotations)
      && (resource.annotations != null ==> resource.annotations.entries == old(resource.annotations.entries))
    ensures err.None? ==>
      && response.allowed && response.code == 200 && response.err.None? && response.reason == PatchedReason
      && resource.annotations != null && response.patches == [AddAnnotations(resource.annotations)]
      && resource.annotations.entries ==
           (if old(resource.annotations) == null then map[] else old(resource.annotations.entries))
             [SCAN_INFO_ANNOTATION := ScanInfoValue(timestamp, provider.value)]
  {
    if provider.err.Some? {
      response := Response(false, 0, NotPatchedError, None, []);
      return response, Wrap(Wrap(provider.err, "provider"), "workload");
    }
    var patch := CreatePatchAdd(provider.value, resource, timestamp);
    return Response(true, 200, PatchedReason, None, [patch]), None;
  }

  /** `Handle`, for a handler with at least one supported kind (it logs the first). Every request is
      allowed, with at most one patch, whose effect is `Effect`. */
  method Handle(c: HandlerConfiguration, req: AdmissionRequest, extraction: Err,
      provider: Attempt<Slice<ScanInfo>>, timestamp: string)
    returns (response: Response)
    requires c.supportedKinds != []
    ensures response.allowed && |response.patches| <= 1
    ensures Patched(req.original, response.patches) == Effect(c, req, extraction, provider, timestamp)
    ensures response.code == if FilterReason(c, req).None? && (extraction.Some? || provider.err.Some?) then 500 else 200
    ensures response.err.Some? <==> response.code == 500
    ensures response.err.Some? ==>
      && (extraction.Some? || provider.err.Some?)
      && Cause(response.err.value) == Cause(if extraction.Some? then extraction.value else provider.err.value)
    ensures FilterReason(c, req).Some? ==> response.reason == FilterReason(c, req).value && response.patches == []
    ensures response.reason ==
      if req.namespace == c.ownNamespace then SelfManagement
      else if req.kind !in c.supportedKinds then NotSupportedKind
      else if req.operation !in {"CREATE", "UPDATE"} then NotSupportedOperation
      else if response.code == 500 then (if response.patches == [] then NotPatchedError else PatchedDeleteStale)
      else if c.dryRun then DryRunReason
      else PatchedReason
  {
    var reason := FilterReason(c, req);
    if reason.Some? {
      return Response(true, 200, reason.value, None, []);
    }
    if extraction.Some? {
      return Response(true, 500, NotPatchedError, Wrap(Wrap(extraction, "handle request"), "not patched"), []);
    }
    var resource := new WorkloadResource(req.original);
    var err;
    response, err := HandleWorkLoadResourceRequest(resource, provider, timestamp);
    if err.Some? {
      response := ResponseWhenErrorEncountered(resource, Wrapped("handle", err.value));
      return;
    }
    if c.dryRun {
      return Response(true, 200, DryRunReason, None, []);
    }
  }

  /** Only the scan information ever changes. It is there afterwards exactly when results were patched
      in, or when it was there before and the request was filtered, not extracted, or a successful dry
      run; a provider error removes it, dry run or not. */
  lemma EffectMeans(c: HandlerConfiguration, req: AdmissionRequest, extraction: Err,
      provider: Attempt<Slice<ScanInfo>>, timestamp: string)
    ensures var after, before := Effect(c, req, extraction, provider, timestamp), Base(req.original);
            var looked := req.namespace != c.ownNamespace && req.kind in c.supportedKinds
                          && req.operation in {"CREATE", "UPDATE"} && extraction.None?;
            var scan := SCAN_INFO_ANNOTATION;
      && (forall key :: key != scan ==> (key in Base(after) <==> key in before))
      && (forall key :: key != scan && key in before ==> Base(after)[key] == before[key])
      && (after != req.original ==> looked && (provider.err.Some? || !c.dryRun))
      && (looked && provider.err.Some? ==> scan !in Base(after))
      && (looked && provider.err.None? && !c.dryRun ==> scan in Base(after) && Base(after)[scan] == ScanInfoValue(timestamp, provider.value))
  {
  }

  /** The webhook may be called again on an object it has patched: the same answer changes nothing
      more, a newer answer replaces the older one, and a provider error takes the patch back, leaving
      what the object had beside the scan information. */
  lemma CalledAgain(c: HandlerConfiguration, req: AdmissionRequest, first: Slice<ScanInfo>, time1: string,
      second: Attempt<Slice<ScanInfo>>, time2: string)
    requires FilterReason(c, req).None? && !c.dryRun
    ensures var once := Effect(c, req, None, Attempt(first, None), time1);
            var again := Effect(c, req.(original := once), None, second, time2);
      && once.Some?
      && (second.err.None? ==> again == Effect(c, req, None, second, time2))
      && (second.err.Some? ==> again == Some(Base(req.original) - {SCAN_INFO_ANNOTATION}))
  {
    var before, key := Base(req.original), SCAN_INFO_ANNOTATION;
    var value := ScanInfoValue(time1, first);
    assert before[key := value] - {key} == before - {key};
    assert before[key := value][key := ScanInfoValue(time2, second.value)] == before[key := ScanInfoValue(time2, second.value)];
  }
}
