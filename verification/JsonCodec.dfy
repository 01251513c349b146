/** Scan results as JSON trees: what is stored in the cache and in the annotation, and what is
    read back. JSON text is not modelled; `json.Marshal` and `json.Unmarshal` are these trees. */
module JsonCodec {
  import opened GoErrors
  import opened Contracts

  datatype Json =
    | JNull
    | JBool(b: bool)
    | JString(s: string)
    | JArray(elems: seq<Json>)
    | JObject(fields: map<string, Json>)

  // Field readers follow `json.Unmarshal`: an absent or null field keeps its zero value, a
  // value of the wrong kind is an error (`None`).

  function Field(fields: map<string, Json>, name: string): Json {
    if name in fields then fields[name] else JNull
  }

  function DecodeString(j: Json): Option<string> {
    match j
    case JNull => Some("")
    case JString(s) => Some(s)
    case _ => None
  }

  function DecodeBool(j: Json): Option<bool> {
    match j
    case JNull => Some(false)
    case JBool(b) => Some(b)
    case _ => None
  }

  function EncodeSlice<T>(s: Slice<T>, encode: T -> Json): Json {
    match s
    case NilSlice => JNull
    case Slice(xs) => JArray(seq(|xs|, i requires 0 <= i < |xs| => encode(xs[i])))
  }

  function DecodeAll<T>(js: seq<Json>, decode: Json -> Option<T>): Option<seq<T>> {
    if js == [] then Some([])
    else
      var first, rest := decode(js[0]), DecodeAll(js[1..], decode);
      if first.Some? && rest.Some? then Some([first.value] + rest.value) else None
  }

  function DecodeSlice<T>(j: Json, decode: Json -> Option<T>): Option<Slice<T>> {
    match j
    case JNull => Some(NilSlice)
    case JArray(js) =>
      var xs := DecodeAll(js, decode);
      if xs.Some? then Some(Slice(xs.value)) else None
    case _ => None
  }

  function EncodeFinding(f: ScanFinding): Json {
    JObject(map["patchable" := JBool(f.patchable), "id" := JString(f.id), "severity" := JString(f.severity)])
  }

  function DecodeFinding(j: Json): Option<ScanFinding> {
    if !j.JObject? then None
    else
      var patchable := DecodeBool(Field(j.fields, "patchable"));
      var id := DecodeString(Field(j.fields, "id"));
      var severity := DecodeString(Field(j.fields, "severity"));
      if patchable.Some? && id.Some? && severity.Some?
      then Some(ScanFinding(patchable.value, id.value, severity.value)) else None
  }

  function EncodeImage(image: Image): Json {
    JObject(map["name" := JString(image.name), "digest" := JString(image.digest)])
  }

  function DecodeImage(j: Json): Option<Image> {
    if !j.JObject? then None
    else
      var name, digest := DecodeString(Field(j.fields, "name")), DecodeString(Field(j.fields, "digest"));
      if name.Some? && digest.Some? then Some(Image(name.value, digest.value)) else None
  }

  /** `additionalData` carries `omitempty`: nil and empty maps are both left out. */
  function EncodeAdditionalData(data: Option<map<string, string>>): map<string, Json> {
    if data.None? || data.value == map[] then map[]
    else map["additionalData" := JObject(map key | key in data.value :: JString(data.value[key]))]
  }

  function DecodeAdditionalData(j: Json): Option<Option<map<string, string>>> {
    match j
    case JNull => Some(None)
    case JObject(fields) =>
      if forall key | key in fields :: DecodeString(fields[key]).Some?
      then Some(Some(map key | key in fields :: DecodeString(fields[key]).value))
      else None
    case _ => None
  }

  function EncodeInfo(info: ScanInfo): Json {
    JObject(map[
      "name" := JString(info.name),
      "image" := EncodeImage(info.image),
      "scanStatus" := JString(info.scanStatus),
      "scanFindings" := EncodeSlice(info.scanFindings, EncodeFinding)]
      + EncodeAdditionalData(info.additionalData))
  }

  function DecodeInfo(j: Json): Option<ScanInfo> {
    if !j.JObject? then None
    else
      var name := DecodeString(Field(j.fields, "name"));
      var image := DecodeImage(Field(j.fields, "image"));
      var status := DecodeString(Field(j.fields, "scanStatus"));
      var findings := DecodeSlice(Field(j.fields, "scanFindings"), DecodeFinding);
      var data := DecodeAdditionalData(Field(j.fields, "additionalData"));
      if name.Some? && image.Some? && status.Some? && findings.Some? && data.Some?
      then Some(ScanInfo(name.value, image.value, status.value, findings.value, data.value)) else None
  }

  lemma {:induction false} DecodeAllKeepsLength<T>(js: seq<Json>, decode: Json -> Option<T>)
    ensures DecodeAll(js, decode).Some? ==>
      && |DecodeAll(js, decode).value| == |js|
      && forall i :: 0 <= i < |js| ==> decode(js[i]) == Some(DecodeAll(js, decode).value[i])
  {
    if js != [] {
      DecodeAllKeepsLength(js[1..], decode);
    }
  }

  lemma {:induction false} DecodeAllFails<T>(js: seq<Json>, decode: Json -> Option<T>)
    requires DecodeAll(js, decode).None?
    ensures exists j :: j in js && decode(j).None?
  {
    if decode(js[0]).Some? {
      DecodeAllFails(js[1..], decode);
    }
  }

  // What is read at all: each decoder accepts exactly these shapes, and anything else is an error.

  predicate TextOrNothing(j: Json) {
    j.JNull? || j.JString?
  }

  predicate FindingShape(j: Json) {
    && j.JObject? && (Field(j.fields, "patchable").JNull? || Field(j.fields, "patchable").JBool?)
    && TextOrNothing(Field(j.fields, "id")) && TextOrNothing(Field(j.fields, "severity"))
  }

  predicate InfoShape(j: Json) {
    && j.JObject? && TextOrNothing(Field(j.fields, "name")) && TextOrNothing(Field(j.fields, "scanStatus"))
    && var image, findings, data := Field(j.fields, "image"), Field(j.fields, "scanFindings"), Field(j.fields, "additionalData");
       && image.JObject? && TextOrNothing(Field(image.fields, "name")) && TextOrNothing(Field(image.fields, "digest"))
       && (findings.JNull? || (findings.JArray? && forall f :: f in findings.elems ==> FindingShape(f)))
       && (data.JNull? || (data.JObject? && forall key :: key in data.fields ==> TextOrNothing(data.fields[key])))
  }

  lemma DecodesSliceIff<T(!new)>(j: Json, decode: Json -> Option<T>)
    ensures DecodeSlice(j, decode).Some? <==> j.JNull? || (j.JArray? && forall e :: e in j.elems ==> decode(e).Some?)
  {
    if j.JArray? {
      DecodeAllKeepsLength(j.elems, decode);
      if DecodeAll(j.elems, decode).None? {
        DecodeAllFails(j.elems, decode);
      }
    }
  }

  lemma FindingParsesIff(j: Json)
    ensures DecodeFinding(j).Some? <==> FindingShape(j)
  {
  }

  lemma InfoParsesIff(j: Json)
    ensures DecodeInfo(j).Some? <==> InfoShape(j)
  {
    if j.JObject? {
      var findings := Field(j.fields, "scanFindings");
      DecodesSliceIff(findings, DecodeFinding);
      forall f ensures DecodeFinding(f).Some? <==> FindingShape(f) {
        FindingParsesIff(f);
      }
      hide DecodeSlice, DecodeFinding, FindingShape;
    }
  }

  // What one trip through JSON does to a value: an empty additional-data map comes back nil.

  function Normalize(info: ScanInfo): ScanInfo {
    if info.additionalData == Some(map[]) then info.(additionalData := None) else info
  }

  function NormalizeList(list: Slice<ScanInfo>): Slice<ScanInfo> {
    match list
    case NilSlice => NilSlice
    case Slice(xs) => Slice(seq(|xs|, i requires 0 <= i < |xs| => Normalize(xs[i])))
  }

  lemma {:induction false} DecodeAllMapped<T>(xs: seq<T>, ys: seq<T>, js: seq<Json>, decode: Json -> Option<T>)
    requires |xs| == |ys| == |js|
    requires forall i :: 0 <= i < |js| ==> decode(js[i]) == Some(ys[i])
    ensures DecodeAll(js, decode) == Some(ys)
  {
    if js == [] {
    } else {
      DecodeAllMapped(xs[1..], ys[1..], js[1..], decode);
      assert ys == [ys[0]] + ys[1..];
    }
  }

  lemma FindingsRoundTrip(findings: Slice<ScanFinding>)
    ensures DecodeSlice(EncodeSlice(findings, EncodeFinding), DecodeFinding) == Some(findings)
  {
    if findings.Slice? {
      DecodeAllMapped(findings.elems, findings.elems, EncodeSlice(findings, EncodeFinding).elems, DecodeFinding);
    }
  }

  lemma AdditionalDataRoundTrip(data: Option<map<string, string>>)
    ensures DecodeAdditionalData(Field(EncodeAdditionalData(data), "additionalData"))
            == Some(if data == Some(map[]) then None else data)
  {
    if data.Some? && data.value != map[] {
      var inner := EncodeAdditionalData(data)["additionalData"];
      assert inner.fields.Keys == data.value.Keys;
      assert DecodeAdditionalData(inner).value.value == data.value;
    }
  }

  lemma InfoRoundTrip(info: ScanInfo)
    ensures DecodeInfo(EncodeInfo(info)) == Some(Normalize(info))
  {
    FindingsRoundTrip(info.scanFindings);
    AdditionalDataRoundTrip(info.additionalData);
    var fields := EncodeInfo(info).fields;
    assert Field(fields, "additionalData") == Field(EncodeAdditionalData(info.additionalData), "additionalData");
    assert fields["name"] == JString(info.name) && fields["scanStatus"] == JString(info.scanStatus);
    assert fields["image"] == EncodeImage(info.image);
    assert fields["scanFindings"] == EncodeSlice(info.scanFindings, EncodeFinding);
    hide EncodeAdditionalData, DecodeAdditionalData, EncodeSlice, DecodeSlice, EncodeInfo;
  }

  lemma ListRoundTrip(list: Slice<ScanInfo>)
    ensures DecodeSlice(EncodeSlice(list, EncodeInfo), DecodeInfo) == Some(NormalizeList(list))
  {
    if list.Slice? {
      var js := EncodeSlice(list, EncodeInfo).elems;
      forall i | 0 <= i < |js| ensures DecodeInfo(js[i]) == Some(NormalizeList(list).elems[i]) {
        InfoRoundTrip(list.elems[i]);
      }
      DecodeAllMapped(list.elems, NormalizeList(list).elems, js, DecodeInfo);
    }
  }

  // The result cache wraps a list and a flattened error (`containerVulnerabilityCacheResultsWrapper`).

  /** `marshalScanResults`: the error is kept only as its message. */
  function MarshalScanResults(list: Slice<ScanInfo>, err: Err): Json {
    JObject(map[
      "containerVulnerabilityScanInfo" := EncodeSlice(list, EncodeInfo),
      "err" := JString(if err.None? then "" else Message(err.value))])
  }

  /** What a stored result means to the reader: an error kept from an earlier run, or a list. */
  datatype Stored = StoredError(err: Error) | StoredList(list: Slice<ScanInfo>)

  /** `unmarshalScanResults` then `getErrorStoredInCache`: an empty message means no error. */
  function UnmarshalScanResults(j: Json): Option<Stored> {
    if !j.JObject? then None
    else
      var list := DecodeSlice(Field(j.fields, "containerVulnerabilityScanInfo"), DecodeInfo);
      var err := DecodeString(Field(j.fields, "err"));
      if list.None? || err.None? then None
      else if err.value != "" then Some(StoredError(Plain(err.value)))
      else Some(StoredList(list.value))
  }

  /** Which documents are results: a message or none, and a list of scan information or none. */
  lemma ResultsParseIff(j: Json)
    ensures UnmarshalScanResults(j).Some? <==>
      && j.JObject? && TextOrNothing(Field(j.fields, "err"))
      && var list := Field(j.fields, "containerVulnerabilityScanInfo");
         list.JNull? || (list.JArray? && forall e :: e in list.elems ==> InfoShape(e))
  {
    if j.JObject? {
      DecodesSliceIff(Field(j.fields, "containerVulnerabilityScanInfo"), DecodeInfo);
      forall e ensures DecodeInfo(e).Some? <==> InfoShape(e) {
        InfoParsesIff(e);
      }
      hide DecodeSlice, DecodeInfo, InfoShape;
    }
  }

  /** Store then load, for every list and error. */
  lemma StoreThenLoad(list: Slice<ScanInfo>, err: Err)
    ensures UnmarshalScanResults(MarshalScanResults(list, err)) ==
            Some(if err.Some? && Message(err.value) != "" then StoredError(Plain(Message(err.value)))
                 else StoredList(NormalizeList(list)))
  {
    ListRoundTrip(list);
  }

  /** A list comes back unchanged exactly when no element holds an empty, non-nil data map. */
  lemma ListSurvivesIff(list: Slice<ScanInfo>)
    ensures UnmarshalScanResults(MarshalScanResults(list, None)) == Some(StoredList(list))
            <==> forall info | info in Elems(list) :: info.additionalData != Some(map[])
  {
    StoreThenLoad(list, None);
    if list.Slice? {
      var back := NormalizeList(list).elems;
      if forall info | info in list.elems :: info.additionalData != Some(map[]) {
        assert back == list.elems;
      } else {
        var i :| 0 <= i < |list.elems| && list.elems[i].additionalData == Some(map[]);
        assert back[i].additionalData == None;
        assert back[i] != list.elems[i];
      }
    }
  }

  /** An error comes back as an error with the same message exactly when its message is not empty;
      otherwise it is read back as a successful result. Every wrapped error qualifies. */
  lemma ErrorSurvivesIff(list: Slice<ScanInfo>, e: Error)
    ensures var back := UnmarshalScanResults(MarshalScanResults(list, Some(e)));
            && back.Some?
            && (back.value.StoredError? <==> Message(e) != "")
            && (Message(e) != "" ==> Message(back.value.err) == Message(e))
    ensures e.Wrapped? ==> Message(e) != ""
  {
    StoreThenLoad(list, Some(e));
    if e.Wrapped? {
      assert |Message(e)| >= |": "|;
    }
  }

  // The scan-result cache keeps status and findings only (`ScanFindingsInCache`).

  function MarshalScanFindings(status: string, findings: Slice<ScanFinding>): Json {
    JObject(map["scanStatus" := JString(status), "scanFindings" := EncodeSlice(findings, EncodeFinding)])
  }

  function UnmarshalScanFindings(j: Json): Option<(string, Slice<ScanFinding>)> {
    if !j.JObject? then None
    else
      var status := DecodeString(Field(j.fields, "scanStatus"));
      var findings := DecodeSlice(Field(j.fields, "scanFindings"), DecodeFinding);
      if status.Some? && findings.Some? then Some((status.value, findings.value)) else None
  }

  lemma FindingsParseIff(j: Json)
    ensures UnmarshalScanFindings(j).Some? <==>
      && j.JObject? && TextOrNothing(Field(j.fields, "scanStatus"))
      && var findings := Field(j.fields, "scanFindings");
         findings.JNull? || (findings.JArray? && forall f :: f in findings.elems ==> FindingShape(f))
  {
    if j.JObject? {
      DecodesSliceIff(Field(j.fields, "scanFindings"), DecodeFinding);
      forall f ensures DecodeFinding(f).Some? <==> FindingShape(f) {
        FindingParsesIff(f);
      }
      hide DecodeSlice, DecodeFinding, FindingShape;
    }
  }

  lemma ScanFindingsRoundTrip(status: string, findings: Slice<ScanFinding>)
    ensures UnmarshalScanFindings(MarshalScanFindings(status, findings)) == Some((status, findings))
  {
    FindingsRoundTrip(findings);
  }

  // The annotation value (`ContainerVulnerabilityScanInfoList`).

  function MarshalAnnotation(timestamp: string, list: Slice<ScanInfo>): Json {
    JObject(map["generatedTimestamp" := JString(timestamp), "containers" := EncodeSlice(list, EncodeInfo)])
  }

  /** The annotation holds the time it was made and the list. */
  lemma AnnotationReadsBack(timestamp: string, list: Slice<ScanInfo>)
    ensures var tree := MarshalAnnotation(timestamp, list);
      && tree.JObject? && DecodeString(Field(tree.fields, "generatedTimestamp")) == Some(timestamp)
      && DecodeSlice(Field(tree.fields, "containers"), DecodeInfo) == Some(NormalizeList(list))
  {
    ListRoundTrip(list);
  }
}
