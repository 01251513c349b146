/** Scan results of an image: the classification of query rows, and the scan-result cache in front
    of the query, keyed by digest alone. */
module ArgDataProvider {
  import opened GoErrors
  import opened Contracts
  import opened JsonCodec
  import opened CacheStore
  import opened KeySpace
  import opened ProviderCache
  import opened RetryPolicy
  import opened ArgClient
  import opened CacheClients

  datatype QueryRow = QueryRow(scanStatus: string, severity: string, findingsIds: string, patchable: bool)

  /** A boolean with the `string` option: its text in quotes. */
  function DecodeQuotedBool(j: Json): Option<bool> {
    match j
    case JNull => Some(false)
    case JString(s) => if s == "true" then Some(true) else if s == "false" || s == "null" then Some(false) else None
    case _ => None
  }

  function DecodeRow(j: Json): Option<QueryRow> {
    if !j.JObject? then None
    else
      var status := DecodeString(Field(j.fields, "scanStatus"));
      var severity := DecodeString(Field(j.fields, "scanFindingSeverity"));
      var ids := DecodeString(Field(j.fields, "findingsIds"));
      var patchable := DecodeQuotedBool(Field(j.fields, "patchable"));
      if status.Some? && severity.Some? && ids.Some? && patchable.Some?
      then Some(QueryRow(status.value, severity.value, ids.value, patchable.value)) else None
  }

  /** A row as the query projects it, with its flag as text, beside columns that are not read. */
  function Projected(row: QueryRow, columns: map<string, Json>): Json {
    JObject(columns + map["scanStatus" := JString(row.scanStatus), "scanFindingSeverity" := JString(row.severity),
                "findingsIds" := JString(row.findingsIds), "patchable" := JString(if row.patchable then "true" else "false")])
  }

  lemma RowReadsBack(row: QueryRow, columns: map<string, Json>)
    ensures DecodeRow(Projected(row, columns)) == Some(row)
  {
  }

  /** `parseARGImageScanResults`: an error for a nil list or a row of the wrong shape. */
  function ParseRows(rows: Slice<Json>): Attempt<Slice<QueryRow>> {
    if rows.NilSlice? then Attempt(NilSlice, Some(Wrapped("parse", Plain("nil results"))))
    else
      var parsed := DecodeAll(rows.elems, DecodeRow);
      if parsed.None? then Attempt(NilSlice, Some(Wrapped("unmarshal", Plain("invalid json"))))
      else Attempt(Slice(parsed.value), None)
  }

  /** Which rows parse: objects whose three texts are texts, null or absent, and whose flag is the text of
      a boolean, null or absent; it is set exactly by the text "true". */
  lemma RowParsesIff(j: Json)
    ensures DecodeRow(j).Some? <==>
      && j.JObject?
      && TextOrNothing(Field(j.fields, "scanStatus")) && TextOrNothing(Field(j.fields, "scanFindingSeverity"))
      && TextOrNothing(Field(j.fields, "findingsIds"))
      && Field(j.fields, "patchable") in {JNull, JString("true"), JString("false"), JString("null")}
    ensures DecodeRow(j).Some? ==> (DecodeRow(j).value.patchable <==> Field(j.fields, "patchable") == JString("true"))
  {
    assert "true"[0] == 't' && "false"[0] == 'f' && "null"[0] == 'n';
  }

  /** Parsing takes the rows of a query apart again, all of them and in their order. */
  lemma RowsReadBack(rows: seq<QueryRow>, columns: seq<map<string, Json>>, js: seq<Json>)
    requires |js| == |rows| == |columns| && forall i :: 0 <= i < |js| ==> js[i] == Projected(rows[i], columns[i])
    ensures ParseRows(Slice(js)) == Attempt(Slice(rows), None)
  {
    hide DecodeRow, Projected;
    forall i | 0 <= i < |rows| ensures DecodeRow(js[i]) == Some(rows[i]) {
      RowReadsBack(rows[i], columns[i]);
    }
    DecodeAllMapped(rows, rows, js, DecodeRow);
  }

  datatype ScanData = ScanData(status: string, findings: Slice<ScanFinding>)

  /** `strings.EqualFold` with "Healthy"; none of its letters folds to a character outside ASCII. */
  predicate SaysHealthy(row: QueryRow) {
    Lower(row.scanStatus) == "healthy"
  }

  /** A status says healthy exactly when it spells that in any mixture of cases. */
  lemma SaysHealthyIff(row: QueryRow)
    ensures SaysHealthy(row) <==> Spells(row.scanStatus, "healthy")
  {
    LowerSpells(row.scanStatus, "healthy");
  }

  function Finding(row: QueryRow): ScanFinding {
    ScanFinding(row.patchable, row.findingsIds, row.severity)
  }

  function Findings(rows: seq<QueryRow>): seq<ScanFinding> {
    seq(|rows|, i requires 0 <= i < |rows| => Finding(rows[i]))
  }

  /** `getImageScanDataFromARGQueryScanResult`. */
  function Classify(rows: Slice<QueryRow>): Attempt<ScanData> {
    if rows.NilSlice? then Attempt(ScanData("", NilSlice), Some(Wrapped("classify", Plain("nil results"))))
    else if rows.elems == [] then Attempt(ScanData(UNSCANNED, NilSlice), None)
    else if |rows.elems| == 1 && SaysHealthy(rows.elems[0]) then Attempt(ScanData(HEALTHY, Slice([])), None)
    else Attempt(ScanData(UNHEALTHY, Slice(Findings(rows.elems))), None)
  }

  method GetImageScanDataFromARGQueryScanResult(rows: Slice<QueryRow>) returns (data: ScanData, err: Err)
    ensures Attempt(data, err) == Classify(rows)
  {
    if rows.NilSlice? {
      return ScanData("", NilSlice), Some(Wrapped("classify", Plain("nil results")));
    }
    if |rows.elems| == 0 {
      return ScanData(UNSCANNED, NilSlice), None;
    }
    if |rows.elems| == 1 && SaysHealthy(rows.elems[0]) {
      return ScanData(HEALTHY, Slice([])), None;
    }
    var findings := [];
    for i := 0 to |rows.elems|
      invariant findings == Findings(rows.elems)[..i]
    {
      findings := findings + [Finding(rows.elems[i])];
    }
    assert findings == Findings(rows.elems);
    return ScanData(UNHEALTHY, Slice(findings)), None;
  }

  /** Status and findings agree: nil for unscanned, empty but not nil for healthy, and at least one
      finding for unhealthy. */
  predicate Consistent(data: ScanData) {
    || (data.status == UNSCANNED && data.findings.NilSlice?)
    || (data.status == HEALTHY && data.findings == Slice([]))
    || (data.status == UNHEALTHY && data.findings.Slice? && data.findings.elems != [])
  }

  /** The whole path from query rows to scan data, without the cache. */
  function ScanOf(query: Attempt<Slice<Json>>): Attempt<ScanData> {
    var parsed := ParseRows(query.value);
    if query.err.Some? then Attempt(ScanData("", NilSlice), Wrap(query.err, "query"))
    else if parsed.err.Some? then Attempt(ScanData("", NilSlice), Wrap(parsed.err, "parse rows"))
    else
      var r := Classify(parsed.value);
      if r.err.Some? then Attempt(ScanData("", NilSlice), Wrap(r.err, "scan data")) else r
  }

  /** What the query path returns, from the rows: an error exactly for a failed query, a nil list or a
      row that does not parse; otherwise consistent data: unscanned exactly for no rows, healthy exactly
      for one row that says so, and else one finding per row, in order. */
  lemma ScanMeans(query: Attempt<Slice<Json>>)
    ensures var r, rows := ScanOf(query), Elems(query.value);
      && (r.err.Some? <==> query.err.Some? || query.value.NilSlice? || exists j :: j in rows && DecodeRow(j).None?)
      && (query.err.Some? ==> Cause(r.err.value) == Cause(query.err.value))
      && (r.err.None? ==>
          && Consistent(r.value)
          && (r.value.status == UNSCANNED <==> rows == [])
          && (r.value.status == HEALTHY <==> |rows| == 1 && Spells(DecodeRow(rows[0]).value.scanStatus, "healthy"))
          && (r.value.status == UNHEALTHY ==> |r.value.findings.elems| == |rows|)
          && (r.value.status == UNHEALTHY ==>
                forall i :: 0 <= i < |rows| ==>
                  var row := DecodeRow(rows[i]).value;
                  r.value.findings.elems[i] == ScanFinding(row.patchable, row.findingsIds, row.severity)))
  {
    if query.err.None? && query.value.Slice? {
      var rows := query.value.elems;
      DecodeAllKeepsLength(rows, DecodeRow);
      if |rows| == 1 && DecodeRow(rows[0]).Some? {
        SaysHealthyIff(DecodeRow(rows[0]).value);
      }
      if DecodeAll(rows, DecodeRow).None? {
        DecodeAllFails(rows, DecodeRow);
      }
    }
  }

  /** From the pages to the status: an image is unscanned exactly when every allowed attempt of the
      query went through all its pages and found no row. */
  lemma UnscannedIff(service: Service, first: nat, pages: nat, retryAttempts: int)
    requires FiniteChains(service, pages) && OwnSentinel(service) && retryAttempts >= 1
    ensures var r := ScanOf(QueryResult(service, first, pages, retryAttempts));
      r.err.None? && r.value.status == UNSCANNED
      <==> forall k :: 0 <= k < retryAttempts ==>
             AttemptAt(service, first, pages, k).err.None? && AttemptAt(service, first, pages, k).rows == []
  {
    QueryMeans(service, first, pages, retryAttempts);
    ScanMeans(QueryResult(service, first, pages, retryAttempts));
    hide ScanOf, QueryResult, AttemptAt, FiniteChains, OwnSentinel, Consistent, DecodeRow;
  }

  // The cache in front of the query.

  datatype ScanConfig = ScanConfig(backend: Backend, unscannedMinutes: int, scannedHours: int)

  /** The time-to-live of a result depends on its status. */
  function ScanTtl(c: ScanConfig, status: string): int {
    if status == UNSCANNED then Duration(c.unscannedMinutes, MINUTE) else Duration(c.scannedHours, HOUR)
  }

  function ScanRead(store: Store, digest: string, now: nat, faulty: bool): Option<ScanData> {
    var v := Read(store, digest, now);
    if faulty || v.None? then None else ScanOfText(v.value)
  }

  /** `parseScanFindingsFromCache`; `None` is a text that does not parse. */
  function ScanOfText(v: Value): Option<ScanData> {
    if !v.Doc? then None
    else
      var found := UnmarshalScanFindings(v.tree);
      if found.None? then None else Some(ScanData(found.value.0, found.value.1))
  }

  /** Read through Redis, a scan result is read as the provider does, faulty exactly when every attempt
      meets a fault. Without any attempt every such read is a faulty one, and the query is asked. */
  lemma ScanReadThroughRedis(config: RetryPolicyConfiguration, store: Store, digest: string, now: nat, faults: nat -> Err)
    requires RealFaults(faults)
    ensures var r := RedisGet(config, store, digest, now, faults);
            var faulty := OverRedis(config).Faulty(faults);
      && (config.retryAttempts <= 0 ==> faulty)
      && (if r.err.None? then ScanOfText(r.value) else None) == ScanRead(store, digest, now, faulty)
  {
    HitsIff(OverRedis(config), store, digest, now, faults);
  }

  function ScanEntry(c: ScanConfig, data: ScanData, now: nat): Entry
    requires ScanTtl(c, data.status) >= 0
  {
    Entry(Doc(MarshalScanFindings(data.status, data.findings)), now, ExpiryAt(c.backend, now, ScanTtl(c, data.status)))
  }

  /** A query by registry, repository and digest. */
  type Query = (string, string, string) -> Attempt<Slice<Json>>

  ghost predicate DependsOnDigestOnly(query: Query) {
    forall g1, p1, g2, p2, d :: query(g1, p1, d) == query(g2, p2, d)
  }

  /** A query that succeeded with some scan data: registry, repository and digest. */
  type Asked = (string, string, string)

  ghost predicate Gave(query: Query, q: Asked, data: ScanData) {
    ScanOf(query(q.0, q.1, q.2)) == Attempt(data, None)
  }

  /** The scan entries of a shared store: each holds, under the expiry its status asks for, what the
      query gave for some registry and repository and this digest. Entries under keys of other shapes
      belong to others. */
  ghost predicate ScansOk(c: ScanConfig, query: Query, asked: set<Asked>, store: Store) {
    forall d :: d in store && ScanKey(d) ==> EntryOk(c, query, asked, d, store[d])
  }

  ghost predicate EntryOk(c: ScanConfig, query: Query, asked: set<Asked>, digest: string, entry: Entry) {
    exists q :: q in asked && q.2 == digest && FromQuery(c, query, q, entry)
  }

  ghost predicate FromQuery(c: ScanConfig, query: Query, q: Asked, entry: Entry) {
    var scan := ScanOf(query(q.0, q.1, q.2));
    scan.err.None? && ScanTtl(c, scan.value.status) >= 0 && entry == ScanEntry(c, scan.value, entry.storedAt)
  }

  /** An entry is read back as exactly what its query gave. */
  lemma EntryReadsBack(c: ScanConfig, query: Query, q: Asked, store: Store, now: nat, faulty: bool)
    requires q.2 in store && FromQuery(c, query, q, store[q.2]) && ScanRead(store, q.2, now, faulty).Some?
    ensures Gave(query, q, ScanRead(store, q.2, now, faulty).value)
  {
    var scan := ScanOf(query(q.0, q.1, q.2));
    ScanFindingsRoundTrip(scan.value.status, scan.value.findings);
  }

  /** A result that a spawned goroutine has still to store. */
  datatype Pending = Pending(registry: string, repository: string, digest: string, data: ScanData)

  class ARGDataProvider {
    const config: ScanConfig
    const query: Query
    const shared: SharedCache
    var storing: seq<Pending>
    // Every query that has succeeded.
    ghost var asked: set<Asked>

    constructor (config: ScanConfig, query: Query, shared: SharedCache)
      ensures this.config == config && this.query == query && this.shared == shared && storing == [] && asked == {}
    {
      this.config, this.query, this.shared := config, query, shared;
      storing, asked := [], {};
    }

    ghost predicate Valid()
      reads this, shared
    {
      && ScansOk(config, query, asked, shared.store)
      && forall p :: p in storing ==>
           ScanKey(p.digest) && (p.registry, p.repository, p.digest) in asked
           && Gave(query, (p.registry, p.repository, p.digest), p.data)
    }

    /** `GetImageVulnerabilityScanResults`. On a miss and on a cache failure the answer is what the query
        gives for the caller's own registry and repository; on a hit it is what the query gave for those
        of an earlier caller with the same digest. When the query depends on the digest only, all three
        are the same. */
    method GetImageVulnerabilityScanResults(registry: string, repository: string, digest: string, now: nat, faulty: bool)
      returns (data: ScanData, err: Err)
      requires Valid() && ScanKey(digest)
      modifies this
      ensures Valid() && asked == if err.None? && ScanRead(shared.store, digest, now, faulty).None?
                                  then old(asked) + {(registry, repository, digest)} else old(asked)
      ensures var own := ScanOf(query(registry, repository, digest));
        if ScanRead(shared.store, digest, now, faulty).Some?
        then err.None? && storing == old(storing) && exists q :: q in old(asked) && q.2 == digest && Gave(query, q, data)
        else
          && (err.Some? <==> own.err.Some?)
          && (err.None? ==> data == own.value && storing == old(storing) + [Pending(registry, repository, digest, data)])
          && (err.Some? ==> data == ScanData("", NilSlice) && Cause(err.value) == Cause(own.err.value) && storing == old(storing))
      ensures DependsOnDigestOnly(query) ==>
        var own := ScanOf(query(registry, repository, digest));
        (err.Some? <==> own.err.Some?) && (err.None? ==> data == own.value)
    {
      var cached := ScanRead(shared.store, digest, now, faulty);
      if cached.Some? {
        ghost var q :| q in asked && q.2 == digest && FromQuery(config, query, q, shared.store[digest]);
        EntryReadsBack(config, query, q, shared.store, now, faulty);
        return cached.value, None;
      }
      var scan := ScanOf(query(registry, repository, digest));
      if scan.err.Some? {
        return ScanData("", NilSlice), Wrap(scan.err, "results from ARG");
      }
      asked := asked + {(registry, repository, digest)};
      storing := storing + [Pending(registry, repository, digest, scan.value)];
      return scan.value, None;
    }

    /** `SetScanFindingsInCache`, run by one of the goroutines, under a digest key of the shared cache. */
    method SetScanFindingsInCache(i: nat, now: nat, w: WriteOutcome) returns (err: Err)
      requires Valid() && i < |storing|
      modifies this, shared
      ensures Valid() && asked == old(asked) && storing == old(storing[..i] + storing[i + 1..])
      ensures var p := old(storing)[i];
        && ScanKey(p.digest)
        && shared.store == (if w == Lost || ScanTtl(config, p.data.status) < 0 then old(shared.store)
                            else old(shared.store)[p.digest := ScanEntry(config, p.data, now)])
        && (err.None? <==> w == Applied && ScanTtl(config, p.data.status) >= 0)
    {
      var p := storing[i];
      assert storing[i] in storing;
      storing := storing[..i] + storing[i + 1..];
      var ttl := Duration(config.scannedHours, HOUR);
      if p.data.status == UNSCANNED {
        ttl := Duration(config.unscannedMinutes, MINUTE);
      }
      if ttl < 0 {
        return Some(Wrapped("set digest", NegativeExpiration));
      }
      if w != Lost {
        shared.store := shared.store[p.digest := ScanEntry(config, p.data, now)];
        assert FromQuery(config, query, (p.registry, p.repository, p.digest), shared.store[p.digest]);
      }
      err := if w == Applied then None else Some(Wrapped("set digest", Plain("cache failure")));
    }
  }

  /** A stored result is served, unchanged, exactly until the time-to-live of its status has passed;
      in particular a validated one never outlives it. */
  lemma ServedUntilTtl(c: ScanConfig, store: Store, digest: string, data: ScanData, now: nat, later: nat)
    requires 0 < c.unscannedMinutes && c.unscannedMinutes * MINUTE <= INT64_MAX
    requires 0 < c.scannedHours && c.scannedHours * HOUR <= INT64_MAX && now <= later
    ensures ScanTtl(c, data.status) == if data.status == UNSCANNED then c.unscannedMinutes * MINUTE else c.scannedHours * HOUR
    ensures ScanRead(store[digest := ScanEntry(c, data, now)], digest, later, false)
            == if later < now + ScanTtl(c, data.status) then Some(data) else None
  {
    ValidatedTtl(c.backend, c.unscannedMinutes, MINUTE, now);
    ValidatedTtl(c.backend, c.scannedHours, HOUR, now);
    ScanFindingsRoundTrip(data.status, data.findings);
  }

  // The key is the digest alone, so an image is served the result of another with the same digest.

  /** A query that looks at registry and repository only through `fold`. */
  ghost predicate Folds(query: Query, fold: string -> string) {
    forall g1, p1, g2, p2, d ::
      fold(g1) == fold(g2) && fold(p1) == fold(p2) ==> query(g1, p1, d) == query(g2, p2, d)
  }

  /** Whenever the query gave something for (g1, p1), it gives the same for (g2, p2). */
  ghost predicate SharesRightly(query: Query, g1: string, p1: string, g2: string, p2: string, digest: string) {
    var first := ScanOf(query(g1, p1, digest));
    first.err.None? ==> ScanOf(query(g2, p2, digest)) == first
  }

  ghost predicate AlwaysSharesRightly(fold: string -> string, g1: string, p1: string, g2: string, p2: string, digest: string) {
    forall query: Query {:trigger Folds(query, fold)} :: Folds(query, fold) ==> SharesRightly(query, g1, p1, g2, p2, digest)
  }

  /** A result stored for one image is right for another of the same digest, whatever the query, exactly
      when registry and repository are the storer's, up to what the query tells apart: with the
      identity for `fold` any query, with `Lower` the one that is used, which compares them without
      regard to case. */
  lemma HitIsRightIff(fold: string -> string, g1: string, p1: string, g2: string, p2: string, digest: string)
    ensures AlwaysSharesRightly(fold, g1, p1, g2, p2, digest) <==> fold(g1) == fold(g2) && fold(p1) == fold(p2)
  {
    if fold(g1) != fold(g2) || fold(p1) != fold(p2) {
      var row := JObject(map[]);
      var query: Query := (g: string, p: string, d: string) =>
        if fold(g) == fold(g1) && fold(p) == fold(p1) then Attempt(Slice([]), None) else Attempt(Slice([row]), None);
      assert Folds(query, fold);
      ScanMeans(query(g1, p1, digest));
      ScanMeans(query(g2, p2, digest));
      assert DecodeRow(row).Some?;
      assert !SharesRightly(query, g1, p1, g2, p2, digest);
    }
  }

  /** What a look-up for any image of a digest finds after a result was stored for it, until the
      time-to-live of its status has passed: the storer's result. */
  lemma SameDigestSharesResult(c: ScanConfig, query: Query, q: Asked, store: Store, data: ScanData, now: nat, later: nat)
    requires 0 < c.unscannedMinutes && c.unscannedMinutes * MINUTE <= INT64_MAX
    requires 0 < c.scannedHours && c.scannedHours * HOUR <= INT64_MAX && now <= later
    requires Gave(query, q, data)
    ensures ScanTtl(c, data.status) >= 0
    ensures var served := ScanRead(store[q.2 := ScanEntry(c, data, now)], q.2, later, false);
      && (served.Some? <==> later < now + ScanTtl(c, data.status))
      && (served.Some? ==> Gave(query, q, served.value))
  {
    ServedUntilTtl(c, store, q.2, data, now, later);
  }
}
