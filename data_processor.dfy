/** CSV mode: every uuid read from the file is looked up with a detail request, the details go
    through `process_company`, and the records that come back are collected in row order. */
module DataProcessor {
  import opened Common
  import opened Records
  import opened Crawler

  // ---------------------------------------------------------------- one uuid

  /** What `process_single_company(uuid, crawler)` returns: None when the details cannot be
      fetched, otherwise what `process_company(details, uuid)` returns. */
  function SingleResult(s: Services, uuid: string): Option<CompanyRecord>
  {
    match s.details(uuid)
    case None => None
    case Some(e) => BuildRecord(s, e, Some(uuid))
  }

  /** The calls `process_single_company(uuid, crawler)` makes: the detail request, then, when it
      answered, the calls of `process_company`. */
  function SingleRequests(s: Services, uuid: string): seq<Request>
  {
    [Details(uuid)] + match s.details(uuid)
      case None => []
      case Some(e) => PipelineRequests(s, e, Some(uuid))
  }

  /** Without details nothing more is done and the result is None; with details the result is
      exactly what `process_company` gives for them and the uuid; a record that comes back
      carries the uuid that was looked up. */
  lemma SingleCompanyGate(s: Services, uuid: string)
    ensures s.details(uuid).None? ==>
      SingleResult(s, uuid).None? && SingleRequests(s, uuid) == [Details(uuid)]
    ensures s.details(uuid).Some? ==>
      && SingleResult(s, uuid) == BuildRecord(s, s.details(uuid).value, Some(uuid))
      && SingleRequests(s, uuid) == [Details(uuid)] + PipelineRequests(s, s.details(uuid).value, Some(uuid))
    ensures SingleResult(s, uuid).Some? ==> SingleResult(s, uuid).value.uuid == Some(uuid)
  {
    if s.details(uuid).Some? {
      RecordFromArguments(s, s.details(uuid).value, Some(uuid));
    }
  }

  /** `process_single_company(uuid, crawler)`. Nothing in it raises: both calls catch their own
      failures. */
  method ProcessSingleCompany(crawler: Crawler, uuid: string) returns (result: Option<CompanyRecord>)
    modifies crawler
    ensures result == SingleResult(crawler.services, uuid)
    ensures crawler.companiesData == old(crawler.companiesData) + (if result.Some? then [result.value] else [])
    ensures crawler.requests == old(crawler.requests) + SingleRequests(crawler.services, uuid)
  {
    var details := crawler.GetCompanyDetails(uuid);
    if details.Some? {
      result := crawler.ProcessCompany(details.value, Some(uuid));
    } else {
      result := None;
    }
  }

  // ---------------------------------------------------------------- the whole file

  /** The work done for one row: its result and the calls it makes. */
  datatype RowTask = RowTask(result: string -> Option<CompanyRecord>, calls: string -> seq<Request>)

  /** `process_single_company(row['uuid'], crawler)`, as the collector runs it. */
  function Lookup(s: Services): RowTask
  {
    RowTask((u: string) => SingleResult(s, u), (u: string) => SingleRequests(s, u))
  }

  /** The calls of the tasks for the first n rows, one task after the other. */
  function RowCalls(t: RowTask, rows: seq<string>, n: nat): seq<Request>
    requires n <= |rows|
  {
    if n == 0 then [] else RowCalls(t, rows, n - 1) + t.calls(rows[n - 1])
  }

  /** What `process_csv_data` returns for the uuid column of a file (None when reading fails):
      the records that came back, in row order. */
  function Collected(s: Services, file: Option<seq<string>>): seq<CompanyRecord>
  {
    match file
    case None => []
    case Some(rows) => Somes(Results(Lookup(s).result, rows))
  }

  /** The calls `process_csv_data` makes. */
  function CollectorRequests(s: Services, file: Option<seq<string>>): seq<Request>
  {
    match file
    case None => []
    case Some(rows) => RowCalls(Lookup(s), rows, |rows|)
  }

  /** Never more records than rows. */
  lemma CollectedBound(s: Services, rows: seq<string>)
    ensures |Collected(s, Some(rows))| <= |rows|
  {
    SomesLength(Results(Lookup(s).result, rows));
  }

  /** A record is collected exactly when some row's lookup returned it. */
  lemma CollectedMembers(s: Services, rows: seq<string>, c: CompanyRecord)
    ensures c in Collected(s, Some(rows)) <==> exists i :: 0 <= i < |rows| && SingleResult(s, rows[i]) == Some(c)
  {
    var xs := Results(Lookup(s).result, rows);
    SomesMembers(xs, c);
    if Some(c) in xs {
      var i :| 0 <= i < |xs| && xs[i] == Some(c);
      assert SingleResult(s, rows[i]) == Some(c);
    }
    if exists i :: 0 <= i < |rows| && SingleResult(s, rows[i]) == Some(c) {
      var i :| 0 <= i < |rows| && SingleResult(s, rows[i]) == Some(c);
      assert xs[i] == Some(c);
    }
  }

  /** Row order is kept: the records of the earlier rows come first. */
  lemma CollectedInRowOrder(s: Services, a: seq<string>, b: seq<string>)
    ensures Collected(s, Some(a + b)) == Collected(s, Some(a)) + Collected(s, Some(b))
  {
    var t := Lookup(s);
    assert Results(t.result, a + b) == Results(t.result, a) + Results(t.result, b);
    SomesAppend(Results(t.result, a), Results(t.result, b));
  }

  /** When every lookup succeeds, record i is the one for row i. */
  lemma CollectedAllFound(s: Services, rows: seq<string>)
    requires forall i :: 0 <= i < |rows| ==> SingleResult(s, rows[i]).Some?
    ensures |Collected(s, Some(rows))| == |rows|
    ensures forall i :: 0 <= i < |rows| ==> Some(Collected(s, Some(rows))[i]) == SingleResult(s, rows[i])
  {
    SomesAllPresent(Results(Lookup(s).result, rows));
  }

  /** The uuids of the detail requests among some calls, in order. */
  function DetailUuids(rs: seq<Request>): seq<string>
  {
    if rs == [] then []
    else
      var last := rs[|rs| - 1];
      DetailUuids(rs[..|rs| - 1]) + (if last.Details? then [last.uuid] else [])
  }

  lemma {:induction false} DetailUuidsAppend(a: seq<Request>, b: seq<Request>)
    ensures DetailUuids(a + b) == DetailUuids(a) + DetailUuids(b)
    decreases |b|
  {
    if b == [] {
      assert a + b == a;
    } else {
      assert (a + b)[..|a + b| - 1] == a + b[..|b| - 1];
      DetailUuidsAppend(a, b[..|b| - 1]);
    }
  }

  lemma {:induction false} DetailUuidsNone(rs: seq<Request>)
    requires forall i :: 0 <= i < |rs| ==> !rs[i].Details?
    ensures DetailUuids(rs) == []
    decreases |rs|
  {
    if rs != [] {
      DetailUuidsNone(rs[..|rs| - 1]);
    }
  }

  /** A task's calls begin with the detail request for its uuid and make no other. */
  predicate DetailsFirst(calls: seq<Request>, u: string)
  {
    calls != [] && calls[0] == Details(u) && forall j :: 1 <= j < |calls| ==> !calls[j].Details?
  }

  /** `process_single_company` fetches the details once, first, and `process_company` fetches
      none. */
  lemma LookupDetailsFirst(s: Services, u: string)
    ensures DetailsFirst(Lookup(s).calls(u), u)
  {
    var tail := match s.details(u) case None => [] case Some(e) => PipelineRequests(s, e, Some(u));
    if s.details(u).Some? {
      PipelineCallsOnlyWebAndModel(s, s.details(u).value, Some(u));
    }
    assert SingleRequests(s, u) == [Details(u)] + tail;
  }

  /** Tasks whose calls begin with their own detail request and make no other give detail
      requests for the rows, in row order. */
  lemma {:induction false} DetailsInRowOrder(t: RowTask, rows: seq<string>, n: nat)
    requires n <= |rows|
    requires forall i :: 0 <= i < |rows| ==> DetailsFirst(t.calls(rows[i]), rows[i])
    ensures DetailUuids(RowCalls(t, rows, n)) == rows[..n]
    decreases n
  {
    if n > 0 {
      DetailsInRowOrder(t, rows, n - 1);
      var u := rows[n - 1];
      var calls := t.calls(u);
      assert DetailsFirst(calls, u);
      var tail := calls[1..];
      assert calls == [Details(u)] + tail;
      DetailUuidsNone(tail);
      DetailUuidsAppend([Details(u)], tail);
      assert DetailUuids([Details(u)]) == [u] by {
        assert [Details(u)][..0] == [];
      }
      DetailUuidsAppend(RowCalls(t, rows, n - 1), calls);
      assert rows[..n] == rows[..n - 1] + [u];
    }
  }

  /** One task per row, in row order: the collector's detail requests are for the rows' uuids,
      one each, in the order of the file. */
  lemma DetailsPerRow(s: Services, rows: seq<string>)
    ensures DetailUuids(CollectorRequests(s, Some(rows))) == rows
  {
    forall i | 0 <= i < |rows| ensures DetailsFirst(Lookup(s).calls(rows[i]), rows[i]) {
      LookupDetailsFirst(s, rows[i]);
    }
    DetailsInRowOrder(Lookup(s), rows, |rows|);
    assert rows[..|rows|] == rows;
  }

  /** Handling row i appends its result, if any, and its calls. */
  lemma RowStep(t: RowTask, rows: seq<string>, i: nat, result: Option<CompanyRecord>,
                companies: seq<CompanyRecord>, requests0: seq<Request>, requests: seq<Request>)
    requires i < |rows|
    requires result == t.result(rows[i])
    requires companies == Somes(Results(t.result, rows[..i]))
    requires requests == requests0 + RowCalls(t, rows, i)
    ensures companies + (if result.Some? then [result.value] else [])
      == Somes(Results(t.result, rows[..i + 1]))
    ensures requests + t.calls(rows[i]) == requests0 + RowCalls(t, rows, i + 1)
  {
    var xs := Results(t.result, rows[..i + 1]);
    assert xs[..|xs| - 1] == Results(t.result, rows[..i]);
  }

  /** `process_csv_data(file_path, crawler)`: one lookup per row, in row order, keeping the records
      that come back; a file that cannot be read gives an empty list and no call. Each record is
      also appended to the crawler's list by `process_company`, so that list grows by exactly the
      returned records. */
  method ProcessCsvData(crawler: Crawler, file: Option<seq<string>>) returns (companies: seq<CompanyRecord>)
    modifies crawler
    ensures companies == Collected(crawler.services, file)
    ensures crawler.companiesData == old(crawler.companiesData) + companies
    ensures crawler.requests == old(crawler.requests) + CollectorRequests(crawler.services, file)
    ensures file.None? ==> companies == [] && crawler.requests == old(crawler.requests)
  {
    if file.None? {
      return [];
    }
    var rows := file.value;
    ghost var data0 := crawler.companiesData;
    ghost var requests0 := crawler.requests;
    companies := [];
    var i := 0;
    while i < |rows|
      invariant i <= |rows|
      invariant companies == Somes(Results(Lookup(crawler.services).result, rows[..i]))
      invariant crawler.companiesData == data0 + companies
      invariant crawler.requests == requests0 + RowCalls(Lookup(crawler.services), rows, i)
    {
      RowStep(Lookup(crawler.services), rows, i, SingleResult(crawler.services, rows[i]),
              companies, requests0, crawler.requests);
      var result := ProcessSingleCompany(crawler, rows[i]);
      if result.Some? {
        companies := companies + [result.value];
      }
      i := i + 1;
    }
    assert rows[..i] == rows;
  }
}
