/** API mode: the loop that pages through the organization search and hands every entity of a
    page to `process_company`, until enough companies were processed or the pages run out. */
module ApiDriver {
  import opened Common
  import opened Records
  import opened Crawler

  /** The page size and the processing target the program uses (both are the same constant). */
  const DefaultBatchSize: nat := 2

  // ---------------------------------------------------------------- one page

  /** Index of the first entity without a `uuid` key (the page length when every entity has one).
      Building the task list evaluates `entity['uuid']` entity by entity, so this is where a
      KeyError stops the submission. */
  function FirstMissing(page: seq<Entity>): (k: nat)
    ensures k <= |page|
    ensures forall i :: 0 <= i < k ==> !page[i].uuid.Absent?
    ensures k < |page| ==> page[k].uuid.Absent?
  {
    if page == [] then 0
    else if page[0].uuid.Absent? then 0
    else 1 + FirstMissing(page[1..])
  }

  /** The work done for one entity: what `process_company` returns for it and the calls it makes. */
  datatype Processor = Processor(result: Entity -> Option<CompanyRecord>, calls: Entity -> seq<Request>)

  /** `process_company(entity, entity['uuid'])`, as the crawler runs it. */
  function Processing(s: Services): Processor
  {
    Processor((e: Entity) => BuildRecord(s, e, Get(e.uuid)), (e: Entity) => PipelineRequests(s, e, Get(e.uuid)))
  }

  /** The records appended and the calls made by some work. */
  datatype Effects = Effects(records: seq<CompanyRecord>, requests: seq<Request>)

  /** The effects of handling the first n entities of a page, one after the other. */
  function PageEffects(p: Processor, page: seq<Entity>, n: nat): Effects
    requires n <= |page|
  {
    if n == 0 then Effects([], [])
    else
      var prev := PageEffects(p, page, n - 1);
      var e := page[n - 1];
      var r := p.result(e);
      Effects(prev.records + (if r.Some? then [r.value] else []), prev.requests + p.calls(e))
  }

  /** The records a page appends are the non-None results of its entities, in page order. */
  lemma {:induction false} PageEffectsRecords(p: Processor, page: seq<Entity>, n: nat)
    requires n <= |page|
    ensures PageEffects(p, page, n).records == Somes(Results(p.result, page[..n]))
    decreases n
  {
    if n > 0 {
      PageEffectsRecords(p, page, n - 1);
      var xs := Results(p.result, page[..n]);
      assert xs[..|xs| - 1] == Results(p.result, page[..n - 1]);
    }
  }

  // ---------------------------------------------------------------- the whole run

  /** The outcome of a run: `total_processed` and `page_number` at the end, every page fetched
      (the last one may be empty), every entity handed to `process_company`, the records appended,
      the calls made, and whether the run ended normally rather than with a KeyError. */
  datatype Run = Run(
    total: nat,
    pageNumber: nat,
    pages: seq<seq<Entity>>,
    handed: seq<Entity>,
    records: seq<CompanyRecord>,
    requests: seq<Request>,
    completed: bool)

  /** The loop `while organizations:` entered with page `page`, counters `total` and `pageNumber`.
      After a page it stops once `total >= threshold`; it fetches the next page, after the last
      entity's uuid, only when the page holds exactly `limit` entities. */
  function ApiLoop(s: Services, p: Processor, limit: nat, threshold: nat, page: seq<Entity>, total: nat, pageNumber: nat): Run
    decreases threshold - total
  {
    if page == [] then Run(total, pageNumber, [page], [], [], [], true)
    else
      var k := FirstMissing(page);
      var eff := PageEffects(p, page, k);
      if k < |page| then Run(total, pageNumber, [page], page[..k], eff.records, eff.requests, false)
      else
        var sum := total + |page|;
        if sum >= threshold || |page| != limit then Run(sum, pageNumber, [page], page, eff.records, eff.requests, true)
        else
          var after := Get(page[|page| - 1].uuid);
          var rest := ApiLoop(s, p, limit, threshold, s.search(after, limit), sum, pageNumber + 1);
          Run(rest.total, rest.pageNumber, [page] + rest.pages, page + rest.handed,
              eff.records + rest.records, eff.requests + [Search(after, limit)] + rest.requests,
              rest.completed)
  }

  /** `process_api_data`: the first search (no cursor), then the loop from page number 1. */
  function ApiRun(s: Services, limit: nat, threshold: nat): Run
  {
    var r := ApiLoop(s, Processing(s), limit, threshold, s.search(None, limit), 0, 1);
    r.(requests := [Search(None, limit)] + r.requests)
  }

  /** All entities of a list of pages, in order. */
  function Flatten(pages: seq<seq<Entity>>): seq<Entity>
  {
    if pages == [] then [] else pages[0] + Flatten(pages[1..])
  }

  /** The last element of a non-empty list. */
  function Last<T>(xs: seq<T>): T
    requires xs != []
  {
    xs[|xs| - 1]
  }

  /** The pages: the first is the one the loop starts with, the page number counts them, every
      page but the last holds exactly `limit` entities, and each later page is the search after
      the uuid of the previous page's last entity. */
  lemma {:induction false} ApiLoopPages(s: Services, p: Processor, limit: nat, threshold: nat, page: seq<Entity>, total: nat, pageNumber: nat)
    ensures var r := ApiLoop(s, p, limit, threshold, page, total, pageNumber);
      && |r.pages| >= 1
      && r.pages[0] == page
      && r.pageNumber == pageNumber + |r.pages| - 1
      && (forall i :: 0 <= i < |r.pages| - 1 ==> |r.pages[i]| == limit && r.pages[i] != [])
      && (forall i :: 0 <= i < |r.pages| - 1 ==>
            r.pages[i + 1] == s.search(Get(Last(r.pages[i]).uuid), limit))
    decreases threshold - total
  {
    if page != [] && FirstMissing(page) == |page| {
      var sum := total + |page|;
      if !(sum >= threshold || |page| != limit) {
        var after := Get(page[|page| - 1].uuid);
        var next := s.search(after, limit);
        ApiLoopPages(s, p, limit, threshold, next, sum, pageNumber + 1);
        var rest := ApiLoop(s, p, limit, threshold, next, sum, pageNumber + 1);
        var r := ApiLoop(s, p, limit, threshold, page, total, pageNumber);
        assert r.pages == [page] + rest.pages;
        forall i | 0 <= i < |r.pages| - 1
          ensures |r.pages[i]| == limit && r.pages[i] != []
          ensures r.pages[i + 1] == s.search(Get(Last(r.pages[i]).uuid), limit)
        {
          if i > 0 {
            assert r.pages[i] == rest.pages[i - 1];
            assert r.pages[i + 1] == rest.pages[i];
          }
        }
      }
    }
  }

  /** The records are the non-None results of the entities handed over, in order; every entity
      is handed over with its own uuid. */
  lemma {:induction false} ApiLoopRecords(s: Services, p: Processor, limit: nat, threshold: nat, page: seq<Entity>, total: nat, pageNumber: nat)
    ensures var r := ApiLoop(s, p, limit, threshold, page, total, pageNumber);
      r.records == Somes(Results(p.result, r.handed))
    decreases threshold - total
  {
    if page != [] {
      var k := FirstMissing(page);
      PageEffectsRecords(p, page, k);
      if k == |page| {
        assert page[..k] == page;
        var sum := total + |page|;
        if !(sum >= threshold || |page| != limit) {
          var after := Get(page[|page| - 1].uuid);
          var next := s.search(after, limit);
          ApiLoopRecords(s, p, limit, threshold, next, sum, pageNumber + 1);
          var rest := ApiLoop(s, p, limit, threshold, next, sum, pageNumber + 1);
          var r := ApiLoop(s, p, limit, threshold, page, total, pageNumber);
          assert r.handed == page + rest.handed;
          assert r.records == PageEffects(p, page, k).records + rest.records;
          assert Results(p.result, page + rest.handed) == Results(p.result, page) + Results(p.result, rest.handed);
          SomesAppend(Results(p.result, page), Results(p.result, rest.handed));
        }
      }
    }
  }

  /** A run that ends normally handed over every entity of every page it fetched, and
      `total_processed` counts all of them. */
  lemma {:induction false} ApiLoopTotal(s: Services, p: Processor, limit: nat, threshold: nat, page: seq<Entity>, total: nat, pageNumber: nat)
    ensures var r := ApiLoop(s, p, limit, threshold, page, total, pageNumber);
      r.completed ==> r.handed == Flatten(r.pages) && r.total == total + |r.handed|
    decreases threshold - total
  {
    var r := ApiLoop(s, p, limit, threshold, page, total, pageNumber);
    if page == [] {
      assert Flatten(r.pages) == [] + Flatten([]);
    } else if FirstMissing(page) == |page| {
      var sum := total + |page|;
      if sum >= threshold || |page| != limit {
        assert r.pages[1..] == [];
      } else {
        var after := Get(page[|page| - 1].uuid);
        var next := s.search(after, limit);
        ApiLoopTotal(s, p, limit, threshold, next, sum, pageNumber + 1);
        var rest := ApiLoop(s, p, limit, threshold, next, sum, pageNumber + 1);
        assert r.pages[1..] == rest.pages;
      }
    }
  }

  /** A run cut short by a KeyError handed over the earlier pages and the part of the last page
      before the entity without a uuid, and does not count that last page. */
  lemma {:induction false} ApiLoopAborted(s: Services, p: Processor, limit: nat, threshold: nat, page: seq<Entity>, total: nat, pageNumber: nat)
    ensures var r := ApiLoop(s, p, limit, threshold, page, total, pageNumber);
      var init := r.pages[..|r.pages| - 1];
      var last := r.pages[|r.pages| - 1];
      !r.completed ==>
        && FirstMissing(last) < |last|
        && r.handed == Flatten(init) + last[..FirstMissing(last)]
        && r.total == total + |Flatten(init)|
    decreases threshold - total
  {
    var r := ApiLoop(s, p, limit, threshold, page, total, pageNumber);
    if page != [] {
      var k := FirstMissing(page);
      var sum := total + |page|;
      if k < |page| {
        assert r.pages[..|r.pages| - 1] == [];
      } else if !(sum >= threshold || |page| != limit) {
        var after := Get(page[|page| - 1].uuid);
        var next := s.search(after, limit);
        ApiLoopAborted(s, p, limit, threshold, next, sum, pageNumber + 1);
        ApiLoopPages(s, p, limit, threshold, next, sum, pageNumber + 1);
        var rest := ApiLoop(s, p, limit, threshold, next, sum, pageNumber + 1);
        var restInit := rest.pages[..|rest.pages| - 1];
        assert r.pages == [page] + rest.pages && r.handed == page + rest.handed;
        assert r.pages[..|r.pages| - 1] == [page] + restInit;
        assert Flatten([page] + restInit) == page + Flatten(restInit) by {
          assert ([page] + restInit)[1..] == restInit;
        }
        assert r.pages[|r.pages| - 1] == rest.pages[|rest.pages| - 1];
      }
    }
  }

  /** A run that ends normally ends on an empty page, on reaching the threshold, or on a page
      that is not full. */
  lemma {:induction false} ApiLoopEnd(s: Services, p: Processor, limit: nat, threshold: nat, page: seq<Entity>, total: nat, pageNumber: nat)
    ensures var r := ApiLoop(s, p, limit, threshold, page, total, pageNumber);
      r.completed ==> (Last(r.pages) == [] || r.total >= threshold || |Last(r.pages)| != limit)
    decreases threshold - total
  {
    if page != [] && FirstMissing(page) == |page| {
      var sum := total + |page|;
      if !(sum >= threshold || |page| != limit) {
        var after := Get(page[|page| - 1].uuid);
        var next := s.search(after, limit);
        ApiLoopEnd(s, p, limit, threshold, next, sum, pageNumber + 1);
        ApiLoopPages(s, p, limit, threshold, next, sum, pageNumber + 1);
        var rest := ApiLoop(s, p, limit, threshold, next, sum, pageNumber + 1);
        assert Last([page] + rest.pages) == Last(rest.pages);
      }
    }
  }

  /** An empty first page processes nothing: one search, page number 1, no record. */
  lemma ApiRunEmptyFirstPage(s: Services, limit: nat, threshold: nat)
    requires s.search(None, limit) == []
    ensures ApiRun(s, limit, threshold) == Run(0, 1, [[]], [], [], [Search(None, limit)], true)
  {
  }

  /** With the page size equal to the target, as the program runs it, exactly one page is ever
      requested: a full first page already reaches the target, so the next-page branch is never
      taken. The calls are that search followed by the work on that page. */
  lemma SinglePageAtBatchSize(s: Services, b: nat)
    ensures var first := s.search(None, b);
      var r := ApiRun(s, b, b);
      && r.pages == [first]
      && r.pageNumber == 1
      && r.requests == [Search(None, b)] + PageEffects(Processing(s), first, FirstMissing(first)).requests
  {
  }

  /** The program's own run, with `DefaultBatchSize` as both page size and target: one search
      without a cursor, and only that page is handed to `process_company`. */
  lemma DefaultRunSinglePage(s: Services)
    ensures var first := s.search(None, DefaultBatchSize);
      var r := ApiRun(s, DefaultBatchSize, DefaultBatchSize);
      && r.pages == [first]
      && r.pageNumber == 1
      && r.handed == first[..FirstMissing(first)]
      && r.requests[0] == Search(None, DefaultBatchSize)
      && (forall i :: 1 <= i < |r.requests| ==> !r.requests[i].Search?)
  {
    SinglePageAtBatchSize(s, DefaultBatchSize);
    var first := s.search(None, DefaultBatchSize);
    var eff := PageEffects(Processing(s), first, FirstMissing(first));
    PageEffectsOnlyWebAndModel(s, first, FirstMissing(first));
    assert ApiRun(s, DefaultBatchSize, DefaultBatchSize).requests == [Search(None, DefaultBatchSize)] + eff.requests;
  }

  /** Handling entities makes no search: `process_company` only fetches pages and asks the model. */
  lemma {:induction false} PageEffectsOnlyWebAndModel(s: Services, page: seq<Entity>, n: nat)
    requires n <= |page|
    ensures forall i :: 0 <= i < |PageEffects(Processing(s), page, n).requests| ==>
      !PageEffects(Processing(s), page, n).requests[i].Search?
    decreases n
  {
    if n > 0 {
      PageEffectsOnlyWebAndModel(s, page, n - 1);
      var e := page[n - 1];
      PipelineCallsOnlyWebAndModel(s, e, Get(e.uuid));
    }
  }

  // ---------------------------------------------------------------- the loop itself

  /** `p` does for entity `e` what `process_company(e, e['uuid'])` does on the crawler's services:
      the same result and the same calls. */
  ghost predicate ProcessesAs(s: Services, p: Processor, e: Entity)
  {
    p.result(e) == BuildRecord(s, e, Get(e.uuid)) && p.calls(e) == PipelineRequests(s, e, Get(e.uuid))
  }

  /** `Processing(s)` is that processor, for every entity. */
  lemma ProcessingProcessesAll(s: Services)
    ensures forall e :: ProcessesAs(s, Processing(s), e)
  {
  }

  /** Submitting a page: `process_company(entity, entity['uuid'])` for each entity in turn, until
      an entity has no uuid key. `ok` says whether the whole page was submitted. */
  method ProcessPage(crawler: Crawler, page: seq<Entity>, ghost p: Processor) returns (ok: bool)
    requires forall e :: ProcessesAs(crawler.services, p, e)
    modifies crawler
    ensures ok <==> FirstMissing(page) == |page|
    ensures var eff := PageEffects(p, page, FirstMissing(page));
      && crawler.companiesData == old(crawler.companiesData) + eff.records
      && crawler.requests == old(crawler.requests) + eff.requests
  {
    ghost var data0 := crawler.companiesData;
    ghost var requests0 := crawler.requests;
    var j := 0;
    while j < |page|
      invariant j <= FirstMissing(page)
      invariant crawler.companiesData == data0 + PageEffects(p, page, j).records
      invariant crawler.requests == requests0 + PageEffects(p, page, j).requests
    {
      var e := page[j];
      if e.uuid.Absent? {
        return false;
      }
      assert ProcessesAs(crawler.services, p, e);
      ghost var data := crawler.companiesData;
      ghost var requests := crawler.requests;
      PageEffectsStep(p, page, j, p.result(e), data0, requests0, data, requests);
      var record := crawler.ProcessCompany(e, Get(e.uuid));
      j := j + 1;
    }
    return true;
  }

  /** One turn of the loop on a non-empty page: a KeyError ends it, reaching the target or a page
      that is not full ends it, and otherwise it goes on with the search after the last uuid. */
  lemma ApiLoopTurn(s: Services, p: Processor, limit: nat, threshold: nat, page: seq<Entity>, total: nat, pageNumber: nat)
    requires page != []
    ensures var r := ApiLoop(s, p, limit, threshold, page, total, pageNumber);
      var k := FirstMissing(page);
      var eff := PageEffects(p, page, k);
      var sum := total + |page|;
      if k < |page| then r == Run(total, pageNumber, [page], page[..k], eff.records, eff.requests, false)
      else if sum >= threshold || |page| != limit then
        r == Run(sum, pageNumber, [page], page, eff.records, eff.requests, true)
      else
        var after := Get(page[|page| - 1].uuid);
        var rest := ApiLoop(s, p, limit, threshold, s.search(after, limit), sum, pageNumber + 1);
        && r.total == rest.total && r.pageNumber == rest.pageNumber && r.completed == rest.completed
        && r.records == eff.records + rest.records
        && r.requests == eff.requests + [Search(after, limit)] + rest.requests
  {
  }

  /** The loop is on track when, from the current page and counters, the rest of the loop
      produces what the whole run produces. */
  ghost predicate OnTrack(whole: Run, cur: Run, data0: seq<CompanyRecord>, requests0: seq<Request>,
                          data: seq<CompanyRecord>, requests: seq<Request>)
  {
    && cur.total == whole.total && cur.pageNumber == whole.pageNumber && cur.completed == whole.completed
    && data + cur.records == data0 + whole.records
    && requests + cur.requests == requests0 + whole.requests
  }

  /** A turn whose page holds an entity without a uuid ends the run there. */
  lemma TurnAborts(s: Services, p: Processor, limit: nat, threshold: nat, page: seq<Entity>, total: nat, pageNumber: nat,
                   whole: Run, data0: seq<CompanyRecord>, requests0: seq<Request>,
                   data: seq<CompanyRecord>, requests: seq<Request>, data': seq<CompanyRecord>, requests': seq<Request>)
    requires page != [] && FirstMissing(page) < |page|
    requires OnTrack(whole, ApiLoop(s, p, limit, threshold, page, total, pageNumber), data0, requests0, data, requests)
    requires data' == data + PageEffects(p, page, FirstMissing(page)).records
    requires requests' == requests + PageEffects(p, page, FirstMissing(page)).requests
    ensures whole.total == total && whole.pageNumber == pageNumber && !whole.completed
    ensures data' == data0 + whole.records && requests' == requests0 + whole.requests
  {
    ApiLoopTurn(s, p, limit, threshold, page, total, pageNumber);
  }

  /** A turn that reaches the target or ends on a page that is not full ends the run there. */
  lemma TurnStops(s: Services, p: Processor, limit: nat, threshold: nat, page: seq<Entity>, total: nat, pageNumber: nat,
                  whole: Run, data0: seq<CompanyRecord>, requests0: seq<Request>,
                  data: seq<CompanyRecord>, requests: seq<Request>, data': seq<CompanyRecord>, requests': seq<Request>)
    requires page != [] && FirstMissing(page) == |page|
    requires total + |page| >= threshold || |page| != limit
    requires OnTrack(whole, ApiLoop(s, p, limit, threshold, page, total, pageNumber), data0, requests0, data, requests)
    requires data' == data + PageEffects(p, page, FirstMissing(page)).records
    requires requests' == requests + PageEffects(p, page, FirstMissing(page)).requests
    ensures whole.total == total + |page| && whole.pageNumber == pageNumber && whole.completed
    ensures data' == data0 + whole.records && requests' == requests0 + whole.requests
  {
    ApiLoopTurn(s, p, limit, threshold, page, total, pageNumber);
  }

  /** A full page below the target: the loop is on track with the next page. */
  lemma TurnContinues(s: Services, p: Processor, limit: nat, threshold: nat, page: seq<Entity>, total: nat, pageNumber: nat,
                      whole: Run, data0: seq<CompanyRecord>, requests0: seq<Request>,
                      data: seq<CompanyRecord>, requests: seq<Request>, data': seq<CompanyRecord>, requests': seq<Request>)
    requires page != [] && FirstMissing(page) == |page|
    requires total + |page| < threshold && |page| == limit
    requires OnTrack(whole, ApiLoop(s, p, limit, threshold, page, total, pageNumber), data0, requests0, data, requests)
    requires data' == data + PageEffects(p, page, FirstMissing(page)).records
    requires requests' == requests + PageEffects(p, page, FirstMissing(page)).requests
      + [Search(Get(page[|page| - 1].uuid), limit)]
    ensures OnTrack(whole, ApiLoop(s, p, limit, threshold, s.search(Get(page[|page| - 1].uuid), limit),
                                   total + |page|, pageNumber + 1),
                    data0, requests0, data', requests')
  {
    ApiLoopTurn(s, p, limit, threshold, page, total, pageNumber);
  }

  /** Handling entity j of a page appends its record, if any, and its calls. */
  lemma PageEffectsStep(p: Processor, page: seq<Entity>, j: nat, record: Option<CompanyRecord>,
                        data0: seq<CompanyRecord>, requests0: seq<Request>,
                        data: seq<CompanyRecord>, requests: seq<Request>)
    requires j < |page|
    requires record == p.result(page[j])
    requires data == data0 + PageEffects(p, page, j).records
    requires requests == requests0 + PageEffects(p, page, j).requests
    ensures data + (if record.Some? then [record.value] else [])
      == data0 + PageEffects(p, page, j + 1).records
    ensures requests + p.calls(page[j]) == requests0 + PageEffects(p, page, j + 1).requests
  {
  }

  /** The loop `while organizations:` of `process_api_data`, entered with the first page, the
      total at 0 and the page number at 1, where `p` does what `process_company` does. Every task
      completes without raising, so a submitted page adds its full length to the total.
      `completed` is false when a KeyError ends the run. */
  method Paginate(crawler: Crawler, limit: nat, threshold: nat, first: seq<Entity>, ghost p: Processor)
      returns (totalProcessed: nat, pageNumber: nat, completed: bool)
    requires forall e :: ProcessesAs(crawler.services, p, e)
    modifies crawler
    ensures var r := ApiLoop(crawler.services, p, limit, threshold, first, 0, 1);
      && totalProcessed == r.total
      && pageNumber == r.pageNumber
      && completed == r.completed
      && crawler.companiesData == old(crawler.companiesData) + r.records
      && crawler.requests == old(crawler.requests) + r.requests
  {
    pageNumber := 1;
    totalProcessed := 0;
    var organizations := first;
    ghost var s := crawler.services;
    ghost var whole := ApiLoop(s, p, limit, threshold, first, 0, 1);
    ghost var data0 := crawler.companiesData;
    ghost var requests0 := crawler.requests;
    while organizations != []
      invariant totalProcessed <= threshold
      invariant OnTrack(whole, ApiLoop(s, p, limit, threshold, organizations, totalProcessed, pageNumber),
                        data0, requests0, crawler.companiesData, crawler.requests)
      decreases threshold - totalProcessed
    {
      ghost var data := crawler.companiesData;
      ghost var requests := crawler.requests;
      ghost var before := totalProcessed;
      var ok := ProcessPage(crawler, organizations, p);
      if !ok {
        TurnAborts(s, p, limit, threshold, organizations, totalProcessed, pageNumber, whole, data0, requests0,
                   data, requests, crawler.companiesData, crawler.requests);
        return totalProcessed, pageNumber, false;
      }
      if totalProcessed + |organizations| >= threshold || |organizations| != limit {
        TurnStops(s, p, limit, threshold, organizations, totalProcessed, pageNumber, whole, data0, requests0,
                  data, requests, crawler.companiesData, crawler.requests);
      }
      totalProcessed := totalProcessed + |organizations|;
      if totalProcessed >= threshold {
        return totalProcessed, pageNumber, true;
      }
      if |organizations| == limit {
        var lastUuid := Get(organizations[|organizations| - 1].uuid);
        ghost var page := organizations;
        organizations := crawler.GetOrganizations(lastUuid, limit);
        TurnContinues(s, p, limit, threshold, page, before, pageNumber, whole, data0, requests0,
                      data, requests, crawler.companiesData, crawler.requests);
        pageNumber := pageNumber + 1;
      } else {
        return totalProcessed, pageNumber, true;
      }
    }
    completed := true;
  }

  /** `process_api_data`, with the page size `limit` and the target `threshold` as parameters
      (the program passes `DefaultBatchSize` for both): the first search without a cursor, then
      the loop over the pages. */
  method ProcessApiData(crawler: Crawler, limit: nat, threshold: nat)
      returns (totalProcessed: nat, pageNumber: nat, completed: bool)
    modifies crawler
    ensures var r := ApiRun(crawler.services, limit, threshold);
      && totalProcessed == r.total
      && pageNumber == r.pageNumber
      && completed == r.completed
      && crawler.companiesData == old(crawler.companiesData) + r.records
      && crawler.requests == old(crawler.requests) + r.requests
  {
    var organizations := crawler.GetOrganizations(None, limit);
    ProcessingProcessesAll(crawler.services);
    totalProcessed, pageNumber, completed := Paginate(crawler, limit, threshold, organizations, Processing(crawler.services));
  }
}
