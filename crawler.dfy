/** The record pipeline of the crawler: field extraction, website enrichment and
    summarisation, and the append to the crawler's result list. */
module Crawler {
  import opened Common
  import opened Records
  import Text

  /** The calls the crawler makes into code outside the model, as functions of their inputs.
      `search(afterId, limit)` is the organization search (an empty page on any failure);
      `details(uuid)` the detail endpoint (None on any failure or empty answer);
      `pageTexts(url)` fetches and parses a website and gives the whitespace-stripped texts of
      its p, h1, h2, h3 and li elements (None when the request fails);
      `complete(chunk)` asks the language model to summarise one chunk (None when the call raises);
      `hasClient` says whether a language-model client exists. */
  datatype Services = Services(
    search: (Option<string>, nat) -> seq<Entity>,
    details: string -> Option<Entity>,
    pageTexts: string -> Option<seq<string>>,
    complete: string -> Option<string>,
    hasClient: bool)

  // ---------------------------------------------------------------- field extraction

  /** `entity.get('properties', {})`; None when it is not an object, so that the next `.get` raises. */
  function PropertiesOf(e: Entity): Option<Properties>
  {
    match e.properties
    case Absent => Some(EmptyProperties)
    case Null => None
    case Present(p) => Some(p)
  }

  function ToLocation(l: LocationIdentifier): Location
  {
    Location(Get(l.value), Get(l.locationType), Get(l.permalink))
  }

  /** The locations of a list of identifiers, or None when one entry is not an object. */
  function MapLocations(entries: seq<Option<LocationIdentifier>>): (r: Option<seq<Location>>)
    ensures r.Some? <==> forall i :: 0 <= i < |entries| ==> entries[i].Some?
    ensures r.Some? ==> |r.value| == |entries|
    ensures r.Some? ==> forall i :: 0 <= i < |entries| ==> r.value[i] == ToLocation(entries[i].value)
    decreases |entries|
  {
    if entries == [] then Some([])
    else
      var prefix := MapLocations(entries[..|entries| - 1]);
      match entries[|entries| - 1]
      case None => None
      case Some(last) => if prefix.None? then None else Some(prefix.value + [ToLocation(last)])
  }

  /** What `_extract_locations` returns, or None when it raises. */
  function LocationsOf(p: Properties): Option<seq<Location>>
  {
    match GetOr(p.locationIdentifiers, [])
    case None => None
    case Some(entries) => MapLocations(entries)
  }

  /** `properties.get(key, {}).get('value')`; the outer None is the AttributeError of a null member. */
  function LinkOf(f: Field<SocialLink>): Option<Option<string>>
  {
    match f
    case Absent => Some(None)
    case Null => None
    case Present(link) => Some(Get(link.value))
  }

  /** `_extract_social_media`, or None when it raises. */
  function SocialMediaOf(p: Properties): (r: Option<SocialMedia>)
    ensures r.Some? <==> !p.facebook.Null? && !p.linkedin.Null? && !p.twitter.Null?
    ensures r.Some? ==> (r.value.facebook.Some? <==> p.facebook.Present? && p.facebook.value.value.Present?)
    ensures r.Some? ==> (r.value.linkedin.Some? <==> p.linkedin.Present? && p.linkedin.value.value.Present?)
    ensures r.Some? ==> (r.value.twitter.Some? <==> p.twitter.Present? && p.twitter.value.value.Present?)
    ensures r.Some? && r.value.facebook.Some? ==> r.value.facebook.value == p.facebook.value.value.value
    ensures r.Some? && r.value.linkedin.Some? ==> r.value.linkedin.value == p.linkedin.value.value.value
    ensures r.Some? && r.value.twitter.Some? ==> r.value.twitter.value == p.twitter.value.value.value
  {
    match (LinkOf(p.facebook), LinkOf(p.linkedin), LinkOf(p.twitter))
    case (Some(fb), Some(li), Some(tw)) => Some(SocialMedia(fb, li, tw))
    case _ => None
  }

  /** The record before enrichment, or None when building it raises. */
  function Extracted(e: Entity, uuid: Option<string>): Option<CompanyRecord>
  {
    match PropertiesOf(e)
    case None => None
    case Some(p) =>
      match (LocationsOf(p), SocialMediaOf(p))
      case (Some(locations), Some(social)) =>
        Some(CompanyRecord(
          uuid, Get(p.rankOrg), Get(p.name), Get(p.shortDescription), Get(p.websiteUrl),
          Get(p.createdAt), Get(p.updatedAt), Get(p.entityDefId), Get(p.permalink),
          Get(p.imageId), Get(p.imageUrl), GetOr(p.facetIds, []), locations, social,
          Absent, Absent))
      case _ => None
  }

  // ---------------------------------------------------------------- website enrichment

  /** `scrape_website_content`: the element texts joined by single spaces, None when that is empty
      or the request failed. */
  function ScrapedText(s: Services, url: string): Option<string>
  {
    match s.pageTexts(url)
    case None => None
    case Some(texts) =>
      var text := Text.Join(texts, " ");
      if text != "" then Some(text) else None
  }

  /** The scrape gives None exactly when the request failed, there is no element, or there is a
      single element with empty text. Two or more empty elements give spaces, not None. */
  lemma ScrapedTextNoneIff(s: Services, url: string)
    ensures ScrapedText(s, url).None? <==>
      (s.pageTexts(url).None? || |s.pageTexts(url).value| == 0
       || (|s.pageTexts(url).value| == 1 && s.pageTexts(url).value[0] == ""))
    ensures s.pageTexts(url).Some? && |s.pageTexts(url).value| >= 2
        && (forall i :: 0 <= i < |s.pageTexts(url).value| ==> s.pageTexts(url).value[i] == "")
        ==> ScrapedText(s, url) == Some(Text.Repeat(' ', |s.pageTexts(url).value| - 1))
  {
    if s.pageTexts(url).Some? {
      var texts := s.pageTexts(url).value;
      Text.JoinEmptyIff(texts, " ");
      if |texts| >= 2 && forall i :: 0 <= i < |texts| ==> texts[i] == "" {
        Text.JoinOfEmpties(texts, ' ');
      }
    }
  }

  // ---------------------------------------------------------------- summarisation

  /** The outcome of asking the model about chunks one after the other, stopping at the first
      call that raises: the responses so far, the calls made, and whether a call raised. */
  datatype Asked = Asked(responses: seq<string>, calls: seq<Request>, failed: bool)

  function Ask(complete: string -> Option<string>, chunks: seq<string>): Asked
    decreases |chunks|
  {
    if chunks == [] then Asked([], [], false)
    else
      var prev := Ask(complete, chunks[..|chunks| - 1]);
      var last := chunks[|chunks| - 1];
      if prev.failed then prev
      else match complete(last)
        case None => Asked(prev.responses, prev.calls + [Completion(last)], true)
        case Some(t) => Asked(prev.responses + [t], prev.calls + [Completion(last)], false)
  }

  /** One completion request per chunk, in chunk order. */
  function Completions(chunks: seq<string>): (r: seq<Request>)
    ensures |r| == |chunks|
    ensures forall i :: 0 <= i < |chunks| ==> r[i] == Completion(chunks[i])
  {
    seq(|chunks|, i requires 0 <= i < |chunks| => Completion(chunks[i]))
  }

  /** Asking fails exactly when some chunk's call raises; otherwise every chunk was asked once,
      in order, and response i is the model's answer for chunk i. */
  lemma {:induction false} AskAllChunks(complete: string -> Option<string>, chunks: seq<string>)
    ensures Ask(complete, chunks).failed <==> exists i :: 0 <= i < |chunks| && complete(chunks[i]).None?
    ensures !Ask(complete, chunks).failed ==>
      && Ask(complete, chunks).calls == Completions(chunks)
      && |Ask(complete, chunks).responses| == |chunks|
      && forall i :: 0 <= i < |chunks| ==> complete(chunks[i]) == Some(Ask(complete, chunks).responses[i])
    decreases |chunks|
  {
    if chunks != [] {
      var init := chunks[..|chunks| - 1];
      AskAllChunks(complete, init);
      assert forall i :: 0 <= i < |init| ==> init[i] == chunks[i];
    }
  }

  /** Once a call has raised, the later chunks are not asked. */
  lemma {:induction false} AskStopped(complete: string -> Option<string>, chunks: seq<string>, n: nat)
    requires n <= |chunks|
    requires Ask(complete, chunks[..n]).failed
    ensures Ask(complete, chunks) == Ask(complete, chunks[..n])
    decreases |chunks| - n
  {
    if n < |chunks| {
      assert chunks[..|chunks| - 1][..n] == chunks[..n];
      AskStopped(complete, chunks[..|chunks| - 1], n);
    } else {
      assert chunks[..n] == chunks;
    }
  }

  /** When chunk i is the first whose call raises, the chunks up to and including i were asked. */
  lemma AskFirstFailure(complete: string -> Option<string>, chunks: seq<string>, i: nat)
    requires i < |chunks| && complete(chunks[i]).None?
    requires forall k :: 0 <= k < i ==> complete(chunks[k]).Some?
    ensures Ask(complete, chunks).failed
    ensures Ask(complete, chunks).calls == Completions(chunks[..i + 1])
  {
    var init := chunks[..i];
    assert forall k :: 0 <= k < i ==> init[k] == chunks[k];
    AskAllChunks(complete, init);
    assert chunks[..i + 1][..i] == init;
    AskStopped(complete, chunks, i + 1);
  }

  /** Whatever happens, the calls made are for the first chunks, one each, in chunk order. */
  lemma {:induction false} AskCallsInOrder(complete: string -> Option<string>, chunks: seq<string>)
    ensures var calls := Ask(complete, chunks).calls;
      && |calls| <= |chunks|
      && (forall i :: 0 <= i < |calls| ==> calls[i] == Completion(chunks[i]))
    decreases |chunks|
  {
    if chunks != [] {
      var init := chunks[..|chunks| - 1];
      AskCallsInOrder(complete, init);
      var prev := Ask(complete, init);
      if !prev.failed {
        AskAllChunks(complete, init);
        var calls := Ask(complete, chunks).calls;
        assert calls == prev.calls + [Completion(chunks[|chunks| - 1])];
        forall i | 0 <= i < |calls| ensures calls[i] == Completion(chunks[i]) {
          if i < |prev.calls| {
            assert calls[i] == prev.calls[i] == Completion(init[i]);
          }
        }
      }
    }
  }

  /** `analyze_website_with_gpt`: the model's answers for the 4000-character chunks, joined by a
      blank line; None without a client, for empty content, and when any call raises. */
  function Analysis(s: Services, content: string): Option<string>
  {
    if !s.hasClient || content == "" then None
    else
      var asked := Ask(s.complete, Text.Chunks(content));
      if asked.failed then None else Some(Text.Join(asked.responses, "\n\n"))
  }

  /** The model calls `analyze_website_with_gpt` makes. */
  function AnalysisRequests(s: Services, content: string): seq<Request>
  {
    if !s.hasClient || content == "" then [] else Ask(s.complete, Text.Chunks(content)).calls
  }

  /** The model's answer for each chunk, when none of the calls raises. */
  function Answers(complete: string -> Option<string>, chunks: seq<string>): seq<string>
    requires forall i :: 0 <= i < |chunks| ==> complete(chunks[i]).Some?
  {
    seq(|chunks|, i requires 0 <= i < |chunks| => complete(chunks[i]).value)
  }

  /** Without a client or without content the summariser answers None and makes no call. */
  lemma AnalysisWithoutInput(s: Services, content: string)
    requires !s.hasClient || content == ""
    ensures Analysis(s, content).None? && AnalysisRequests(s, content) == []
  {
  }

  /** When every call succeeds, the model is asked once per chunk in chunk order and the answer is
      the responses joined with a blank line. */
  lemma AnalysisAllSucceed(s: Services, content: string)
    requires s.hasClient && content != ""
    requires forall i :: 0 <= i < |Text.Chunks(content)| ==> s.complete(Text.Chunks(content)[i]).Some?
    ensures AnalysisRequests(s, content) == Completions(Text.Chunks(content))
    ensures Analysis(s, content) == Some(Text.Join(Answers(s.complete, Text.Chunks(content)), "\n\n"))
  {
    var chunks := Text.Chunks(content);
    AskAllChunks(s.complete, chunks);
    var asked := Ask(s.complete, chunks);
    assert !asked.failed;
    var answers := Answers(s.complete, chunks);
    forall i | 0 <= i < |chunks|
      ensures asked.responses[i] == answers[i]
    {
      assert s.complete(chunks[i]) == Some(asked.responses[i]);
    }
    assert asked.responses == answers;
  }

  /** When the call for chunk i is the first to raise, the whole summary is None and the chunks
      0 to i, and no later one, were sent. */
  lemma AnalysisFailure(s: Services, content: string, i: nat)
    requires s.hasClient && i < |Text.Chunks(content)|
    requires s.complete(Text.Chunks(content)[i]).None?
    requires forall k :: 0 <= k < i ==> s.complete(Text.Chunks(content)[k]).Some?
    ensures Analysis(s, content).None?
    ensures AnalysisRequests(s, content) == Completions(Text.Chunks(content)[..i + 1])
  {
    AskFirstFailure(s.complete, Text.Chunks(content), i);
  }

  // ---------------------------------------------------------------- the whole record

  /** Step 3 of `process_company`: scrape when there is a website, then summarise when the scrape
      gave text and a client exists. */
  function Enriched(s: Services, base: CompanyRecord): CompanyRecord
  {
    if Truthy(base.website) then
      var content := ScrapedText(s, base.website.value);
      var withContent := base.(websiteContent := Store(content));
      if Truthy(content) && s.hasClient
      then withContent.(gptAnalysis := Store(Analysis(s, content.value)))
      else withContent
    else base
  }

  /** The calls the enrichment step makes. */
  function EnrichmentRequests(s: Services, base: CompanyRecord): seq<Request>
  {
    if Truthy(base.website) then
      var content := ScrapedText(s, base.website.value);
      [FetchPage(base.website.value)]
        + (if Truthy(content) && s.hasClient then AnalysisRequests(s, content.value) else [])
    else []
  }

  /** What `process_company(entity, uuid)` returns: None when building the record raises. */
  function BuildRecord(s: Services, e: Entity, uuid: Option<string>): Option<CompanyRecord>
  {
    match Extracted(e, uuid)
    case None => None
    case Some(base) => Some(Enriched(s, base))
  }

  /** The calls `process_company(entity, uuid)` makes. */
  function PipelineRequests(s: Services, e: Entity, uuid: Option<string>): seq<Request>
  {
    match Extracted(e, uuid)
    case None => []
    case Some(base) => EnrichmentRequests(s, base)
  }

  /** The record is None exactly when the properties are not an object, the location list is null,
      an entry of it is not an object, or a social member is null; such a failure makes no call.
      Otherwise the uuid is the argument, facet_ids defaults to [], and the locations and social
      links are what the two extractors give. */
  lemma RecordFromArguments(s: Services, e: Entity, uuid: Option<string>)
    ensures BuildRecord(s, e, uuid).None? <==>
      (e.properties.Null?
       || (var p := PropertiesOf(e).value;
           p.locationIdentifiers.Null?
           || (p.locationIdentifiers.Present?
               && (exists i :: 0 <= i < |p.locationIdentifiers.value| && p.locationIdentifiers.value[i].None?))
           || p.facebook.Null? || p.linkedin.Null? || p.twitter.Null?))
    ensures BuildRecord(s, e, uuid).None? ==> PipelineRequests(s, e, uuid) == []
    ensures BuildRecord(s, e, uuid).Some? ==>
      var r := BuildRecord(s, e, uuid).value;
      var p := PropertiesOf(e).value;
      && r.uuid == uuid
      && r.name == Get(p.name)
      && r.website == Get(p.websiteUrl)
      && r.facetIds == (if p.facetIds.Absent? then Some([]) else Get(p.facetIds))
      && Some(r.locations) == LocationsOf(p)
      && Some(r.socialMedia) == SocialMediaOf(p)
      && |r.locations| == (if p.locationIdentifiers.Present? then |p.locationIdentifiers.value| else 0)
  {
  }

  /** `process_company` only fetches web pages and asks the model: it never searches and never
      fetches details. */
  lemma PipelineCallsOnlyWebAndModel(s: Services, e: Entity, uuid: Option<string>)
    ensures forall i :: 0 <= i < |PipelineRequests(s, e, uuid)| ==>
      PipelineRequests(s, e, uuid)[i].FetchPage? || PipelineRequests(s, e, uuid)[i].Completion?
  {
    match Extracted(e, uuid)
    case None =>
    case Some(base) =>
      if Truthy(base.website) {
        var content := ScrapedText(s, base.website.value);
        if Truthy(content) && s.hasClient {
          AskCallsInOrder(s.complete, Text.Chunks(content.value));
        }
      }
  }

  /** The website_content key exists exactly when the company has a website, and then holds the
      scrape; gpt_analysis exists exactly when the scrape gave text and a client exists, and then
      holds the summary. Without a website no page is fetched and no model is asked. */
  lemma EnrichmentGate(s: Services, e: Entity, uuid: Option<string>)
    requires BuildRecord(s, e, uuid).Some?
    ensures var r := BuildRecord(s, e, uuid).value;
      && (!r.websiteContent.Absent? <==> Truthy(r.website))
      && (Truthy(r.website) ==> r.websiteContent == Store(ScrapedText(s, r.website.value)))
      && (!r.gptAnalysis.Absent? <==> Truthy(r.website) && Truthy(Get(r.websiteContent)) && s.hasClient)
      && (!r.gptAnalysis.Absent? ==> r.gptAnalysis == Store(Analysis(s, Get(r.websiteContent).value)))
      && (!Truthy(r.website) ==> PipelineRequests(s, e, uuid) == [])
      && (Truthy(r.website) ==> PipelineRequests(s, e, uuid)[0] == FetchPage(r.website.value))
      && (!Truthy(Get(r.websiteContent)) || !s.hasClient ==> |PipelineRequests(s, e, uuid)| <= 1)
  {
  }

  // ---------------------------------------------------------------- the crawler object

  /** `CrunchbaseCrawler`: the services it talks to, the list `companies_data` it appends to, and
      (for the proofs) the calls it has made to the outside world. */
  class Crawler {
    const services: Services
    var companiesData: seq<CompanyRecord>
    ghost var requests: seq<Request>

    constructor (services: Services)
      ensures this.services == services
      ensures companiesData == [] && requests == []
    {
      this.services := services;
      companiesData := [];
      requests := [];
    }

    /** `get_organizations(after_id, limit)`: one search request; any failure gives an empty page. */
    method GetOrganizations(afterId: Option<string>, limit: nat) returns (page: seq<Entity>)
      modifies this
      ensures page == services.search(afterId, limit)
      ensures requests == old(requests) + [Search(afterId, limit)]
      ensures companiesData == old(companiesData)
    {
      requests := requests + [Search(afterId, limit)];
      page := services.search(afterId, limit);
    }

    /** `get_company_details(uuid)`: one detail request; None on any failure or empty answer. */
    method GetCompanyDetails(uuid: string) returns (details: Option<Entity>)
      modifies this
      ensures details == services.details(uuid)
      ensures requests == old(requests) + [Details(uuid)]
      ensures companiesData == old(companiesData)
    {
      requests := requests + [Details(uuid)];
      details := services.details(uuid);
    }

    /** `_extract_locations`: one location per identifier, in order; None when it raises. */
    static method ExtractLocations(p: Properties) returns (locations: Option<seq<Location>>)
      ensures locations == LocationsOf(p)
      ensures p.locationIdentifiers.Absent? ==> locations == Some([])
      ensures p.locationIdentifiers.Present? && locations.Some? ==>
        |locations.value| == |p.locationIdentifiers.value|
    {
      var entries: seq<Option<LocationIdentifier>>;
      match p.locationIdentifiers {
        case Absent => entries := [];
        case Null => return None;
        case Present(list) => entries := list;
      }
      var result: seq<Location> := [];
      var i := 0;
      while i < |entries|
        invariant 0 <= i <= |entries|
        invariant MapLocations(entries[..i]) == Some(result)
      {
        match entries[i] {
          case None =>
            assert entries[..i + 1][..i] == entries[..i];
            MapLocationsStopped(entries, i + 1);
            return None;
          case Some(loc) =>
            assert entries[..i + 1][..i] == entries[..i];
            result := result + [ToLocation(loc)];
        }
        i := i + 1;
      }
      assert entries[..i] == entries;
      locations := Some(result);
    }

    /** `scrape_website_content(url)`. */
    method ScrapeWebsiteContent(url: string) returns (text: Option<string>)
      modifies this
      ensures text == ScrapedText(services, url)
      ensures requests == old(requests) + [FetchPage(url)]
      ensures companiesData == old(companiesData)
    {
      requests := requests + [FetchPage(url)];
      var texts := services.pageTexts(url);
      if texts.None? {
        return None;
      }
      var joined := Text.Join(texts.value, " ");
      text := if joined != "" then Some(joined) else None;
    }

    /** `analyze_website_with_gpt(content)`: the summaries loop over the chunks. */
    method AnalyzeWebsiteWithGpt(content: string) returns (analysis: Option<string>)
      modifies this
      ensures analysis == Analysis(services, content)
      ensures requests == old(requests) + AnalysisRequests(services, content)
      ensures companiesData == old(companiesData)
    {
      if !services.hasClient || content == "" {
        return None;
      }
      var chunks := Text.Chunks(content);
      var summaries: seq<string> := [];
      var i := 0;
      while i < |chunks|
        invariant 0 <= i <= |chunks|
        invariant !Ask(services.complete, chunks[..i]).failed
        invariant summaries == Ask(services.complete, chunks[..i]).responses
        invariant requests == old(requests) + Ask(services.complete, chunks[..i]).calls
        invariant companiesData == old(companiesData)
      {
        assert chunks[..i + 1][..i] == chunks[..i];
        requests := requests + [Completion(chunks[i])];
        var response := services.complete(chunks[i]);
        if response.None? {
          AskStopped(services.complete, chunks, i + 1);
          return None;
        }
        summaries := summaries + [response.value];
        i := i + 1;
      }
      assert chunks[..i] == chunks;
      analysis := Some(Text.Join(summaries, "\n\n"));
    }

    /** The first part of `process_company`: the property bag, the two extractors and the flat
        record; None when one of them raises. */
    static method ExtractRecord(e: Entity, uuid: Option<string>) returns (base: Option<CompanyRecord>)
      ensures base == Extracted(e, uuid)
    {
      var p: Properties;
      match e.properties {
        case Absent => p := EmptyProperties;
        case Null => return None;
        case Present(props) => p := props;
      }
      var locations := ExtractLocations(p);
      if locations.None? {
        return None;
      }
      var social := SocialMediaOf(p);
      if social.None? {
        return None;
      }
      base := Some(CompanyRecord(
        uuid, Get(p.rankOrg), Get(p.name), Get(p.shortDescription), Get(p.websiteUrl),
        Get(p.createdAt), Get(p.updatedAt), Get(p.entityDefId), Get(p.permalink),
        Get(p.imageId), Get(p.imageUrl), GetOr(p.facetIds, []), locations.value, social.value,
        Absent, Absent));
    }

    /** The enrichment part of `process_company`: scrape when there is a website, summarise when
        the scrape gave text and a client exists. */
    method EnrichRecord(base: CompanyRecord) returns (data: CompanyRecord)
      modifies this
      ensures data == Enriched(services, base)
      ensures requests == old(requests) + EnrichmentRequests(services, base)
      ensures companiesData == old(companiesData)
    {
      data := base;
      if Truthy(base.website) {
        var content := ScrapeWebsiteContent(base.website.value);
        data := data.(websiteContent := Store(content));
        if Truthy(content) && services.hasClient {
          var analysis := AnalyzeWebsiteWithGpt(content.value);
          data := data.(gptAnalysis := Store(analysis));
        }
      }
    }

    /** `process_company(entity, uuid)`: build the record, enrich it, append it. The append is the
      last step, so a failure leaves `companies_data` as it was. */
    method ProcessCompany(e: Entity, uuid: Option<string>) returns (record: Option<CompanyRecord>)
      modifies this
      ensures record == BuildRecord(services, e, uuid)
      ensures companiesData == old(companiesData) + (if record.Some? then [record.value] else [])
      ensures requests == old(requests) + PipelineRequests(services, e, uuid)
    {
      var base := ExtractRecord(e, uuid);
      if base.None? {
        return None;
      }
      var data := EnrichRecord(base.value);
      companiesData := companiesData + [data];
      record := Some(data);
    }
  }

  /** Once an entry is not an object, later entries do not matter. */
  lemma {:induction false} MapLocationsStopped(entries: seq<Option<LocationIdentifier>>, n: nat)
    requires n <= |entries|
    requires MapLocations(entries[..n]).None?
    ensures MapLocations(entries).None?
    decreases |entries| - n
  {
    if n < |entries| {
      assert entries[..|entries| - 1][..n] == entries[..n];
      MapLocationsStopped(entries[..|entries| - 1], n);
    } else {
      assert entries[..n] == entries;
    }
  }
}
