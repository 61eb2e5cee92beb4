# Crunchbase crawler: a Dafny model of the record pipeline

The crawler pages through a business-data search API, or reads a list of company uuids from a
CSV file. It turns each organization into a flat company record and enriches records that have a
website: the page text is scraped, cut into 4000-character chunks, and each chunk is summarised by a
language model. The collected records are written out as an SQL script.

This project models that core and proves what it does:

- `common.dfy`: JSON members that can be absent, null or present (`Field`), `Option`, the
  truthiness of an optional string, `Results`, which applies a task to each input, and `Somes`,
  which keeps the present entries of a list.
- `records.dfy`: the shapes the code works on. These are the raw entity with its property bag,
  the normalised `CompanyRecord`, its locations and social links, and the outside calls
  (`Request`: search, details, page fetch, model completion).
- `text.dfy`: Python's `sep.join` and the fixed-width chunking of the summariser.
- `crawler.dfy`: `CrunchbaseCrawler`.
  - Field extraction, the website scrape and the chunked summariser are specification functions.
  - `process_company` is the function `BuildRecord`, with `PipelineRequests` for the calls it makes.
  - The class `Crawler` carries the list `companies_data`. Its methods append to that list and
    record each outside call in a ghost log `requests`.
  - The services (search, details, page texts, model completion, client presence) are
    function-valued parameters.
- `sql_handler.dfy`: `SQLHandler.generate_sql_file`.
  - The script is a list of abstract statements: CREATE, DELETE, and INSERT with a list of values.
    String values are escaped by doubling quotes.
  - Writing stops at the first exception, and what was written up to then stays in the file.
  - A small SQL literal reader shows that escaped values read back intact.
- `api_driver.dfy`: `process_api_data`, as the recursive function `ApiLoop` and the method
  `Paginate` with its loop.
- `data_processor.dfy`: `DataProcessor.process_single_company` and `process_csv_data`.

Design notes:

- The code passes `DEFAULT_BATCH_SIZE` as both the page size and the processing target. The model
  takes them as separate parameters `limit` and `threshold`.
- `process_api_data` checks the target before it considers the next page
  (crunchbase_crawler/main.py:38-46). With the page size and the target both set to
  `DEFAULT_BATCH_SIZE`, a full first page already reaches the target, and a page that is not full
  ends the loop. So the program makes exactly one search and never fetches a second page, whatever
  the API returns (`ApiDriver.SinglePageAtBatchSize`, and `ApiDriver.DefaultRunSinglePage` for the
  value 2).
- In API mode the crawler hands each search entity straight to `process_company`. No detail request
  is made there (`Crawler.PipelineCallsOnlyWebAndModel`).
- `entity['uuid']` is evaluated entity by entity while tasks are submitted (main.py:25). An entity
  without that key raises a KeyError out of `process_api_data`.
  - The earlier entities of that page were already submitted and still run.
  - The count `total_processed` is not increased for that page.
  - The model records such a run as `completed == false`.
- `process_company` catches every exception, so its future never raises. The counter therefore
  grows by the page length.

## Model

Rows whose third column begins with "Proof step" are lemmas that unfold one step of a loop or
of a definition so that the main properties can be proved; the other rows are the program's
promises.

| member | source | states |
|---|---|---|
| Common.SomesLength | crunchbase_crawler/core/data_processor.py:38-44 | Keeping the truthy results never gives more items than tasks. |
| Common.SomesAppend | crunchbase_crawler/core/data_processor.py:38-44 | Collecting results commutes with concatenation, so earlier tasks' results come first. |
| Common.SomesMembers | crunchbase_crawler/core/data_processor.py:41-42 | A value is collected exactly when some task returned it. |
| Common.SomesAllPresent | crunchbase_crawler/core/data_processor.py:41-42 | When every task returns a value, nothing is dropped and item i is task i's value. |
| Text.Repeat | crunchbase_crawler/core/crawler.py:182 | The string of n copies of a character has length n and holds only that character. |
| Text.JoinEmptyIff | crunchbase_crawler/core/crawler.py:182-184 | With a non-empty separator the join is empty exactly when there is no part or a single empty part. |
| Text.JoinOfEmpties | crunchbase_crawler/core/crawler.py:182 | Joining n empty texts with one space gives n - 1 spaces, which is what the scrape returns for two or more empty elements (a single empty element gives None). |
| Text.ChunksConcat | crunchbase_crawler/core/crawler.py:195-196 | The chunks put back together give the content. |
| Text.ChunksSizes | crunchbase_crawler/core/crawler.py:195-196 | There are ceil(len / 4000) chunks; each is non-empty and at most 4000 long, and all but the last are exactly 4000 long. |
| Text.ChunkIsSlice | crunchbase_crawler/core/crawler.py:196 | Chunk i is the slice content[4000 i : 4000 i + 4000], as the comprehension builds it. |
| Crawler.MapLocations | crunchbase_crawler/core/crawler.py:149-158 | The location list exists exactly when every identifier is an object; then it has one location per identifier, in order, built from value, location_type and permalink. |
| Crawler.SocialMediaOf | crunchbase_crawler/core/crawler.py:160-166 | Extraction raises exactly when a social member is null; otherwise each link is present exactly when its member and its `value` are present, and equals that value. |
| Crawler.MapLocationsStopped | crunchbase_crawler/core/crawler.py:152-157 | Once an identifier is not an object, later identifiers do not change the outcome. |
| Crawler.ScrapedTextNoneIff | crunchbase_crawler/core/crawler.py:181-187 | The scrape gives None exactly when the request fails, there is no text element, or a single element has empty text; several empty elements give spaces, not None. |
| Crawler.AskAllChunks | crunchbase_crawler/core/crawler.py:198-228 | The chunk loop fails exactly when some chunk's call raises; otherwise every chunk is asked once, in order, and response i is the answer for chunk i. |
| Crawler.AskStopped | crunchbase_crawler/core/crawler.py:199-226 | After a call raises, later chunks are not asked. |
| Crawler.AskFirstFailure | crunchbase_crawler/core/crawler.py:199-231 | When chunk i is the first whose call raises, the loop fails having asked exactly chunks 0 to i. |
| Crawler.AskCallsInOrder | crunchbase_crawler/core/crawler.py:199-226 | Whatever happens, the calls made are for a prefix of the chunks, one each, in chunk order. |
| Crawler.AnalysisWithoutInput | crunchbase_crawler/core/crawler.py:192-193 | Without a client or with empty content the summary is None and no model call is made. |
| Crawler.AnalysisAllSucceed | crunchbase_crawler/core/crawler.py:195-228 | When every call succeeds, each chunk is sent once in order, and the summary is the answers joined by a blank line. |
| Crawler.AnalysisFailure | crunchbase_crawler/core/crawler.py:198-231 | When the call for chunk i is the first to raise, the summary is None and exactly chunks 0 to i were sent. |
| Crawler.RecordFromArguments | crunchbase_crawler/core/crawler.py:109-147 | `process_company` returns None exactly when the properties, the location list, a location entry or a social member is not usable, and then makes no call. Otherwise it returns the uuid argument, name, website, facet_ids defaulting to [], and the extracted locations and social links. |
| Crawler.PipelineCallsOnlyWebAndModel | crunchbase_crawler/core/crawler.py:132-137 | `process_company` only fetches pages and asks the model; it never searches or fetches details. |
| Crawler.EnrichmentGate | crunchbase_crawler/core/crawler.py:132-140 | website_content exists exactly when the record has a truthy website and holds the scrape; gpt_analysis exists exactly when the scrape gave text and a client exists, and holds the summary; without a website nothing is fetched, and the fetch comes first. |
| Crawler.Crawler.constructor | crunchbase_crawler/core/crawler.py:13-19 | A new crawler has an empty `companies_data` and has made no call. |
| Crawler.Crawler.GetOrganizations | crunchbase_crawler/core/crawler.py:21-54 | One search request; the page is the search's answer, empty on any failure; the record list is unchanged. |
| Crawler.Crawler.GetCompanyDetails | crunchbase_crawler/core/crawler.py:56-79 | One detail request; None on failure; the record list is unchanged. |
| Crawler.Crawler.ExtractLocations | crunchbase_crawler/core/crawler.py:149-158 | The loop gives the extracted locations, [] without identifiers, and one location per identifier when it does not raise. |
| Crawler.Crawler.ScrapeWebsiteContent | crunchbase_crawler/core/crawler.py:168-187 | One page fetch; the result is the joined element text, or None. |
| Crawler.Crawler.AnalyzeWebsiteWithGpt | crunchbase_crawler/core/crawler.py:189-231 | The chunk loop returns the summary and makes exactly the model calls of the specification. |
| Crawler.Crawler.ExtractRecord | crunchbase_crawler/core/crawler.py:113-130 | Builds the flat record from the property bag, or None where a `.get` or the extractors raise. |
| Crawler.Crawler.EnrichRecord | crunchbase_crawler/core/crawler.py:132-140 | Adds website_content and gpt_analysis under the website gate, with exactly the enrichment calls. |
| Crawler.Crawler.ProcessCompany | crunchbase_crawler/core/crawler.py:109-147 | Returns the built record or None; `companies_data` grows by exactly that record, and the calls are those of the pipeline. |
| SqlHandler.PreambleOrder | crunchbase_crawler/utils/sql_handler.py:12-56 | Four CREATE TABLE statements, then four DELETEs; no company row is deleted before its child rows. |
| SqlHandler.PreambleCoversEveryTable | crunchbase_crawler/utils/sql_handler.py:12-56 | Every table is created once and cleared once. |
| SqlHandler.UnescapeEscape | crunchbase_crawler/utils/sql_handler.py:67-68 | Doubling quotes can be undone: collapsing `''` gives back the original text. |
| SqlHandler.EscapeQuoteFree | crunchbase_crawler/utils/sql_handler.py:67 | A text without a quote is written unchanged. |
| SqlHandler.EscapeEmpty | crunchbase_crawler/utils/sql_handler.py:67-68 | Escaping gives the empty text only for the empty text. |
| SqlHandler.LiteralRoundTrip | crunchbase_crawler/utils/sql_handler.py:67-68 | An escaped text between quotes reads back as exactly one SQL literal holding the text, leaving what follows. |
| SqlHandler.BodyRoundTrip | crunchbase_crawler/utils/sql_handler.py:67-68 | The body of an escaped literal up to its closing quote reads back as the original text. |
| SqlHandler.LiteralBodyLength | crunchbase_crawler/utils/sql_handler.py:67-68 | A literal read off the front of a text takes its escaped length plus the closing quote. |
| SqlHandler.EscapeLength | crunchbase_crawler/utils/sql_handler.py:67 | Escaping never shortens a text and lengthens every text that holds a quote. |
| SqlHandler.VerbatimQuoteBreaksLiteral | crunchbase_crawler/utils/sql_handler.py:65-107 | For every text that holds a quote and whatever follows it, writing the text between quotes without escaping does not read back as that text followed by what follows (when what follows starts with a quote, the text itself can still come back, with that quote swallowed). This affects uuid, website, created_at, updated_at, entity_def_id, permalink, image_id, image_url, facet ids, location type and permalink, and the social handles. |
| SqlHandler.VerbatimQuoteMisread | crunchbase_crawler/utils/sql_handler.py:65-107 | When the text after the closing quote does not start with a quote, as in every VALUES list of the file where a literal is followed by `,` or `)`, a text that holds a quote and is written without escaping is either not read as a literal at all or is read as a different text. The 'verbatim' fields listed in the row above behave this way. |
| SqlHandler.EscapeQuotes | crunchbase_crawler/utils/sql_handler.py:67 | `replace("'", "''")` adds one character for each quote and doubles the number of quotes. |
| SqlHandler.LiteralBodyShape | crunchbase_crawler/utils/sql_handler.py:67-68 | A literal that has been read is its value escaped, then a closing quote, then a remainder that does not start with a quote. |
| SqlHandler.NatTextDigits | crunchbase_crawler/utils/sql_handler.py:66 | The decimal text of a number is non-empty and made of digits. |
| SqlHandler.RankNullIff | crunchbase_crawler/utils/sql_handler.py:66 | rank_org is written as the bare NULL exactly when it is falsy (None or 0). |
| SqlHandler.CompanyRowFields | crunchbase_crawler/utils/sql_handler.py:61-79 | Thirteen values, all quoted except rank_org. rank_org is the bare NULL exactly when it is falsy, and otherwise its decimal text, unquoted. uuid, timestamps, entity_def_id and permalink are written as they are, None as the text None. |
| SqlHandler.CompanyRowText | crunchbase_crawler/utils/sql_handler.py:67-77 | Name, description, website_content and gpt_analysis unescape to their values (or to '' when falsy). Website, image_id and image_url are written as they are, unescaped, or '' when None. A falsy optional field is written as ''. |
| SqlHandler.EscapedOrEmptyFacts | crunchbase_crawler/utils/sql_handler.py:68 | `x.replace(...) if x else ''` unescapes to `x or ''` and is empty exactly when x is falsy. |
| SqlHandler.FacetInserts | crunchbase_crawler/utils/sql_handler.py:82-86 | One facets INSERT per facet id, in order. |
| SqlHandler.LocationInsertFields | crunchbase_crawler/utils/sql_handler.py:89-98 | A location is written exactly when its value is not None: four quoted values, the company uuid as it is, the value escaped so that it reads back unchanged, and the type and permalink as they are. |
| SqlHandler.SocialInsertFields | crunchbase_crawler/utils/sql_handler.py:101-109 | The social row has four quoted values: the company uuid, then each handle as it is, or '' exactly when the handle is None or empty. |
| SqlHandler.GenerateSqlFile | crunchbase_crawler/utils/sql_handler.py:5-114 | The statements written and whether writing completed are those of the whole-file specification `Script`. |
| SqlHandler.WriteCompany | crunchbase_crawler/utils/sql_handler.py:59-109 | The loop body writes exactly one company's block, up to where it raises. |
| SqlHandler.LocationInsertsStopped | crunchbase_crawler/utils/sql_handler.py:89-98 | Once a location raises, later locations do not matter. |
| SqlHandler.LocationInsertsAll | crunchbase_crawler/utils/sql_handler.py:89-98 | The locations INSERTs complete exactly when every location has a value, and are then one per location, in order. |
| SqlHandler.BlocksStopped | crunchbase_crawler/utils/sql_handler.py:59-114 | Once a company raises, later companies add nothing to the file. |
| SqlHandler.BodyStep | crunchbase_crawler/utils/sql_handler.py:59-109 | Proof step: one more company extends the file by its block; when that block raises, the file ends there. |
| SqlHandler.BodyStopsAt | crunchbase_crawler/utils/sql_handler.py:59-114 | When company i raises, the body is the complete blocks before it plus its partial block. |
| SqlHandler.BlockCompletes | crunchbase_crawler/utils/sql_handler.py:59-109 | A company's block completes exactly when it has a name and facet ids and every location has a value. |
| SqlHandler.CompanyBlockShape | crunchbase_crawler/utils/sql_handler.py:59-109 | A complete block is the companies INSERT, the facets INSERTs, the locations INSERTs and the social INSERT, in that order. |
| SqlHandler.PartialBlock | crunchbase_crawler/utils/sql_handler.py:61-98 | What a malformed company leaves behind: nothing without a name; the companies row alone without facet ids; otherwise the companies row, every facets INSERT, and the locations INSERTs of the locations before the first one without a value, each with that location's values. |
| SqlHandler.PartialLocations | crunchbase_crawler/utils/sql_handler.py:89-98 | Proof step: the location case of PartialBlock, where location j is the first without a value. |
| SqlHandler.BlocksComplete | crunchbase_crawler/utils/sql_handler.py:59-114 | Blocks that complete exactly on well-formed records complete through the first n records exactly when those are well formed. |
| SqlHandler.CompanyBlocksComplete | crunchbase_crawler/utils/sql_handler.py:59-109 | The company blocks complete exactly on well-formed records. |
| SqlHandler.BodyCompletes | crunchbase_crawler/utils/sql_handler.py:59-114 | The loop over the first n companies completes exactly when they are all well formed. |
| SqlHandler.RowsAppend | crunchbase_crawler/utils/sql_handler.py:59-109 | The rows of a table in a concatenation are the rows of each part, in order. |
| SqlHandler.RowsSingle | crunchbase_crawler/utils/sql_handler.py:59-109 | Proof step: one statement adds a row to a table exactly when it is an INSERT into it. |
| SqlHandler.RowsOther | crunchbase_crawler/utils/sql_handler.py:59-109 | Statements for other tables add no row. |
| SqlHandler.RowsSame | crunchbase_crawler/utils/sql_handler.py:82-98 | INSERTs into one table add one row each. |
| SqlHandler.RowsOfParts | crunchbase_crawler/utils/sql_handler.py:59-109 | A block adds one companies row, one social row, and one row per facet and per location INSERT. |
| SqlHandler.BlockRows | crunchbase_crawler/utils/sql_handler.py:59-109 | A well-formed company adds its own companies row and social row, one facets row per facet id and one locations row per location. |
| SqlHandler.CompanyRows | crunchbase_crawler/utils/sql_handler.py:61-79 | One companies row per record, each the record's row. |
| SqlHandler.SocialRows | crunchbase_crawler/utils/sql_handler.py:101-109 | One social-media row per record, each from the record's links. |
| SqlHandler.BlocksRows | crunchbase_crawler/utils/sql_handler.py:59-109 | For well-formed records, the companies rows and the social rows are the records' own rows, in record order. |
| SqlHandler.BlocksItemRows | crunchbase_crawler/utils/sql_handler.py:82-98 | For well-formed records, there is one facets row per facet id and one locations row per location, over all the records. |
| SqlHandler.CompanyBlocksRows | crunchbase_crawler/utils/sql_handler.py:59-109 | The company blocks write those rows. |
| SqlHandler.ScriptRows | crunchbase_crawler/utils/sql_handler.py:5-114 | For well-formed records the script completes, and holds one companies row and one social row per record, in order, plus one row per facet id and per location. |
| SqlHandler.ScriptRowsOf | crunchbase_crawler/utils/sql_handler.py:5-114 | The same for any blocks with those properties, written after the preamble. |
| SqlHandler.PreambleAddsNoRows | crunchbase_crawler/utils/sql_handler.py:12-56 | Proof step: the preamble inserts no row into any table. |
| SqlHandler.ScriptCompletes | crunchbase_crawler/utils/sql_handler.py:5-114 | The script runs to the end exactly when every record is well formed. |
| SqlHandler.ScriptAtFirstFailure | crunchbase_crawler/utils/sql_handler.py:59-114 | When record i is the first malformed one, the file holds the preamble, the earlier blocks and record i's partial block, and writing did not complete. |
| SqlHandler.PreambleOnce | crunchbase_crawler/utils/sql_handler.py:12-109 | The file opens with the preamble, and everything after it is an INSERT, so tables are created and cleared only once, at the top. |
| SqlHandler.BlocksInsertsOnly | crunchbase_crawler/utils/sql_handler.py:59-109 | Proof step: blocks made of INSERTs give a body made of INSERTs. |
| SqlHandler.CompanyBlocksInsertsOnly | crunchbase_crawler/utils/sql_handler.py:59-109 | Proof step: a company block is made of INSERTs. |
| SqlHandler.LocationInsertsInsertsOnly | crunchbase_crawler/utils/sql_handler.py:89-98 | Proof step: the locations loop writes only INSERTs. |
| SqlHandler.ScriptOfNoCompanies | crunchbase_crawler/utils/sql_handler.py:5-56 | An empty list gives the preamble alone. |
| ApiDriver.FirstMissing | crunchbase_crawler/main.py:24-27 | The index of the first entity without a uuid key: all before it have one, and the one there lacks it. |
| ApiDriver.PageEffectsRecords | crunchbase_crawler/main.py:23-36 | The records a page appends are the non-None results of its submitted entities, in page order. |
| ApiDriver.ApiLoopPages | crunchbase_crawler/main.py:20-50 | The page number counts the pages; every page but the last is full, and each later page is the search after the previous page's last uuid. |
| ApiDriver.ApiLoopRecords | crunchbase_crawler/main.py:20-50 | The records are the non-None results of the entities handed over, in submission order (the order the model fixes for the worker threads). |
| ApiDriver.ApiLoopTotal | crunchbase_crawler/main.py:20-50 | A run that ends normally handed over every entity of every page, and `total_processed` counts them. |
| ApiDriver.ApiLoopAborted | crunchbase_crawler/main.py:24-27 | A KeyError run handed over the earlier pages and the last page's entities before the one without a uuid, and did not count that page. |
| ApiDriver.ApiLoopEnd | crunchbase_crawler/main.py:20-50 | A run that ends normally ends on an empty page, on reaching the threshold, or on a page that is not full. |
| ApiDriver.ApiRunEmptyFirstPage | crunchbase_crawler/main.py:16-20 | An empty first page means one search, page number 1, and nothing processed. |
| ApiDriver.SinglePageAtBatchSize | crunchbase_crawler/main.py:38-40 | With page size equal to the target, exactly one page is requested. |
| ApiDriver.DefaultRunSinglePage | crunchbase_crawler/main.py:18-46 | With the default batch size of 2 as both page size and target, the run makes exactly one search, without a cursor, and hands `process_company` only that page's entities before the first one without a uuid. |
| ApiDriver.PageEffectsOnlyWebAndModel | crunchbase_crawler/main.py:23-27 | Handling the entities of a page makes no search. |
| ApiDriver.ProcessingProcessesAll | crunchbase_crawler/main.py:25 | Proof step: the entity processor used by the loop does what `process_company(entity, entity['uuid'])` does. |
| ApiDriver.ProcessPage | crunchbase_crawler/main.py:23-36 | Submitting a page runs the entities up to the first without a uuid; it succeeds exactly when every entity has one, and appends exactly those entities' records and calls. |
| ApiDriver.ApiLoopTurn | crunchbase_crawler/main.py:20-50 | Proof step: one turn of the loop on a non-empty page either aborts, stops, or continues with the next search. |
| ApiDriver.TurnAborts | crunchbase_crawler/main.py:24-27 | Proof step: a page with an entity lacking a uuid ends the run there, uncounted. |
| ApiDriver.TurnStops | crunchbase_crawler/main.py:38-50 | Proof step: reaching the target, or a page that is not full, ends the run after counting the page. |
| ApiDriver.TurnContinues | crunchbase_crawler/main.py:42-46 | Proof step: a full page below the target leads on to the search after its last uuid. |
| ApiDriver.PageEffectsStep | crunchbase_crawler/main.py:29-32 | Proof step: handling one more entity appends its record, if any, and its calls. |
| ApiDriver.Paginate | crunchbase_crawler/main.py:20-50 | The loop ends with the counters, records and calls of the specification `ApiLoop`. |
| ApiDriver.ProcessApiData | crunchbase_crawler/main.py:14-52 | `process_api_data` ends with the counters, records and calls of `ApiRun`: the first search without a cursor, then the loop. |
| DataProcessor.SingleCompanyGate | crunchbase_crawler/core/data_processor.py:8-21 | Without details the result is None after only the detail request; with details it is `process_company`'s result and calls; a record carries the uuid looked up. |
| DataProcessor.ProcessSingleCompany | crunchbase_crawler/core/data_processor.py:8-21 | Returns that result; the record list grows by exactly it; the calls are the detail request and the pipeline's. |
| DataProcessor.CollectedBound | crunchbase_crawler/core/data_processor.py:31-46 | Never more records than rows. |
| DataProcessor.CollectedMembers | crunchbase_crawler/core/data_processor.py:38-44 | A record is collected exactly when some row's lookup returned it. |
| DataProcessor.CollectedInRowOrder | crunchbase_crawler/core/data_processor.py:38-44 | The records of earlier rows come first. |
| DataProcessor.CollectedAllFound | crunchbase_crawler/core/data_processor.py:38-44 | When every lookup succeeds, record i is row i's. |
| DataProcessor.DetailUuidsAppend | crunchbase_crawler/core/data_processor.py:33-36 | The detail requests of concatenated call lists are those of each part, in order. |
| DataProcessor.DetailUuidsNone | crunchbase_crawler/core/data_processor.py:33-36 | Calls without detail requests contribute no uuid. |
| DataProcessor.LookupDetailsFirst | crunchbase_crawler/core/data_processor.py:11-13 | A lookup's calls begin with its own detail request and make no other. |
| DataProcessor.DetailsInRowOrder | crunchbase_crawler/core/data_processor.py:33-36 | Such tasks, one per row, give detail requests for the rows in row order. |
| DataProcessor.DetailsPerRow | crunchbase_crawler/core/data_processor.py:28-44 | The collector requests details for the file's uuids, once each, in file order. |
| DataProcessor.RowStep | crunchbase_crawler/core/data_processor.py:38-44 | Proof step: handling one more row appends its result, if any, and its calls. |
| DataProcessor.ProcessCsvData | crunchbase_crawler/core/data_processor.py:24-50 | Returns the collected records in row order and makes exactly the collector's calls; `companies_data` grows by exactly the returned records; an unreadable file gives [] and no call. |

## Left out

- HTTP requests, payloads, headers, the API key and `_make_api_request`
  (crunchbase_crawler/core/crawler.py:21-107). These are the `search` and `details` services and
  answer None or an empty page on failure.
- HTML parsing (BeautifulSoup, removal of script, style, header, footer, nav and aside elements, `get_text(strip=True)`).
  It is the `pageTexts` service, which supplies the element texts.
- The language-model client, model name and prompt text. A completion is the `complete` service;
  a call that raises is None. A reply whose `content` is None is not modelled.
- The client object is an always-truthy OpenAI instance. Its presence is the `hasClient`
  parameter, which covers both outcomes of the check at crawler.py:135.
- The thread pools (`MAX_WORKERS`). In the program, `process_company` appends to the shared
  `companies_data` list itself (crawler.py:142) while running in a worker thread (main.py:23-27,
  data_processor.py:32-36). So the list is filled in the order the tasks finish, and the outside
  calls of different tasks interleave. The model runs the tasks one after the other in submission
  order. Its statements about the order of `companies_data` and of the call log hold for that
  schedule; for the program they hold up to reordering between tasks of one page or one file. The
  list that `process_csv_data` returns is built by reading the futures in submission order
  (data_processor.py:38-44), so its order is the program's own.
- ApiDriver.ApiLoopRecords, ApiDriver.Paginate, ApiDriver.ProcessApiData, ApiDriver.ProcessPage:
  the records appended to `companies_data` and the calls made are stated in submission order; for
  the threaded program they are the same records and calls, in an order that can differ within a
  page.
- DataProcessor.ProcessCsvData: `companies_data` grows by the returned records in row order, and
  the calls are in row order; for the threaded program the appends and calls can come in another
  order within the file, while the returned list keeps row order.
- `time.sleep(random.uniform(DELAY_MIN, DELAY_MAX))` between pages (main.py:47). It has no effect
  on the data.
- Logging, the interactive `main()` menu, `file_handler`'s JSON output, the settings read from the
  environment, and `COMPANY_FIELDS`.
- `pandas.read_csv`: the file is given as its uuid column, or None when it cannot be read. NaN
  cells and non-string uuids are not modelled.
- JSON members are strings, lists and objects as the record uses them. Non-string values where a
  string is expected (which would make `.replace` raise) are not modelled; rank_org is an integer.
- The SQL file's exact text and whitespace: statements are abstract values, and only the escaping
  of string literals is written out. Failure to open the output file is not modelled; an exception
  while writing leaves the statements written so far.
- ApiDriver.ProcessApiData: `DEFAULT_BATCH_SIZE` (crunchbase_crawler/config/settings.py:34, value
  `ApiDriver.DefaultBatchSize`) is a parameter for both the page size and the target, so the
  method covers the program's run and any other choice of the two.
