# mini-searchflow, modelled in Dafny

mini-searchflow is a research assistant built as a LangGraph workflow. A coordinator
reads the user's request and either answers directly or hands the research topic on.
An optional background investigator runs one web search first. A question decomposer
has a model split the topic into a plan of sub-questions, and a human-feedback node
lets a person accept or edit that plan. The research team then runs a researcher,
analyst or processing agent on each unfinished sub-question in turn, until the reporter
writes the final report. Along the way, citations are collected from the search and
crawl results the agents see, numbered, merged and rendered into the report.
Transcripts are compressed to fit a model's token budget, and values written to the
log are sanitised.

This project models the deterministic logic beneath that glue:

- **Citations.** The record types, extraction from tool messages, URL deduplication
  and merging by score, the stateful collector and its numbering, and rendering in
  three styles. Parsing citations back out of a finished report is included.
- **Text hygiene.** The token estimate and the two-stage context compressor, message
  content validation, the JSON-tail scanner and sanitisers, and the log sanitiser.
- **Workflow control.** The plan datatypes, plan repair, and the routing of the
  coordinator, background investigator, decomposer, human-feedback and research-team
  nodes. This covers the graph's edges and the step executor's success and failure
  paths.
- **Tools.** The human-approval tool gate and search-result post-processing. Also the
  InfoQuest search and crawl clients' request building and reply reading, PDF
  detection, HTML sniffing, safe truncation and the crawled article's message parts.
- **Configuration and retrieval.** Environment reads and `$NAME` substitution, the
  configuration cache, LLM token limits, configuration merging and provider choice.
  Also the pure helpers of the Milvus and Qdrant providers: chunking, titles, file
  names, paging and hit grouping.

Some things become parameters of the operations that use them:

- model replies, interrupt replies and human feedback;
- search and crawl payloads;
- environment values and vector-store hits;
- the results of foreign libraries: `json`, `yaml`, regular expressions, `urljoin`,
  `markdownify`, `textwrap.shorten`, hashes and the readability extractor.

Python's dynamic values are the `Values.Value` datatype, and a dict is an
insertion-ordered list of entries.

Where the source updates objects in place, the model uses classes with `modifies`
clauses: the citation collector, the sub-questions of a plan, tools wrapped by the
interceptor, the LLM and configuration caches, and the RAG documents and their chunk
lists. Each such method is proved against a specification function, and the
properties are proved as lemmas about that function.

## Model

| member | source | states |
|---|---|---|
| CitationModels.FillDomain | citations/models.py:50-61 | with no domain and a non-empty url the domain becomes the url's authority; a failed parse, a given domain or an empty url leave the record unchanged; no other field ever changes |
| CitationModels.NewMetadata | citations/models.py:16-61 | a new record holds the given fields, every other field at its declared default, and a domain taken from the url's authority (None when the url is empty or does not parse) |
| CitationModels.FromSearchResult | citations/models.py:95-110 | url from the result (default ""), title "Untitled" when absent, score default 0.0, description = content when present (None for a None content), else description (default ""), snippet = the first 500 characters of non-empty content else None, extra = query and result_type (default "page") |
| CitationModels.Id | citations/models.py:63-66 | the id is a prefix of the url's hex digest of at most 12 characters |
| CitationModels.MetadataToDict | citations/models.py:68-86 | the dict form has exactly the fifteen declared keys in order |
| CitationModels.MetadataDictOmitsRawContent | citations/models.py:68-86 | the dict form has no raw_content entry |
| CitationModels.MetadataFromDict | citations/models.py:88-93 | a non-dict fails; an accepted dict carries the record's url and title as strings |
| CitationModels.MetadataDictLookups | citations/models.py:88-93 | after "id" is dropped, every other field written by to_dict is found again under its key |
| CitationModels.MetadataDictRoundTrip | citations/models.py:68-93 | from_dict(to_dict(m)) gives back m with raw_content cleared and nothing else changed |
| CitationModels.CitationId | citations/models.py:135-148 | a citation's id is its metadata's id |
| CitationModels.CitationToDict | citations/models.py:150-157 | the dict form has exactly the keys number, metadata, context, cited_text |
| CitationModels.CitationDictFields | citations/models.py:150-157 | the dict form holds the number, the metadata's dict form, the context and the cited text |
| CitationModels.CitationFromDict | citations/models.py:159-169 | acceptance needs both "number" and "metadata", and the accepted number is the dict's number |
| CitationModels.CitationDictRoundTrip | citations/models.py:150-169 | from_dict(to_dict(c)) keeps the number, context, cited text and all metadata except raw_content |
| CitationModels.StringFormsAgree | citations/models.py:171-185 | the footnote definition starts with the inline marker it defines, and the numbered and footnote forms both end with "Title - URL" |
| CitationCollection.EmptyValid | citations/collector.py:27-31 | a fresh collector satisfies the collector invariant (order list without repeats, index = position, used ⊆ known) |
| CitationCollection.IndexIsPosition | citations/collector.py:59-63 | in a coherent collector without repeats the index map sends the URL at position i to i |
| CitationCollection.RecordCoherent | citations/collector.py:59-63 | recording a URL with its own metadata keeps the map, order list and index coherent |
| CitationCollection.RecordNoRepeats | citations/collector.py:59-63 | recording a URL that was not yet known keeps the order list free of repeats |
| CitationCollection.Number | citations/collector.py:128-139 | a number exists exactly for known URLs, lies in 1..n, and is the 1-based position of the URL in the order list |
| CitationCollection.MetadataOf | citations/collector.py:141-151 | metadata is returned exactly for known URLs, and it carries that URL |
| CitationCollection.CountOf | citations/collector.py:239-242 | the count is the number of distinct URLs, which is the order list's length when it has no repeats |
| CitationCollection.UsedCountOf | citations/collector.py:244-247 | the used count never exceeds the number of known citations while every used URL is known |
| CitationCollection.Mark | citations/collector.py:113-126 | a known URL joins the used set and its number is returned; an unknown URL changes nothing and gives None; citations, order and index never change; the invariant is kept |
| CitationCollection.AllCitations | citations/collector.py:153-169 | one citation per order entry, position i numbered i + 1 with that URL's metadata |
| CitationCollection.UsedUrlsMembers | citations/collector.py:171-190 | the used listing holds exactly the URLs that are both listed and used, and is no longer than the order list |
| CitationCollection.UsedCitationsNumbering | citations/collector.py:171-190 | the used citations are the used URLs in their original order, numbered 1..k without gaps |
| CitationCollection.UsedCitationsSpec | citations/collector.py:171-190 | get_used_citations returns only used URLs, in order, renumbered 1..k, never more than all citations |
| CitationCollection.Urls | citations/collector.py:232 | the URL list has one entry per record, the record's url |
| CitationCollection.SearchStepCases | citations/collector.py:47-70 | image results and url-less results are skipped; a new URL is recorded at the end and reported as added; a known URL's metadata is replaced only on a strictly greater score, with order and index unchanged |
| CitationCollection.SearchStepExtends | citations/collector.py:47-70 | one search result keeps the collector coherent, only appends to the order list (what it appends is what it reports added) and keeps it free of repeats |
| CitationCollection.RecordExtends | citations/collector.py:59-63 | recording an unknown URL appends exactly that URL and reports its metadata |
| CitationCollection.ReplaceExtends | citations/collector.py:65-70 | replacing a known URL's metadata on a higher score leaves order and index alone and reports nothing |
| CitationCollection.AddSearchResultsSpec | citations/collector.py:33-72 | add_from_search_results keeps the collector coherent, free of repeats and with known used URLs, and `added` is exactly what was appended, all first-time URLs |
| CitationCollection.SearchStepKnown | citations/collector.py:59-70 | a result whose URL is known adds nothing and keeps the order, the index and the set of known URLs |
| CitationCollection.AddSearchResultsKnown | citations/collector.py:33-72 | a batch adds nothing to a collector that already knows every URL the batch would record |
| CitationCollection.AddSearchResultsAgain | citations/collector.py:33-72 | adding the same batch a second time adds nothing and keeps the order list and index |
| CitationCollection.CrawlResultSpec | citations/collector.py:74-111 | a known URL keeps order and index, takes a new title only if non-empty and not "Untitled", raw content only for non-empty content, and a 500-character snippet only when it had none; a new URL is appended with title defaulting to "Untitled"; the used set never changes |
| CitationCollection.CrawlResultValid | citations/collector.py:74-111 | add_from_crawl_result keeps the collector invariant |
| CitationCollection.NewUrlsSpec | citations/collector.py:232-236 | the URLs a merge appends are exactly the other collector's URLs unknown here, each once |
| CitationCollection.MergeFromCoherent | citations/collector.py:232-236 | the merge loop keeps the collector coherent |
| CitationCollection.MergeFromKeys | citations/collector.py:232-236 | the merge loop adds exactly the visited URLs to the known set and leaves the used set alone |
| CitationCollection.MergeFromOrder | citations/collector.py:232-236 | the merge loop appends the unknown URLs in the other collector's order |
| CitationCollection.MergeFromValues | citations/collector.py:232-236 | known URLs keep their metadata and index; added URLs bring the other collector's metadata |
| CitationCollection.MergeFromShape | citations/collector.py:232-236 | the merge loop's result has the shape of a merge: old entries kept, new ones appended from the other collector |
| CitationCollection.AppendUnknown | citations/collector.py:232-236 | appending distinct unknown URLs keeps the order list free of repeats |
| CitationCollection.MergeFromSpec | citations/collector.py:232-236 | the merge loop keeps coherence and the no-repeat property and appends exactly the unknown URLs |
| CitationCollection.MergeSpec | citations/collector.py:225-237 | merge_with appends, in the other's order, exactly the URLs this collector lacks; the known set and the used set become the unions |
| CitationCollection.MergeCoherent | citations/collector.py:225-237 | merge_with keeps the collector coherent |
| CitationCollection.MergeKeeps | citations/collector.py:232-236 | shared URLs keep this collector's metadata and number; new URLs take the other's metadata |
| CitationCollection.MergeCount | citations/collector.py:225-242 | after a merge the count is the number of URLs known to either side, and validity is kept when the other's used URLs are known |
| CitationCollection.MergeFromKnown | citations/collector.py:232-236 | a merge over URLs all already known changes nothing |
| CitationCollection.MergeIdempotent | citations/collector.py:225-237 | merging the same collector a second time changes nothing |
| CitationCollection.Serialize | citations/collector.py:192-202 | to_dict holds exactly "citations" (the dict of each citation numbered by position) and "used_urls" (a listing of the used set) |
| CitationCollection.CitationItems | citations/collector.py:216 | a missing "citations" entry iterates nothing, a list iterates its items, a non-dict input fails |
| CitationCollection.UsedUrlSet | citations/collector.py:222 | a missing "used_urls" entry gives the empty set |
| CitationCollection.Deserialize | citations/collector.py:204-223 | from_dict rejects non-dict input |
| CitationCollection.FromItemsSpec | citations/collector.py:215-221 | the collector is rebuilt exactly when every entry parses; it then lists one URL per entry, in input order, with nothing used |
| CitationCollection.FromItemsCoherent | citations/collector.py:215-221 | a rebuilt collector is coherent |
| CitationCollection.FromDictSpec | citations/collector.py:204-223 | from_dict yields a coherent collector with one order entry per citation entry |
| CitationCollection.FromDictKeepsRepeats | citations/collector.py:215-221 | from_dict does not deduplicate: two entries with the same URL both stay in the order list and the count falls below its length |
| CitationCollection.StripRaw | citations/models.py:68-86 | the metadata map with raw content dropped has the same URLs and otherwise the same records |
| CitationCollection.FromItemsRebuilt | citations/collector.py:215-221 | parsing the first k entries of a listing rebuilds the collector's first k entries |
| CitationCollection.RebuiltOrder | citations/collector.py:219-220 | the rebuilt order list is the listed prefix and nothing is used |
| CitationCollection.RebuiltMembers | citations/collector.py:218 | the rebuilt known set is the set of listed URLs |
| CitationCollection.RebuiltCitations | citations/collector.py:218 | rebuilt metadata is the original metadata without raw content |
| CitationCollection.RebuiltIndex | citations/collector.py:219-221 | the rebuilt index of a URL is its last position in the listing |
| CitationCollection.RebuiltAllCitations | citations/collector.py:215-221 | rebuilding the whole listing gives back every record without raw content |
| CitationCollection.RebuiltAllIndex | citations/collector.py:215-221 | rebuilding the whole listing gives back the index map |
| CitationCollection.RebuiltAll | citations/collector.py:215-221 | rebuilding every entry gives back the collector with raw contents dropped and nothing used |
| CitationCollection.ToDictEntriesParse | citations/collector.py:200-217 | every entry to_dict writes parses back to its citation, raw content dropped |
| CitationCollection.ToDictEntryParse | citations/models.py:150-169 | one citation's dict parses back to it, raw content dropped |
| CitationCollection.RebuildFromItems | citations/collector.py:215-221 | entries that each parse back to their citation rebuild the collector |
| CitationCollection.DictRoundTrip | citations/collector.py:192-223 | from_dict(to_dict(c)) rebuilds the same order list, index map and used set, and the same metadata apart from raw content |
| CitationCollection.FromItemsErr | citations/collector.py:216-217 | one entry that fails to parse makes from_dict fail |
| CitationCollection.Collector.constructor | citations/collector.py:27-31 | a new collector is empty and valid |
| CitationCollection.Collector.AddFromSearchResults | citations/collector.py:33-72 | the new state and `added` are those of AddSearchResults on the old state; the invariant is kept |
| CitationCollection.Collector.AddSearchResult | citations/collector.py:47-70 | one loop iteration does what SearchStep says |
| CitationCollection.Collector.AddFromCrawlResult | citations/collector.py:74-111 | the new state and the returned metadata are those of CrawlResult; the invariant is kept |
| CitationCollection.Collector.MarkUsed | citations/collector.py:113-126 | the new state and number are those of Mark; the invariant is kept |
| CitationCollection.Collector.GetNumber | citations/collector.py:128-139 | returns Number of the current state |
| CitationCollection.Collector.GetMetadata | citations/collector.py:141-151 | returns MetadataOf of the current state |
| CitationCollection.Collector.GetAllCitations | citations/collector.py:153-169 | returns AllCitations of the current state |
| CitationCollection.Collector.GetUsedCitations | citations/collector.py:171-190 | returns UsedCitations of the current state |
| CitationCollection.Collector.ToDict | citations/collector.py:192-202 | returns Serialize of the state for some listing of the used set with each URL once |
| CitationCollection.Collector.MergeWith | citations/collector.py:225-237 | the new state is Merge of the old states, also when the other collector is this one; the invariant is kept |
| CitationCollection.Collector.MergeOrder | citations/collector.py:232-236 | the loop's result is MergeFrom over the other's order list |
| CitationCollection.Collector.MergeUrl | citations/collector.py:233-236 | one iteration records an unknown URL and leaves a known one alone |
| CitationCollection.Collector.Clear | citations/collector.py:249-254 | after clear the collector is empty and valid |
| CitationCollection.Collector.Count | citations/collector.py:239-242 | returns CountOf of the current state |
| CitationCollection.Collector.UsedCount | citations/collector.py:244-247 | returns UsedCountOf of the current state |
| CitationExtraction.FirstDelim | citations/extractor.py:355-358 | the position found holds the first `/`, `?` or `#`, and no earlier character is one |
| CitationExtraction.HostEnd | citations/extractor.py:355-358 | the end of the leading host[:port] group lies within the url |
| CitationExtraction.ExtractDomainCases | citations/extractor.py:320-361 | "" for an empty url; the parsed authority when it is non-empty; otherwise either "" or a prefix of the url that is a valid host[:port] holding no path, query or fragment delimiter |
| CitationExtraction.ExtractDomainBareHost | citations/extractor.py:348-358 | a scheme-less url made of a valid host[:port] followed by `/`, `?` or `#` yields exactly that host |
| CitationExtraction.FirstSubstantial | citations/extractor.py:275-282 | the line chosen is the first substantial one (none earlier qualifies), or the end when there is none |
| CitationExtraction.ExtractTitleShape | citations/extractor.py:209-284 | the title is "Untitled" or a prefix, at most max_length long, of a non-empty text starting with a non-space; with a positive limit it is non-empty |
| CitationExtraction.ExtractTitleFromLines | citations/extractor.py:228-284 | when no pattern matches and the JSON/YAML title is at most 3 characters, the title is the first substantial line, stripped, cut to max_length |
| CitationExtraction.SearchCitationLookups | citations/extractor.py:197-206 | a search-hit citation holds its eight keys, each with its own value |
| CitationExtraction.CrawlCitationLookups | citations/extractor.py:309-317 | a crawl citation holds its keys, each with its own value |
| CitationExtraction.ResultToCitationFields | citations/extractor.py:183-206 | a hit without a truthy url gives None; a citation carries the hit's non-empty url, title default "Untitled", snippet = the first 500 characters of content, score default 0.0, source_type "web_search" |
| CitationExtraction.SearchHitsSpec | citations/extractor.py:160-180 | a list of hits yields at most one citation per hit, each with a non-empty string url |
| CitationExtraction.SearchHitsSkip | citations/extractor.py:162-195 | non-dict hits, "image_url" hits and hits without a url contribute nothing |
| CitationExtraction.FromSearchResultsError | citations/extractor.py:168-171 | a search payload carrying "error" yields no citations |
| CitationExtraction.CrawlToCitationFields | citations/extractor.py:287-317 | non-dicts and url-less dicts give None; a citation carries the url, description = the first 300 and snippet = the first 500 characters of the crawled content |
| CitationExtraction.FromToolMessageUnparsed | citations/extractor.py:83-96 | empty content, or a string that is not valid JSON, gives no citations and no error |
| CitationExtraction.FromToolMessageRouting | citations/extractor.py:101-144 | the five search names go to search extraction, the three crawl names to crawl extraction, and other names by shape: a non-empty list whose first item is a dict with "url" → search; a dict with "url" and "crawled_content" or "content" → crawl |
| CitationExtraction.FromToolMessageUrls | citations/extractor.py:65-144 | every citation taken from a tool message has a non-empty string url |
| CitationExtraction.FromSearchResultsUrls | citations/extractor.py:147-180 | every citation taken from search results has a non-empty string url |
| CitationExtraction.DedupUrls | citations/extractor.py:42-46 | the kept citations have truthy urls not seen before, pairwise distinct, and every such url in the input is kept |
| CitationExtraction.DedupOrder | citations/extractor.py:42-46 | the kept citations are input citations in input order, each the first occurrence of its url |
| CitationExtraction.CandidatesErrPrefix | citations/extractor.py:35-46 | once a prefix of the transcript fails, the whole transcript fails the same way |
| CitationExtraction.CandidatesOnlyTools | citations/extractor.py:35-56 | only tool messages matter: dropping every other message changes nothing |
| CitationExtraction.CandidatesUrls | citations/extractor.py:35-46 | every candidate url is a non-empty string |
| CitationExtraction.ExtractedCitationsSpec | citations/extractor.py:20-62 | the extracted citations have pairwise distinct non-empty string urls, and every url a tool message yields is among them |
| CitationExtraction.ExtractCitationsFromMessages | citations/extractor.py:20-62 | the loop with its seen-url set returns ExtractedCitations (first occurrence per url, in transcript order) |
| CitationExtraction.AddFresh | citations/extractor.py:42-46 | one tool message's citations pass through the seen-url filter, keeping the seen set equal to the kept urls |
| CitationExtraction.UpdateLookup | citations/extractor.py:395-402 | an update changes the score when the new citation has one, a title/description/"snippet" key only when the new value is truthy, and leaves the key otherwise |
| CitationExtraction.UpdateFields | citations/extractor.py:395-402 | an update changes only relevance_score, title, description and "snippet" (content_snippet is never touched) |
| CitationExtraction.IndexOfUrl | citations/extractor.py:387-388 | the position found is the first entry with that url, or the length when there is none |
| CitationExtraction.UpdateAgree | citations/extractor.py:387-402 | an update keeps every url, so the url set and the first position of each url |
| CitationExtraction.IndexOfUrlFound | citations/extractor.py:385-388 | a url in the seen set has a first position |
| CitationExtraction.MergeAllShape | citations/extractor.py:377-407 | the merged list is, up to the updated keys, the existing list followed by the first occurrences of new truthy urls not already present |
| CitationExtraction.MergeOneAgree | citations/extractor.py:380-404 | one merge step keeps the list in step with its reference, which grows by the new citation exactly when its url is truthy and new |
| CitationExtraction.MergeOneDominates | citations/extractor.py:380-404 | with valid scores, a merge step makes the list dominate one more citation (each url's entry scores at least as high) |
| CitationExtraction.MergeAllDominates | citations/extractor.py:377-407 | after a merge with valid scores the result dominates every incoming citation |
| CitationExtraction.MergeAllNoop | citations/extractor.py:380-404 | merging citations a list already dominates changes nothing |
| CitationExtraction.MergeAllHashable | citations/extractor.py:377-385 | merging keeps every truthy url hashable |
| CitationExtraction.MergedIdempotent | citations/extractor.py:364-407 | with scores absent or non-negative, merging the same batch a second time is a no-op |
| CitationExtraction.MergedSpec | citations/extractor.py:364-407 | existing entries stay in place with unchanged urls; each new non-empty url is appended once; empty-url entries are dropped |
| CitationExtraction.MergeAllErrPrefix | citations/extractor.py:380-404 | once a prefix of the batch fails, the whole merge fails the same way |
| CitationExtraction.MergeStep | citations/extractor.py:380-404 | one pass of the loop is MergeOne and keeps the seen set equal to the result's urls |
| CitationExtraction.MergeCitations | citations/extractor.py:364-407 | merge_citations returns Merged(existing, new) |
| CitationExtraction.CounterStepOne | citations/extractor.py:390-402 | a score-less new citation (scored 0) beats an existing score of -1 and sets the title |
| CitationExtraction.CounterStepTwo | citations/extractor.py:390-402 | a -0.5 citation then beats the -1 entry and replaces score and title |
| CitationExtraction.CounterStepThree | citations/extractor.py:390-402 | on the second application the score-less citation beats -0.5 again and puts its title back |
| CitationExtraction.CounterStepFour | citations/extractor.py:390-402 | the -0.5 citation no longer beats its own score |
| CitationExtraction.MergeTwiceDiffers | citations/extractor.py:364-407 | with negative scores, merging the same batch twice gives a different list, so idempotence needs non-negative scores |
| CitationFormatting.SuperscriptRoundTrip | citations/formatter.py:25-36 | on digits and the minus sign the glyph table is undone by its inverse, so no two numbers share a superscript |
| CitationFormatting.IntToStringInjective | citations/formatter.py:56-61 | distinct numbers have distinct decimal forms |
| CitationFormatting.InlineMarkerDecodes | citations/formatter.py:47-61 | "superscript" maps the number's digits through the glyph table; "footnote" gives "[^n]"; every other style gives "[n]" |
| CitationFormatting.InlineMarkerInjective | citations/formatter.py:47-61 | distinct numbers get distinct markers in every style |
| CitationFormatting.SnippetSpec | citations/formatter.py:96-100 | a description is kept when at most 200 characters, else cut to 200 with "..." appended |
| CitationFormatting.ReferenceShape | citations/formatter.py:64-104 | the reference opens with "[n] **Title**", has one line each for author, domain and date only when present, always a "URL: …" line, then the snippet only when there is a description |
| CitationFormatting.SimpleReferenceIsMarkdown | citations/formatter.py:106-116 | a simple reference is "- " followed by the citation's own markdown reference |
| CitationFormatting.RichExtendsSimple | citations/formatter.py:118-142 | the rich reference is the simple one plus, only when some domain, positive score or access time exists, one comment line listing them |
| CitationFormatting.EntryLinesSpec | citations/formatter.py:162-167 | every citation contributes its reference line followed by a blank line |
| CitationFormatting.CitationsSectionStart | citations/formatter.py:144-169 | the section is "" exactly for no citations, and otherwise opens with "## Key Citations" and a blank line |
| CitationFormatting.FormatCitationsSection | citations/formatter.py:144-169 | the loop's joined lines are CitationsSection |
| CitationFormatting.FootnoteLinesSpec | citations/formatter.py:187-189 | one line per citation, each the citation's own footnote definition |
| CitationFormatting.FootnotesSectionStart | citations/formatter.py:171-190 | "" exactly for no citations; otherwise a blank line, "---", a blank line, then the footnote lines |
| CitationFormatting.FormatFootnotesSection | citations/formatter.py:171-190 | the loop's joined lines are FootnotesSection |
| CitationFormatting.FirstFrom | citations/formatter.py:205-206 | the position found holds the character, or is the end |
| CitationFormatting.FirstFromIsFirst | citations/formatter.py:205-206 | no character between the start and the position found is the one sought |
| CitationFormatting.LinkAt | citations/formatter.py:205-206 | a link match at i has a non-empty title ending before "](" and a non-empty url ending before ")" |
| CitationFormatting.LinkAtIff | citations/formatter.py:205-206 | the scanner finds a link at i exactly when the regular expression matches there |
| CitationFormatting.AddMarkersAtLink | citations/formatter.py:208-219 | a link is copied and followed by its url's marker, then the scan resumes after it |
| CitationFormatting.AddMarkersNoLink | citations/formatter.py:208-219 | a character where no link starts is copied unchanged |
| CitationFormatting.NextScan | citations/formatter.py:219 | the scan always advances and stays within the text |
| CitationFormatting.UnknownLinksUnchanged | citations/formatter.py:192-219 | text whose links all point at unnumbered urls comes back unchanged |
| CitationFormatting.NoNumbersUnchanged | citations/formatter.py:192-219 | with no numbered urls the text is unchanged |
| CitationFormatting.SingleLinkMarked | citations/formatter.py:208-219 | a lone link `[title](url)` gets its marker appended right after ")" when its url has a number, and is unchanged otherwise |
| CitationFormatting.StripKeepsWeb | citations/formatter.py:313-321 | stripping a web url keeps it a web url, and stripping twice changes nothing more |
| CitationFormatting.TidyFound | citations/formatter.py:313-321 | a found citation carries a stripped title and url |
| CitationFormatting.WebOnlyExactly | citations/formatter.py:300-323 | the filter keeps exactly the http:// and https:// matches |
| CitationFormatting.KeepWebSpec | citations/formatter.py:300-323 | the markdown and HTML extractors keep exactly the web-url matches, each stripped and tagged with its format |
| CitationFormatting.RecoveredTidy | citations/formatter.py:313-321 | every recovered citation has a stripped title and url |
| CitationFormatting.StripAllSpec | citations/formatter.py:325-373 | the numbered and footnote extractors recover one stripped, tagged citation per match, in match order |
| CitationFormatting.UniqueByUrlUrls | citations/formatter.py:277-282 | the kept citations have non-empty, pairwise distinct urls, and every non-empty candidate url is kept |
| CitationFormatting.UniqueByUrlOrder | citations/formatter.py:277-282 | the kept citations are candidates in candidate order, each the first candidate with its url |
| CitationFormatting.DistinctUrlsCount | citations/formatter.py:284-287 | with distinct urls the count equals the number of citations |
| CitationFormatting.ParsedCount | citations/formatter.py:242-287 | the count is the number of distinct non-empty candidate urls, and the citations carry exactly those urls |
| CitationFormatting.ReportCandidatesWeb | citations/formatter.py:263-275 | every candidate from every matching section has a stripped web url and title |
| CitationFormatting.ParsedUrlsWeb | citations/formatter.py:242-287 | every parsed citation has a stripped web url and title, and the urls are pairwise distinct |
| CitationFormatting.SectionsCandidatesStep | citations/formatter.py:268-275 | each section adds its markdown, numbered, footnote and HTML candidates after those of earlier sections |
| CitationFormatting.ReportCandidatesStep | citations/formatter.py:263-275 | each section pattern adds its sections' candidates after those of earlier patterns |
| CitationFormatting.CollectSections | citations/formatter.py:268-275 | the inner loop appends one pattern's candidates in extractor order |
| CitationFormatting.ParseCitationsFromReport | citations/formatter.py:242-287 | the loops return ParsedFromReport: unique citations in first-seen order with their count |
| CitationFormatting.FillUnique | citations/formatter.py:277-282 | the dedup loop keeps the dict holding the first citation per non-empty url, keys in insertion order |
| CitationFormatting.DictValues | citations/formatter.py:284-285 | the values listed follow the keys' insertion order |
| CitationFormatting.UniqueCitations | citations/formatter.py:277-287 | the dict's values are UniqueByUrl of the candidates and the count is their number |
| ContextManagement.SliceTo | utils/context_manager.py:248 | `s[:k]` is a prefix of s, of length k when k is in range |
| ContextManagement.SliceFrom | utils/context_manager.py:249 | `s[:k] + s[k:]` is s |
| ContextManagement.Reversed | utils/context_manager.py:253 | the reversed list holds the same messages, last first |
| ContextManagement.AsciiCount | utils/context_manager.py:122-130 | the number of characters below code 128 is at most the length |
| ContextManagement.CountTextTokens | utils/context_manager.py:107-136 | the character loop computes TextTokens: ASCII characters div 4 plus every other character |
| ContextManagement.AsciiCountAppend | utils/context_manager.py:125-130 | the ASCII count of two joined texts is the sum of their counts |
| ContextManagement.TextTokensZero | utils/context_manager.py:119-136 | the estimate never exceeds the length and is 0 exactly for text of at most three ASCII characters, the empty text included |
| ContextManagement.TextTokensConcat | utils/context_manager.py:122-136 | joining two texts adds their estimates, give or take the one token two partial ASCII groups make together |
| ContextManagement.MessageTokens | utils/context_manager.py:57-105 | every message costs at least one token |
| ContextManagement.ScaledBounds | utils/context_manager.py:81-92 | the 1.1 / 1.2 / 1.3 scaling with truncation never lowers an estimate and raises it by at most three tenths |
| ContextManagement.MessageTokensAtLeast | utils/context_manager.py:68-105 | a message costs at least its scaled string content plus type tag, and at least 50 more with tool_calls in its extra arguments |
| ContextManagement.HumanMessageTokens | utils/context_manager.py:71-86 | a human text message without extra arguments costs the text's estimate plus the one token of "human" |
| ContextManagement.CountTokens | utils/context_manager.py:42-55 | the loop returns TotalTokens, the sum of the per-message estimates |
| ContextManagement.IsOverLimit | utils/context_manager.py:138-148 | true exactly when the total is strictly greater than the limit |
| ContextManagement.TotalTokensAppend | utils/context_manager.py:52-55 | the total of two joined lists is the sum of their totals |
| ContextManagement.TotalTokensAtLeastLength | utils/context_manager.py:105 | a list costs at least one token per message |
| ContextManagement.TotalTokensPermutation | utils/context_manager.py:52-55 | reordering the messages does not change the total |
| ContextManagement.TotalTokensRemove | utils/context_manager.py:52-55 | removing one message lowers the total by exactly its estimate |
| ContextManagement.TrimItemSpec | utils/context_manager.py:229-234 | an item with a string raw_content over 1024 characters keeps every other key and the first 1024 characters; any other item is unchanged |
| ContextManagement.TrimItemsDone | utils/context_manager.py:228-234 | after trimming no item needs trimming |
| ContextManagement.CompressMessageSpec | utils/context_manager.py:204-241 | stage 1 changes only the content, only of web_search tool messages, and only to the serialisation of the trimmed list items |
| ContextManagement.CompressRawContents | utils/context_manager.py:201-241 | the stage-1 loop over the copied list gives Stage1 |
| ContextManagement.EvictStep | utils/context_manager.py:253-256 | while over the limit the loop inserts the next newest message and goes on |
| ContextManagement.OverLimitGrows | utils/context_manager.py:148 | adding a message never brings a list back within the limit |
| ContextManagement.EvictOver | utils/context_manager.py:253-256 | once over the limit the loop runs to the end, appending everything left |
| ContextManagement.EvictOutcome | utils/context_manager.py:245-258 | stage 2 gives the prefix plus the newest message when that fits, else the prefix followed by every other message newest first |
| ContextManagement.EvictOldest | utils/context_manager.py:251-256 | the stage-2 loop (each insert lands at the end, since result and prefix are one list) gives Evict |
| ContextManagement.CompressMessageList | utils/context_manager.py:189-270 | _compress_messages returns Compressed: stage 1, then stage 2 only when still over the limit |
| ContextManagement.CompressedKeepsPrefix | utils/context_manager.py:245-258 | the preserved prefix of the stage-1 list leads the result, and the result is never longer than the input |
| ContextManagement.CompressMessages | utils/context_manager.py:150-187 | compress_messages returns CompressedState |
| ContextManagement.CompressedStateUnchanged | utils/context_manager.py:161-174 | the state is unchanged unless there is a limit, there are messages and they exceed it |
| ContextManagement.ValidateMessageContent | utils/context_manager.py:286-341 | the loop returns ValidMessages; with an encoder that serialises the error envelope, as json.dumps does, it succeeds and keeps the messages in order, each with string content |
| ContextManagement.ValidMessagesErrPrefix | utils/context_manager.py:303-339 | once a message's error envelope cannot be serialised, the whole call fails the same way; ValidMessagesNeverFails shows this cannot happen with an encoder that serialises the envelope, as json.dumps does |
| ContextManagement.ValidContentBound | utils/context_manager.py:311-329 | the content is at most max_content_length + 3 characters; text already within the limit is kept; None becomes "" |
| ContextManagement.ValidMessagesShape | utils/context_manager.py:303-341 | a successful call gives the same messages in the same order, only their content changed, and every content a string; ValidMessagesNeverFails proves the call succeeds |
| ContextManagement.ValidMessageNeverFails | utils/context_manager.py:303-339 | a failed conversion is caught, so one message never fails when the `{"error": text}` envelope serialises |
| ContextManagement.ValidMessagesNeverFails | utils/context_manager.py:286-341 | validate_message_content never raises when the envelope serialises, and returns the same messages in order, each with string content |
| JsonUtils.SanitizeArgsSpec | utils/json_utils.py:25-33 | the result has no `[ ] { }`, keeps every other character of the input, and is the input itself when there is nothing to replace |
| JsonUtils.SanitizeArgsNonString | utils/json_utils.py:25-26 | a non-string gives "" |
| JsonUtils.Scan | utils/json_utils.py:55-94 | a recorded end lies after the first index and within the text; an empty text sees no opener |
| JsonUtils.StepEnd | utils/json_utils.py:79-94 | a step records its index exactly when its character is a `}` or `]` that brings its own counter to 0 after an opener of that kind |
| JsonUtils.ScanEnd | utils/json_utils.py:63-94 | the end after the whole text is the last index if it closes, else the end after the text without it |
| JsonUtils.ScanLastValidEnd | utils/json_utils.py:55-96 | the recorded end is the last balancing closer, and it is -1 exactly when there is none |
| JsonUtils.ScanPrefixAtEnd | utils/json_utils.py:63-94 | the recorded end is recorded again by the scan of the text up to it |
| JsonUtils.ExtractJson | utils/json_utils.py:36-102 | the result is a prefix of the stripped input |
| JsonUtils.ExtractJsonSpec | utils/json_utils.py:49-102 | the result is the whole stripped input when no closer balances, and otherwise ends at the last balancing closer (quoted characters and escaped characters ignored) |
| JsonUtils.ExtractJsonIdempotent | utils/json_utils.py:36-102 | extraction applied to its own output returns it unchanged |
| JsonUtils.ExtractJsonOfStripped | utils/json_utils.py:96-102 | on stripped text the result is the text up to the recorded end when that is positive, else the text |
| JsonUtils.ExtractCutIsFixed | utils/json_utils.py:96-100 | the cut text is stripped and scans to the same end, so it is kept whole |
| JsonUtils.ExtractJsonFromContent | utils/json_utils.py:36-102 | the scan loop returns ExtractJson |
| JsonUtils.SkipBlanks | utils/json_utils.py:131 | the index reached is the first at or after i that is not a space or tab |
| JsonUtils.SkipBlanksSkipped | utils/json_utils.py:131 | everything skipped is a space or tab |
| JsonUtils.SkipNewlines | utils/json_utils.py:131-139 | the index reached is the first at or after i that is not a newline |
| JsonUtils.SkipNewlinesSkipped | utils/json_utils.py:131-139 | everything skipped is a newline |
| JsonUtils.SkipTag | utils/json_utils.py:131 | the optional json/ts tag ends within the text |
| JsonUtils.OpenFenceAt | utils/json_utils.py:130-135 | an opening-fence match at i is non-empty and ends within the text |
| JsonUtils.CloseFenceAt | utils/json_utils.py:138-143 | a closing-fence match at i is non-empty and ends within the text |
| JsonUtils.SubFrom | utils/json_utils.py:130-143 | a substitution by "" never lengthens the text |
| JsonUtils.SubFromKeeps | utils/json_utils.py:130-143 | where nothing matches, the substitution copies the text |
| JsonUtils.NotFence | utils/json_utils.py:131-139 | no fence begins at a character that is not a backtick |
| JsonUtils.NoOpenFence | utils/json_utils.py:130-135 | no opening match starts in a stretch without backticks that ends at a newline or the end |
| JsonUtils.NoCloseFence | utils/json_utils.py:138-143 | no closing match starts in a stretch without backticks whose last character is not a newline |
| JsonUtils.SkipTagOf | utils/json_utils.py:131 | a json or ts tag in any case followed by a newline is skipped whole |
| JsonUtils.OpenFenceAtStart | utils/json_utils.py:130-135 | the opening fence line of a block is one match, ending where the body starts |
| JsonUtils.OpenFenceInBody | utils/json_utils.py:130-135 | nothing in a fence-free body is an opening match |
| JsonUtils.OpenFenceAtEnd | utils/json_utils.py:130-135 | the closing fence is no opening match |
| JsonUtils.OpeningFenceRemoved | utils/json_utils.py:130-135 | a fenced block, tagged json or ts in any case or untagged, loses exactly its opening line |
| JsonUtils.ClosingFenceRemoved | utils/json_utils.py:138-143 | what is left then loses exactly its closing fence |
| JsonUtils.FencedBlockUnfenced | utils/json_utils.py:125-144 | a fenced block reaches the bracket scan as its stripped body |
| JsonUtils.RepairJsonOutput | utils/json_utils.py:105-161 | blank input gives "" |
| JsonUtils.RepairJsonOutputFallback | utils/json_utils.py:146-161 | text the repairer cannot turn into a dict or list comes back as the bracket scan left it |
| JsonUtils.SanitizeToolResponseSpec | utils/json_utils.py:164-204 | the result has none of the removed control characters, is at most max_length + 3 long, is "" for "", and clean stripped short text that does not start with a bracket comes back unchanged |
| JsonUtils.SanitizeToolResponseJson | utils/json_utils.py:184-188 | text starting with `{` or `[` is cut back to the last balancing closer |
| LogSanitizer.TruncateAsWritten | utils/log_sanitizer.py:75-76 | as written: text within the limit is kept; longer text becomes `s[:max_length - 3] + "..."`, at least three characters |
| LogSanitizer.TruncateLog | utils/log_sanitizer.py:25-28 | as documented: never longer than a non-negative limit, unchanged when it fits, and made only of dots and characters of the input |
| LogSanitizer.SanitizeLogInput | utils/log_sanitizer.py:18-78 | None gives "None"; otherwise the six replacements, the control-character removal and the bounded truncation, i.e. SanitizedLog |
| LogSanitizer.KeysAbsentFromEarlierTexts | utils/log_sanitizer.py:58-68 | no character of the table occurs in the replacement text of an earlier row, so the backslash is escaped first |
| LogSanitizer.KeysDistinct | utils/log_sanitizer.py:58-65 | the table's characters are pairwise distinct |
| LogSanitizer.EscapeStep | utils/log_sanitizer.py:67-68 | applying row k after the first k rows escapes by the first k + 1 rows |
| LogSanitizer.ApplyReplacementsPrefix | utils/log_sanitizer.py:67-68 | the first k replace calls escape every character by the first k rows |
| LogSanitizer.EscapeUpToAll | utils/log_sanitizer.py:58-65 | all six rows together escape a character as the table says |
| LogSanitizer.EscapedSinglePass | utils/log_sanitizer.py:58-68 | the six replace calls in table order escape every character in one pass: no escape is altered by a later replacement |
| LogSanitizer.SanitizedLogNoControl | utils/log_sanitizer.py:58-72 | no character of the result is below a space: no newline, carriage return, tab or escape reaches the log |
| LogSanitizer.SanitizedLogBound | utils/log_sanitizer.py:75-76 | a value other than None is never logged longer than a non-negative limit |
| LogSanitizer.SanitizedLogPlain | utils/log_sanitizer.py:50-78 | text without control characters or backslashes that fits is logged unchanged |
| LogSanitizer.EscapedLength | utils/log_sanitizer.py:58-68 | escaping never shrinks a text and at most quadruples it |
| LogSanitizer.UnescapeEscaped | utils/log_sanitizer.py:58-68 | reading the escapes back gives the original text |
| LogSanitizer.SanitizedLogRoundTrip | utils/log_sanitizer.py:50-78 | text whose only control characters are NUL or ESC, short enough for its escapes to fit, can be read back exactly from the log line |
| LogSanitizer.TruncateLogAgrees | utils/log_sanitizer.py:75-76 | from a limit of 3 on, the bounded truncation is the one the code performs |
| LogSanitizer.SanitizedLogAgrees | utils/log_sanitizer.py:18-78 | from a limit of 3 on, the bounded sanitiser equals the one as written |
| LogSanitizer.AsWrittenExceedsLimit | utils/log_sanitizer.py:75-76 | as written, a limit below 3 lets any longer plain text through at more than the limit |
| LogSanitizer.AsWrittenHello | utils/log_sanitizer.py:75-76 | as written, "hello" with a limit of 2 is logged with 7 characters |
| LogSanitizer.SanitizeThreadId | utils/log_sanitizer.py:81-94 | the thread id is sanitised with limit 100: at most 100 characters, none below a space |
| LogSanitizer.SanitizeUserContent | utils/log_sanitizer.py:97-109 | user content is sanitised with limit 200: at most 200 characters, none below a space |
| LogSanitizer.SanitizeAgentName | utils/log_sanitizer.py:112-124 | the agent name is sanitised with limit 100: at most 100 characters, none below a space |
| LogSanitizer.SanitizeToolName | utils/log_sanitizer.py:127-139 | the tool name is sanitised with limit 100: at most 100 characters, none below a space |
| LogSanitizer.SanitizeFeedback | utils/log_sanitizer.py:142-154 | feedback is sanitised with limit 150: at most 150 characters, none below a space |
| GraphUtils.IsUserDictSpec | graph/utils.py:25-36 | a dict is from the user exactly when its role is user/human, or its role is empty and its name is not an assistant speaker's |
| GraphUtils.IsUserObjectSpec | graph/utils.py:38-54 | a "human" message is from the user unless named like an assistant speaker; any other message only when its role attribute or additional_kwargs role is user/human |
| GraphUtils.LatestUserIndex | graph/utils.py:57-64 | the position found is the last user message with content, and none exists when nothing is found |
| GraphUtils.LatestUserMessage | graph/utils.py:57-64 | returns the last user message with non-empty content and that content, else (None, "") |
| GraphUtils.NonEmptyItems | graph/utils.py:71 | the filter keeps only non-empty items of the input, and everything when none is empty |
| GraphUtils.NonEmptyItemsComplete | graph/utils.py:71 | no non-empty item is lost |
| GraphUtils.BuildClarifiedTopic | graph/utils.py:67-78 | the list is the non-empty items; one item is the topic itself; two or more give "head - t1, t2, …" |
| GraphUtils.BuildClarifiedTopicSpec | graph/utils.py:67-78 | the topic is "" exactly when no item is non-empty, otherwise it starts with the first item; rebuilding from the returned list gives the same result |
| GraphUtils.Collapse | graph/utils.py:103-105 | collapsing consecutive repeats never lengthens the list and empties only the empty list |
| GraphUtils.CollapseSpec | graph/utils.py:103-105 | after collapsing no two neighbours are equal, and every item comes from the input |
| GraphUtils.UserContentsTruthy | graph/utils.py:97-102 | every collected user content is non-empty |
| GraphUtils.ReconstructedHistorySpec | graph/utils.py:81-115 | every item is non-empty; with user contents the history is drawn from them without neighbouring repeats; with none and no fallback it is [stripped base topic] or [] |
| GraphUtils.ReconstructClarificationHistory | graph/utils.py:81-115 | the loop returns ReconstructedHistory |
| GraphUtils.PreserveStateMetaFields | graph/utils.py:118-140 | exactly the eight meta keys, each with the state's value or its default |
| GraphUtils.MetaDefaults | graph/utils.py:131-140 | the defaults are "en-US", "", "", [], False, 3, 0, [] |
| GraphUtils.PreserveStable | graph/utils.py:118-140 | handing the meta fields on is stable: a state updated with them yields them again |
| GraphUtils.FirstTextItem | graph/utils.py:183-185 | the item found is the first dict with type "text", and none exists when nothing is found |
| GraphUtils.ExtractSubquestionsContent | graph/utils.py:143-202 | a string is returned as is; a plan model gives its JSON or, failing that, its str(); the only failure is a content list without a text part |
| GraphUtils.ExtractFromContentList | graph/utils.py:182-185 | a multimodal content list yields the text of its first text part |
| GraphUtils.RepairStepType | graph/utils.py:231-240 | a dict question without a truthy step_type gets "research" if it needs search, else "analysis"; non-dicts and typed questions are left alone; no other key changes |
| GraphUtils.PutLookupAll | graph/utils.py:240 | setting a key changes that key only |
| GraphUtils.RepairAll | graph/utils.py:231-247 | the repair loop repairs each question in place, in order |
| GraphUtils.FirstResearch | graph/utils.py:263-267 | the question found is the first dict research question, and none exists when nothing is found |
| GraphUtils.FixedPlan | graph/utils.py:205-289 | a non-dict plan comes back unchanged, and a dict stays a dict |
| GraphUtils.RepairStepTypes | graph/utils.py:228-247 | the section-1 loop gives RepairAll |
| GraphUtils.EnforceWebSearch | graph/utils.py:249-287 | the section-2 scan gives Enforced |
| GraphUtils.ValidateAndFixSubquestions | graph/utils.py:205-289 | the method returns FixedPlan: top-level defaults, then both sections on the question list |
| GraphUtils.FixedTopSpec | graph/utils.py:220-224 | has_enough_context defaults to False, a falsy title becomes thought or "Decomposition Result", present values are kept, nothing else changes, and fixing twice changes nothing |
| GraphUtils.FixedPlanTopFields | graph/utils.py:220-224 | every field of a repaired plan except questions is the one the top-level defaults give |
| GraphUtils.RepairAllRepaired | graph/utils.py:231-247 | after section 1 every dict question has a truthy step_type |
| GraphUtils.RepairAllIdentity | graph/utils.py:231-247 | section 1 leaves repaired questions alone |
| GraphUtils.SetSearchSpec | graph/utils.py:265 | setting need_search changes nothing else |
| GraphUtils.MakeResearchSpec | graph/utils.py:271-273 | the converted first question is a research step with search |
| GraphUtils.DefaultStepSpec | graph/utils.py:280-287 | the default step is a research step with search |
| GraphUtils.EnforcedSpec | graph/utils.py:253-287 | section 2 keeps repaired questions repaired; with enforcement some dict question searches unless question 0 is not a dict and none is research; a second pass changes nothing |
| GraphUtils.FixedPlanDefaultStep | graph/utils.py:277-287 | with enforcement on and no question the plan gets exactly the default research step |
| GraphUtils.FixedPlanQuestions | graph/utils.py:205-289 | every dict question of a repaired plan has a step type, and with enforcement some dict question searches unless none could be made to |
| GraphUtils.StablePlanUnchanged | graph/utils.py:205-289 | a plan whose top fields and questions are already repaired comes back unchanged |
| GraphUtils.RepairedPlanStable | graph/utils.py:205-289 | a repaired plan's top fields and questions are in that stable form |
| GraphUtils.FixedPlanIdempotent | graph/utils.py:205-289 | repairing a repaired plan changes nothing |
| Builder.FirstUnfinished | graph/builder.py:23-24 | the position found is the first question without a (non-empty) result, none before it is unfinished, and none at all is found exactly when every question has a result |
| Builder.AgentFor | graph/builder.py:25-31 | "analysis" goes to the analyst and "processing" to the coder (in both directions); every other step type, known or not, goes to the researcher |
| Builder.ContinueToRunningResearchTeam | graph/builder.py:18-33 | the route is one of the four declared targets; it is "reporter" exactly when no question is unfinished (including no plan or no questions), and otherwise the agent of the first unfinished question's step type |
| Builder.EmptyResultIsUnfinished | graph/builder.py:24 | an empty-string result counts as unfinished, so that question is routed to its agent again |
| Builder.Successors | graph/builder.py:39-67 | every successor through a declared edge is a registered node or END |
| Builder.GraphWellFormed | graph/builder.py:36-69 | every edge joins registered nodes (or START/END), "question_decomposer" and "decomposer" run the same node function, START leads only to the coordinator and the reporter only to END |
| Builder.ResearchLoopExits | graph/builder.py:57-67 | each agent node returns to research_team, and research_team can reach END through the reporter |
| DecomposerModel.TaskTypeName | prompt/decomposer_model.py:7-10 | every task type's value is one of "research", "analysis", "processing" |
| DecomposerModel.ParseTaskTypeSpec | prompt/decomposer_model.py:7-10 | a text parses as a task type exactly when it is one of the three values, and the parsed type's value is that text |
| DecomposerModel.TaskTypeRoundTrip | prompt/decomposer_model.py:7-10 | parsing a task type's value gives that task type back |
| DecomposerModel.SubQuestion.constructor | prompt/decomposer_model.py:14-25 | a new sub-question holds exactly the given question, description, step type, search flag and result |
| DecomposerModel.ValidQuestions | prompt/decomposer_model.py:34-36 | a validated question list has one sub-question per input item |
| DecomposerModel.ValidPlanNeedsLocaleAndTitle | prompt/decomposer_model.py:29-33 | a plan dict without `locale` or without `title` is rejected (both are required fields) |
| DecomposerModel.ValidPlanFields | prompt/decomposer_model.py:29-36 | a validated plan carries the input's locale and title unchanged, and `thought` is "" and `questions` is [] only through their defaults when absent |
| DecomposerModel.ModelValidate | prompt/decomposer_model.py:29-36 | `model_validate` succeeds exactly when validation does, with the same error otherwise, and then builds fresh sub-question objects holding the validated fields |
| DecomposerModel.QuestionDumpValid | prompt/decomposer_model.py:14-25 | validating a dumped sub-question gives the same sub-question back |
| DecomposerModel.QuestionsDumpValid | prompt/decomposer_model.py:34-36 | validating a dumped question list gives the same list back |
| DecomposerModel.PlanDumpLookups | prompt/decomposer_model.py:29-36 | the dumped plan holds each field under its own key |
| DecomposerModel.PlanDumpRoundTrip | prompt/decomposer_model.py:29-36 | `model_validate(model_dump(p))` gives `p` back |
| DecomposerModel.ValidatedStepTypes | prompt/decomposer_model.py:19 | every validated sub-question's step type is one of the three values |
| ResearchTeamNode.TeamDispatchIndex | graph/nodes/research_team_node.py:42-49 | the question acted on is the first one that is unfinished and has a known step type; unfinished questions of other types are passed over, and none is found exactly when no unfinished question has a known type |
| ResearchTeamNode.ResearchTeamNode | graph/nodes/research_team_node.py:31-51 | the update is the meta fields; the route is a declared target, and "reporter" exactly when no unfinished question of a known type exists (including no plan) |
| ResearchTeamNode.DispatchIndexAgrees | graph/nodes/research_team_node.py:42-51 | when the first unfinished question has a known type, the node picks the same question as the builder's router |
| ResearchTeamNode.DispatchersAgree | graph/builder.py:23-31 | under the same condition the node and `continue_to_running_research_team` route to the same target |
| ResearchTeamNode.DispatchersDiverge | graph/builder.py:31 | when the first unfinished question has an unknown type the router sends it to the researcher while the node skips it, to a later question or to the reporter |
| ResearchTeamNode.DispatchIndexBound | graph/nodes/research_team_node.py:42-51 | the node never picks a question before the first unfinished one, and picks a strictly later one when that one's type is unknown |
| ResearchTeamNode.ValidatedPlanStepsKnown | prompt/decomposer_model.py:19 | a plan built by `model_validate` has only known step types, so the two dispatchers agree on it |
| ResearchTeamNode.ValidateWebSearchUsage | graph/nodes/research_team_node.py:53-93 | true exactly when some message is a web_search tool message, carries a web_search tool call, or is named web_search |
| ResearchTeamNode.StripTrailingSystem | graph/nodes/research_team_node.py:126-128 | the result is a prefix of the transcript that does not end in a system message, and only system messages were dropped |
| ResearchTeamNode.FallbackOutcomeSpec | graph/nodes/research_team_node.py:123-165 | an empty transcript comes back unchanged and writes nothing; otherwise the result is the transcript without trailing system messages plus one AI message named after the agent, and the sanitised text is recorded |
| ResearchTeamNode.HandleRecursionLimitFallback | graph/nodes/research_team_node.py:95-165 | returns the fallback messages or the model's error, sets the current question's result only when the fallback produced one, and changes no other field of the question |
| ResearchTeamNode.RecursionLimit | graph/nodes/research_team_node.py:259-279 | the recursion limit is always positive |
| ResearchTeamNode.RecursionLimitSpec | graph/nodes/research_team_node.py:259-279 | an unset variable gives 25, any positive number is taken as written, and an unparsable or non-positive value gives 25 |
| ResearchTeamNode.CompletedEntriesStep | graph/nodes/research_team_node.py:218-220 | each further completed question appends its own numbered entry to the briefing |
| ResearchTeamNode.DonePairs | graph/nodes/research_team_node.py:190-198 | one (question, result) pair per earlier question, in order |
| ResearchTeamNode.BuildCompletedInfo | graph/nodes/research_team_node.py:214-220 | the loop builds exactly the completed-steps briefing defined for the done questions (empty when there are none) |
| ResearchTeamNode.AgentInput | graph/nodes/research_team_node.py:222-256 | the input starts with the briefing; non-researchers get only it; the researcher's input ends with the citation reminder named "system", with the resource note in between exactly when resources were given |
| ResearchTeamNode.AgentStep | graph/nodes/research_team_node.py:168-481 | a written result always belongs to a question of the plan |
| ResearchTeamNode.AgentStepIdle | graph/nodes/research_team_node.py:173-205 | with no plan, no questions or no unfinished question, the step returns the meta fields to research_team and writes nothing |
| ResearchTeamNode.AgentStepAt | graph/nodes/research_team_node.py:189-234 | otherwise the agent runs on the briefing for the first unfinished question, listing every earlier question as completed |
| ResearchTeamNode.RecursionLimitEscapes | graph/nodes/research_team_node.py:324-354 | a recursion-limit error with the fallback off, or with a failing fallback, leaves the node as an error and writes nothing |
| ResearchTeamNode.EmptyFallbackEscapes | graph/nodes/research_team_node.py:123-124 | a recursion-limit error before any message arrived makes the node fail with an IndexError and write nothing |
| ResearchTeamNode.AgentErrorReported | graph/nodes/research_team_node.py:354-399 | another agent error is written as the question's result and sent as one message named after the agent, with the answer appended, the meta fields kept and the route research_team |
| ResearchTeamNode.CompletedStepRecorded | graph/nodes/research_team_node.py:401-481 | on success the sanitised last message is the question's result, the transcript and merged citations are stored, the answer (with any warning) is appended and the meta fields are kept |
| ResearchTeamNode.SuccessKeepsMeta | graph/nodes/research_team_node.py:466-469 | the success update keeps every meta field |
| ResearchTeamNode.ValidationInfoSpec | graph/nodes/research_team_node.py:409-429 | the warning is appended exactly when the researcher ran with enforcement and web search on and no message shows a web search; otherwise nothing is added |
| ResearchTeamNode.EmptyAnswerStaysUnfinished | graph/nodes/research_team_node.py:403-432 | an empty final answer is written as "", which leaves the question unfinished |
| ResearchTeamNode.FindCurrentStep | graph/nodes/research_team_node.py:189-198 | the scan stops at the first unfinished question (or the end when there is none) and collects every question before it |
| ResearchTeamNode.AssembleAgentInput | graph/nodes/research_team_node.py:222-256 | the messages assembled are the agent input defined above |
| ResearchTeamNode.PrepareMessages | graph/nodes/research_team_node.py:283-307 | the input is validated and then compressed when the model has a token limit |
| ResearchTeamNode.HandleAgentRun | graph/nodes/research_team_node.py:309-399 | the run is classified as a success, a recursion-limit fallback or an error; only the fallback may write the question's result, and it never changes the question's text or type |
| ResearchTeamNode.FinishStep | graph/nodes/research_team_node.py:401-481 | returns the step's result and writes the question's result exactly when the step records one |
| ResearchTeamNode.RunStep | graph/nodes/research_team_node.py:258-481 | from the briefing on, the method returns the step's result and writes exactly the result it records |
| ResearchTeamNode.ExecuteAgentStep | graph/nodes/research_team_node.py:168-481 | returns the step's command and writes the recorded result into that question; no other question's result changes, and no question's text or type changes |
| QuestionDecomposerNode.DecomposerMessages | graph/nodes/question_decomposer_node.py:50-72 | the prompt's messages come first and are kept; exactly one user message with the background results is appended, and only when the flag is set and results exist |
| QuestionDecomposerNode.ConcatAppend | graph/nodes/question_decomposer_node.py:96-98 | the text streamed in two parts is the first part's text followed by the second's |
| QuestionDecomposerNode.AccumulateStream | graph/nodes/question_decomposer_node.py:96-98 | the streaming loop builds the concatenation of every chunk's content |
| QuestionDecomposerNode.FinishedPlanReported | graph/nodes/question_decomposer_node.py:38-48 | a plan whose questions all have results goes to the reporter, with the plan kept as it is and every meta field kept |
| QuestionDecomposerNode.IterationCapReported | graph/nodes/question_decomposer_node.py:81-85 | at the iteration cap the node goes to the reporter with the meta fields only, whatever the model would have said |
| QuestionDecomposerNode.UnusableReplyRoute | graph/nodes/question_decomposer_node.py:103-133 | a reply that does not start a JSON value after cleaning, or that does not decode, goes to the reporter after the first round and to the end in the first, with the meta fields only |
| QuestionDecomposerNode.NewPlanRoute | graph/nodes/question_decomposer_node.py:135-162 | a new plan is the validated form of the fixed-up dict and carries the model's full reply; it goes to the reporter exactly when `has_enough_context` is truthy, and to human feedback otherwise |
| QuestionDecomposerNode.NewPlanFromDecodedReply | graph/nodes/question_decomposer_node.py:103-121 | a new plan comes only from a reply that looks like JSON and decodes twice into a value |
| QuestionDecomposerNode.IterationsNeverWritten | graph/nodes/question_decomposer_node.py:34-162 | no update of this node writes `decompose_iterations`: a plain update is the meta fields, with the kept plan when it is finished |
| QuestionDecomposerNode.DecomposeDone | graph/nodes/question_decomposer_node.py:38-48 | a finished plan goes to the reporter with the plan kept |
| QuestionDecomposerNode.DecomposeAtCap | graph/nodes/question_decomposer_node.py:81-85 | at the cap the node goes to the reporter with the meta fields only |
| QuestionDecomposerNode.DecomposeFromReply | graph/nodes/question_decomposer_node.py:87-162 | otherwise the outcome is decided by the model's full reply to the decomposer messages |
| QuestionDecomposerNode.ScanFinished | graph/nodes/question_decomposer_node.py:39-41 | the scan reports whether a plan with questions exists and every question has a result |
| QuestionDecomposerNode.QuestionDecomposer | graph/nodes/question_decomposer_node.py:28-162 | the node returns the command, or error, that the decomposition outcome defines, and a new plan is built from fresh sub-questions holding the validated fields |
| QuestionDecomposerNode.BuildMessages | graph/nodes/question_decomposer_node.py:50-72 | the message list built is the decomposer messages defined above |
| QuestionDecomposerNode.AskModel | graph/nodes/question_decomposer_node.py:74-98 | the reply is the basic model's answer, or the reasoning model's stream concatenated |
| QuestionDecomposerNode.PlanFromReply | graph/nodes/question_decomposer_node.py:103-162 | from the reply on, the method delivers the outcome defined for that reply |
| HumanFeedbackNode.AutoAcceptSkipsInterrupt | graph/nodes/human_feedback_node.py:23-25 | with auto-accept on, the reviewer is never asked: the outcome does not depend on the interrupt's answer and is the accepted path |
| HumanFeedbackNode.UnavailableInterruptAccepts | graph/nodes/human_feedback_node.py:26-33 | an interrupt that cannot be raised counts as the feedback "[ACCEPTED]" and leads to the accepted path |
| HumanFeedbackNode.AcceptedMarkerIsNoEdit | graph/nodes/human_feedback_node.py:42-44 | "[ACCEPTED]" is not an edit request |
| HumanFeedbackNode.EmptyFeedbackRedecomposes | graph/nodes/human_feedback_node.py:35-40 | empty or missing feedback goes back to the decomposer with only the meta fields |
| HumanFeedbackNode.EditRequestRedecomposes | graph/nodes/human_feedback_node.py:42-54 | an edit request goes back to the decomposer with exactly the meta fields and one human message named "feedback" holding the feedback |
| HumanFeedbackNode.OtherFeedbackAccepts | graph/nodes/human_feedback_node.py:42-58 | any other non-empty feedback, "no" or "reject" included, accepts the plan |
| HumanFeedbackNode.EditMarkerNormalised | graph/nodes/human_feedback_node.py:42-44 | the edit marker is recognised in any letter case and after leading whitespace |
| HumanFeedbackNode.ParseFailureRoute | graph/nodes/human_feedback_node.py:74-87 | a plan that does not parse goes to the reporter once more than one round has been counted, and to the end before that, with the meta fields only and the counter not incremented |
| HumanFeedbackNode.AcceptedPlanCounted | graph/nodes/human_feedback_node.py:57-72 | an accepted plan was parsed, fixed with both web-search flags and validated, and the counter is the state's plus one |
| HumanFeedbackNode.ParsedPlanChecked | graph/nodes/human_feedback_node.py:63-72 | a plan text that parses is checked with the counter one more than the state's |
| HumanFeedbackNode.UnparsableTextFails | graph/nodes/human_feedback_node.py:63-87 | a plan text that is not JSON at all takes the parse-failure route |
| HumanFeedbackNode.AcceptFeedbackPlan | graph/nodes/human_feedback_node.py:57-101 | the accepted path returns the command the outcome defines: the validated plan as fresh objects, the counter, the meta fields and the plan's locale when it has one, routed to research_team |
| HumanFeedbackNode.HumanFeedbackNode | graph/nodes/human_feedback_node.py:17-101 | the node delivers the outcome defined for the state, configuration and interrupt reply |
| CoordinatorNode.Texts | graph/nodes/coordinator_node.py:80-81 | the texts of an all-string list, one per item, in order |
| CoordinatorNode.NormalizeMessage | graph/nodes/coordinator_node.py:76-84 | message objects pass through unchanged |
| CoordinatorNode.NormalizeMessageSpec | graph/nodes/coordinator_node.py:77-83 | a dict message's all-string list content is joined with newlines, other non-None non-string content becomes its `str()`, and anything else is left as it is |
| CoordinatorNode.NormalizeJoinsLines | graph/nodes/coordinator_node.py:80-81 | a two-line list becomes the lines joined by one newline |
| CoordinatorNode.NormalizeAll | graph/nodes/coordinator_node.py:75-84 | one normalised message per message, in order |
| CoordinatorNode.NormalizeMessages | graph/nodes/coordinator_node.py:75-84 | the normalisation loop produces the normalised list |
| CoordinatorNode.FirstRecognised | graph/nodes/coordinator_node.py:98-114 | the call the loop stops at is the first one naming a known tool, and none is found exactly when no call names one |
| CoordinatorNode.ProcessToolCalls | graph/nodes/coordinator_node.py:96-114 | the tool-call loop reaches the decision defined by the first recognised call |
| CoordinatorNode.ModelSeesNormalisedPrompt | graph/nodes/coordinator_node.py:61-90 | the model sees the prompt (the system prompt, then the conversation in order) with the instruction last, all normalised |
| CoordinatorNode.ModelSeesTupleRepr | graph/nodes/coordinator_node.py:61-90 | as written, the model is sent the intended messages except the last, whose content is "('…',)", the tuple's `str()`; the two prompts differ, and the two nodes agree whenever the model answers both prompts alike |
| CoordinatorNode.NoToolCallEnds | graph/nodes/coordinator_node.py:92-114 | without a recognised call the run ends, the topic is kept and there is no direct reply |
| CoordinatorNode.FirstCallDecides | graph/nodes/coordinator_node.py:108-114 | later tool calls never change the decision of the first recognised one |
| CoordinatorNode.HandoffRoute | graph/nodes/coordinator_node.py:103-108 | a hand-off goes to the decomposer, or to the background investigator when that is on; a truthy `research_topic` argument replaces the topic, otherwise it is kept |
| CoordinatorNode.DirectResponseRoute | graph/nodes/coordinator_node.py:110-122 | a direct response ends the run with the topic kept; a truthy message argument becomes the last message, an AI message named "coordinator" |
| CoordinatorNode.CoordinatorUpdate | graph/nodes/coordinator_node.py:117-141 | whatever instruction is appended, the update has exactly seven keys; the route is recorded under "goto"; the locale, configured resources and citations pass through; the clarified topic is the initial topic when it is truthy, else the final topic; the conversation only grows, by at most two messages |
| CoordinatorNode.CoordinatorNode | graph/nodes/coordinator_node.py:45-141 | the node returns the command the coordination defines, with the instruction sent as written: the one-element tuple's `str()` |
| BackgroundInvestigatorNode.FormatEntry | graph/nodes/background_investigator_node.py:41-44 | formatting a hit succeeds exactly when the hit is a dict |
| BackgroundInvestigatorNode.FormatEntries | graph/nodes/background_investigator_node.py:41-57 | the comprehension succeeds exactly when every hit is a dict, and then gives one formatted entry per hit, in order |
| BackgroundInvestigatorNode.Investigate | graph/nodes/background_investigator_node.py:15-73 | a successful result has the serialised results as its only key |
| BackgroundInvestigatorNode.DisabledStoresEmptyList | graph/nodes/background_investigator_node.py:19-21 | with web search off nothing is searched and the empty list is stored |
| BackgroundInvestigatorNode.UnusableTavilyReplyIsEmpty | graph/nodes/background_investigator_node.py:34-50 | a Tavily text that does not decode, decodes to an error dict, or decodes to anything but a list is stored as the empty list |
| BackgroundInvestigatorNode.MalformedTavilyReplyIsEmpty | graph/nodes/background_investigator_node.py:58-62 | a Tavily reply that is neither text nor a list is stored as the empty list |
| BackgroundInvestigatorNode.JsonHitsFormatted | graph/nodes/background_investigator_node.py:40-44 | a JSON list of dict hits gives one "##title" entry per hit, with "Untitled" and "No content" as defaults |
| BackgroundInvestigatorNode.RawHitsFormatted | graph/nodes/background_investigator_node.py:53-57 | a list of dict hits gives one "## title" entry per hit, with "Untitled" and "" as defaults |
| BackgroundInvestigatorNode.OtherEnginePassesThrough | graph/nodes/background_investigator_node.py:64-67 | another engine's output is stored as it is, serialised |
| BackgroundInvestigatorNode.SearchesClarifiedTopic | graph/nodes/background_investigator_node.py:19-73 | with web search on, the Tavily or other search the node performs is asked about the clarified topic when truthy, else the research topic, else None; the stored result is what that search gives |
| ToolInterceptor.NewInterceptor | agents/tool_interceptor.py:23-33 | the interceptor gates the given names, and nothing when none are given |
| ToolInterceptor.UnconfiguredNeverInterrupts | agents/tool_interceptor.py:30-47 | an interceptor built with no names or an empty list never interrupts any tool |
| ToolInterceptor.FormatToolInput | agents/tool_interceptor.py:49-77 | None shows as "No input", a string as itself, a dict or list as its indented JSON (its `str()` when that fails), and anything else as its `str()` |
| ToolInterceptor.AnyKeyword | agents/tool_interceptor.py:201-203 | true exactly when some keyword occurs in the text |
| ToolInterceptor.ParseApproval | agents/tool_interceptor.py:171-209 | falsy feedback rejects; text feedback approves exactly when its stripped lower-case form contains an approval keyword; other truthy feedback has no `lower` and raises |
| ToolInterceptor.NegatedOkayApproves | agents/tool_interceptor.py:185-203 | "not okay" approves, since keywords are matched as substrings |
| ToolInterceptor.RefusalToProceedApproves | agents/tool_interceptor.py:185-203 | "do not proceed" approves as well |
| ToolInterceptor.PlainRefusalRejects | agents/tool_interceptor.py:181-183 | empty and missing feedback reject |
| ToolInterceptor.UngatedRunsOriginal | agents/tool_interceptor.py:108-153 | a call to a tool that is not gated behaves exactly like the original function |
| ToolInterceptor.RejectedCallSkipsOriginal | agents/tool_interceptor.py:136-142 | an unapproved gated call returns the rejection dict and never runs the original |
| ToolInterceptor.ApprovedCallRunsOriginal | agents/tool_interceptor.py:144-156 | an approved gated call returns the original's result or raises its error |
| ToolInterceptor.InterruptErrorEscapes | agents/tool_interceptor.py:120-128 | a failing interrupt raises out of the call |
| ToolInterceptor.Tool.constructor | agents/tool_interceptor.py:80-92 | a new tool holds the given name, function and `_run` |
| ToolInterceptor.Wrapped | agents/tool_interceptor.py:158-167 | a function wrapped at least once is gated by the given interceptor |
| ToolInterceptor.WrapTool | agents/tool_interceptor.py:79-169 | a tool with a function gets the gated function, and its `_run` replaced by it when it has one; a tool without a function is left unchanged; the name never changes |
| ToolInterceptor.WrapTools | agents/tool_interceptor.py:212-245 | the same tool objects come back; with no names none changes, and otherwise each one's function and `_run` are gated once per occurrence in the list |
| SearchPostprocessor.CleanImageUrl | tools/search_postprocessor.py:131-149 | an image is dropped only when its url holds a data URI and the scrubbed url is empty or does not start with "http" |
| SearchPostprocessor.Clean | tools/search_postprocessor.py:41-72 | the kept results are never more than the inputs |
| SearchPostprocessor.CleanIsReference | tools/search_postprocessor.py:41-72 | the loop with its shared seen-URL set keeps exactly the results the reference definition keeps, and the set ends holding every truthy key, including keys of dropped results |
| SearchPostprocessor.CleanLast | tools/search_postprocessor.py:44-72 | each result is handled after all earlier ones, with the seen set they left |
| SearchPostprocessor.TruthyKeysContains | tools/search_postprocessor.py:201-213 | every truthy key of a result ends up in the seen set |
| SearchPostprocessor.DuplicateNotAdmitted | tools/search_postprocessor.py:201-213 | a later result with the same truthy URL as an earlier one is never admitted: the first one wins |
| SearchPostprocessor.InsertMultiset | tools/search_postprocessor.py:75-77 | inserting adds exactly that result and loses nothing |
| SearchPostprocessor.InsertSorted | tools/search_postprocessor.py:75-77 | inserting into a descending list keeps it descending |
| SearchPostprocessor.InsertStable | tools/search_postprocessor.py:75-77 | inserting places the result after every earlier result with the same score |
| SearchPostprocessor.NoneWithScore | tools/search_postprocessor.py:75-77 | a descending list headed below a score holds nothing with that score |
| SearchPostprocessor.WithScoreAppend | tools/search_postprocessor.py:75-77 | appending a result adds it to its score's group, at the end |
| SearchPostprocessor.SortByScoreCorrect | tools/search_postprocessor.py:75-77 | the sort is descending by score, a permutation of its input, and stable within each score |
| SearchPostprocessor.ProcessResults | tools/search_postprocessor.py:27-82 | `process_results` returns the kept results sorted by score |
| SearchPostprocessor.ProcessedResults | tools/search_postprocessor.py:27-82 | empty input gives []; otherwise the output is no longer than the input, descending, a permutation of the kept results, and in input order within each score |
| SearchPostprocessor.LowScorePageBlocksDuplicate | tools/search_postprocessor.py:44-58 | a low-scoring page is dropped, yet its URL still suppresses a later result with the same URL |
| SearchPostprocessor.BadDataUriImageDropped | tools/search_postprocessor.py:136-145 | an image whose data-URI url scrubs to text not starting with "http" is dropped |
| SearchPostprocessor.Cut | tools/search_postprocessor.py:180-194 | a cut text is at most the limit plus three characters long |
| SearchPostprocessor.TruncateFieldValue | tools/search_postprocessor.py:178-194 | a text field is replaced by its cut form |
| SearchPostprocessor.TruncateFieldOther | tools/search_postprocessor.py:175-199 | truncating one field leaves every other field as it was |
| SearchPostprocessor.TruncationBounds | tools/search_postprocessor.py:172-199 | content is cut at the limit and raw content at twice the limit, each followed by "..." |
| SearchPostprocessor.PageFinished | tools/search_postprocessor.py:50-72 | a page that is not filtered out is scrubbed and then truncated |
| InfoQuestSearchApi.RequestParams | tools/infoquest_search/infoquest_search_api.py:75-85 | the body always holds the format and the query, the time range only when positive, and the site only when non-empty |
| InfoQuestSearchApi.RawResults | tools/infoquest_search/infoquest_search_api.py:51-105 | the call succeeds exactly when the request does and the reply has a "search_result" key |
| InfoQuestSearchApi.Fold | tools/infoquest_search/infoquest_search_api.py:169-221 | never more entries are kept than candidates are given |
| InfoQuestSearchApi.FoldProperties | tools/infoquest_search/infoquest_search_api.py:188-221 | every kept URL is a non-empty string not seen before and is recorded; kept URLs are pairwise distinct; the seen set only grows |
| InfoQuestSearchApi.FoldAppend | tools/infoquest_search/infoquest_search_api.py:172-221 | folding a concatenation folds the second part with the URLs the first part left |
| InfoQuestSearchApi.FoldIsFirstWins | tools/infoquest_search/infoquest_search_api.py:169-221 | the deduplication keeps exactly the first candidate with each valid URL, and records exactly the valid URLs |
| InfoQuestSearchApi.Count | tools/infoquest_search/infoquest_search_api.py:171 | a category's count never exceeds the number kept |
| InfoQuestSearchApi.CountsTotal | tools/infoquest_search/infoquest_search_api.py:171-221 | the pages, news and image counts add up to the number of results |
| InfoQuestSearchApi.CountAppend | tools/infoquest_search/infoquest_search_api.py:171-221 | counts add over a concatenation |
| InfoQuestSearchApi.CountsOfAppend | tools/infoquest_search/infoquest_search_api.py:171-221 | the three counts add over a concatenation |
| InfoQuestSearchApi.AdmitAll | tools/infoquest_search/infoquest_search_api.py:176-221 | one inner loop records the URLs, appends the entries and adds the counts that the deduplication of its candidates defines |
| InfoQuestSearchApi.FoldAppendViews | tools/infoquest_search/infoquest_search_api.py:172-221 | the seen set, entries and counts of a fold split over a concatenation |
| InfoQuestSearchApi.CleanResultsWithImages | tools/infoquest_search/infoquest_search_api.py:163-231 | the method returns the entries and counts of the deduplication over all candidates, organic then news then images per block |
| InfoQuestSearchApi.CleanedResultsProperties | tools/infoquest_search/infoquest_search_api.py:163-231 | the cleaned results are the first occurrence of each valid URL across all categories, with distinct non-empty URLs and counts adding up to their number |
| Llm.FirstKeyIn | llms/llm.py:290-293 | the position found is the first table key contained in the name, and none is found exactly when no key is contained |
| Llm.InferTokenLimit | llms/llm.py:273-296 | an empty name gives the default 100000, and every inferred limit lies between 4000 and 200000 |
| Llm.TableLimitBounds | llms/llm.py:241-270 | every limit in the defaults table lies between 4000 and 200000 |
| Llm.InferUsesFirstKey | llms/llm.py:287-293 | a non-empty name takes the limit of the first key, in table order, that occurs in its lower-case form |
| Llm.InferWithoutKey | llms/llm.py:295-296 | a name containing no key gets the default |
| Llm.MiniModelHitsFirstKey | llms/llm.py:249-251 | "gpt-4o-mini" gets 120000 from "gpt-4o", which is listed before "gpt-4" |
| Llm.PlainGpt4Limit | llms/llm.py:249-251 | plain "gpt-4" skips the two longer keys before it and gets 8000 |
| Llm.ConfigKey | llms/llm.py:75-82 | exactly the four known types have a configuration section name |
| Llm.TokenLimitByType | llms/llm.py:299-335 | a returned limit is never None; a failure only comes from a section that is not a dict or a truthy model name that is not text |
| Llm.ConfiguredLimitFirst | llms/llm.py:322-326 | a configured token_limit that is not None is returned as it is |
| Llm.InferredFromModel | llms/llm.py:328-332 | otherwise a non-empty model name gives the inferred limit |
| Llm.DefaultWithoutModel | llms/llm.py:334-335 | without a limit or a model name the default 100000 applies |
| Llm.UnknownTypeGetsDefault | llms/llm.py:316-335 | an unknown type, or one without a section, gets the default |
| Llm.EnvLlmConf | llms/llm.py:85-97 | the loop over the environment builds the prefixed configuration, in iteration order |
| Llm.EnvConfWellFormed | llms/llm.py:92-97 | the environment configuration has no repeated key |
| Llm.EnvConfHas | llms/llm.py:93-96 | a key is configured exactly when some variable with the prefix names it in lower case |
| Llm.EnvConfLastWins | llms/llm.py:93-96 | a configured key holds the value of the last variable that names it |
| Llm.MergeLookup | llms/llm.py:116 | in the merged configuration the environment takes precedence, and keys only in the YAML section keep their value |
| Llm.KeepAllowed | llms/llm.py:120-128 | the filter never adds entries |
| Llm.KeepAllowedLookup | llms/llm.py:120-128 | allowed keys keep their value and every other key is gone |
| Llm.UnexpectedMembers | llms/llm.py:121 | a key is listed as unexpected exactly when it is present and not allowed |
| Llm.WithoutUnexpected | llms/llm.py:122-123 | popping exactly the disallowed keys keeps the allowed entries |
| Llm.DropUnexpected | llms/llm.py:120-128 | the list-then-pop loop leaves exactly the allowed entries |
| Llm.FilteredLookup | llms/llm.py:108-128 | after merging and filtering, an allowed key is read from the environment first and then from the YAML section; other keys are gone |
| Llm.PreparedLookup | llms/llm.py:131-149 | the preparation touches only its own keys: max_retries defaults to 3 and verify_ssl is removed |
| Llm.GeminiConfLookup | llms/llm.py:155-171 | for Google AI Studio api_key moves to google_api_key, base_url, platform and the HTTP clients are dropped, and the rest is kept |
| Llm.Configure | llms/llm.py:131-188 | the "no configuration" error is raised exactly when nothing but token_limit is configured |
| Llm.ConfiguredArguments | llms/llm.py:131-149 | the constructor arguments never carry token_limit or verify_ssl, and always carry max_retries: the configured value, else 3 |
| Llm.ChooseKeeps | llms/llm.py:151-188 | no provider branch changes token_limit, verify_ssl or max_retries |
| Llm.GooglePlatformWins | llms/llm.py:151-171 | a Google AI Studio platform, in any letter case, wins over every other provider |
| Llm.AzureBeforeDashscope | llms/llm.py:173-174 | otherwise an Azure endpoint wins, whatever the base URL |
| Llm.DashscopeThinking | llms/llm.py:176-182 | a Dashscope base URL turns thinking on exactly for the reasoning type |
| Llm.ReasoningMovesBaseUrl | llms/llm.py:184-186 | the reasoning type otherwise goes to DeepSeek, with its base URL moved to api_base |
| Llm.OtherTypesUseOpenAI | llms/llm.py:187-188 | any other type gets OpenAI with the arguments unchanged |
| Llm.CreateSpec | llms/llm.py:100-110 | an unknown type is an error |
| Llm.CreateLlmUseConf | llms/llm.py:100-188 | the method with its two loops builds the model that the definition gives |
| Llm.LlmCache.constructor | llms/llm.py:22 | the cache starts empty |
| Llm.LlmCache.GetLlmByType | llms/llm.py:191-201 | a cached type returns its model and reads nothing; otherwise the model is created and, when creation succeeds, stored; the cache stays consistent with the configuration |
| ConfigLoader.BoolEnvUnset | config/loader.py:7-9 | an unset variable gives the default |
| ConfigLoader.BoolEnvSetIgnoresDefault | config/loader.py:10 | a set variable decides alone: the default no longer matters |
| ConfigLoader.BoolEnvIgnoresSpace | config/loader.py:10 | surrounding whitespace does not change the reading |
| ConfigLoader.BoolEnvYes | config/loader.py:10 | "Yes" is read as true |
| ConfigLoader.BoolEnvOfPlainWord | config/loader.py:10 | a trimmed lower-case word is true exactly when it is one of "1", "yes", "on", "true", "y" |
| ConfigLoader.GetStrEnv | config/loader.py:12-15 | a set variable comes back without surrounding whitespace; an unset one gives the default |
| ConfigLoader.StrEnvStable | config/loader.py:12-15 | storing what was read and reading it again gives the same text |
| ConfigLoader.IntEnvDefault | config/loader.py:17-26 | an unset or unparsable variable gives the default |
| ConfigLoader.IntEnvNumeral | config/loader.py:22-23 | a decimal numeral is read as its value |
| ConfigLoader.IntEnvGrouped | config/loader.py:22-23 | any numeral, including digit groups joined by single underscores, is read as its value |
| Strings.ParseIntGrouped | config/loader.py:23 | `int` reads "1_000" as 1000 |
| Strings.ParseIntDoubledUnderscore | config/loader.py:23 | `int` rejects a doubled underscore, so the default is used |
| Strings.ParseIntOfNegated | config/loader.py:23 | a minus sign before a numeral gives the negated value |
| ConfigLoader.ReplaceEnvVars | config/loader.py:29-36 | only strings change, and only those starting with "$" |
| ConfigLoader.ReferenceToSetVariable | config/loader.py:33-35 | "$NAME" gives the value of a set variable |
| ConfigLoader.ReferenceToUnsetVariable | config/loader.py:33-35 | "$NAME" gives NAME itself when the variable is unset |
| ConfigLoader.ProcessValue | config/loader.py:44-50 | dicts keep their keys and are processed recursively, and anything that is neither a dict nor a string is kept |
| ConfigLoader.ProcessConfig | config/loader.py:39-52 | a falsy document gives {}; a processed dict has the same keys as the input |
| ConfigLoader.ProcessedLookup | config/loader.py:44-50 | each key of the result holds the processed value of the same key |
| ConfigLoader.NoReferencesUnchanged | config/loader.py:29-52 | a document without "$" references comes back unchanged |
| ConfigLoader.ProcessDict | config/loader.py:39-52 | the loop that fills a fresh dict, recursing into nested dicts, computes the processed configuration |
| ConfigLoader.ConfigCache.constructor | config/loader.py:54 | the cache starts empty |
| ConfigLoader.ConfigCache.LoadYamlConfig | config/loader.py:56-68 | a missing file gives {} and leaves the cache alone; a cached path returns its entry; otherwise the processed document is returned and, when processing succeeds, stored; the cache stays consistent with the files |
| Milvus.TopK | rag/milvus.py:80-81 | a setting that is not all digits gives 10 |
| Milvus.TopKOfNumeral | rag/milvus.py:80-81 | a decimal numeral is read as its value |
| Milvus.TopKUnsetIsTen | rag/milvus.py:80-81 | an unset MILVUS_TOP_K gives 10 |
| Milvus.EmbeddingDimension | rag/milvus.py:129-142 | the dimension is always positive: a positive MILVUS_EMBEDDING_DIM wins, otherwise 2048 for text-embedding-v4 and 1536 for every other model |
| Milvus.MilvusLiteIffNoScheme | rag/milvus.py:403-411 | a URI without "://" is a Lite file, and one with a scheme is a Lite file exactly when it ends in ".db" |
| Milvus.TitleCase | rag/milvus.py:290 | title-casing keeps the length and every character that is not a letter |
| Milvus.FirstHeading | rag/milvus.py:283-287 | the line found is the first that is a level-1 heading once stripped, and none is found exactly when no line is |
| Milvus.TitleFromFirstHeading | rag/milvus.py:281-288 | the first heading gives the title: its text after "# ", stripped |
| Milvus.TitleFromFilename | rag/milvus.py:289-290 | without a heading the title is the file name without ".md", underscores made spaces, title-cased, so it holds no underscore |
| Milvus.SplitContent | rag/milvus.py:292-312 | the paragraph loop builds exactly the chunk list the definition gives |
| Milvus.StripDropsBlankLine | rag/milvus.py:309-310 | stripping text that ends in a blank line removes at least those two characters |
| Milvus.SplitStateBounds | rag/milvus.py:300-307 | while splitting, each flushed chunk and the pending chunk fit the bound, the pending chunk ends in a blank line, and fewer chunks than paragraphs have been flushed |
| Milvus.ChunksBounded | rag/milvus.py:292-312 | content within the limit is one chunk; otherwise every chunk fits the limit unless a single paragraph is longer, and there are never more chunks than paragraphs |
| Milvus.ChunkIds | rag/milvus.py:250 | one id per chunk |
| Milvus.ChunkIdsDistinct | rag/milvus.py:250 | the chunk ids of one file never collide |
| Milvus.ReplaceUnsafe | rag/milvus.py:807 | every character other than a word character, "." or "-" becomes "_", and the length is kept |
| Milvus.CollapseUnderscores | rag/milvus.py:810 | collapsing adds no character |
| Milvus.CollapsedHasNoDoubleUnderscore | rag/milvus.py:810 | after collapsing no two underscores are adjacent |
| Milvus.StripEdges | rag/milvus.py:813 | stripping adds no character and leaves no "_" or "." at either end |
| Milvus.LastDot | rag/milvus.py:822 | the position found is the last ".", and none is found exactly when there is no "." |
| Milvus.SanitizedSafe | rag/milvus.py:792-830 | every character of a sanitised name is a word character, "." or "-", so no path separator survives |
| Milvus.SanitizedFits | rag/milvus.py:815-830 | with a limit of at least eleven the name is non-empty and fits the limit |
| Milvus.ShortNameNotCut | rag/milvus.py:820 | a cleaned name within the limit is not cut |
| Milvus.DocInResources | rag/milvus.py:609-616 | the loop over the resources finds a match exactly when some resource URI contains the non-empty url or the document id |
| Milvus.KeepHit | rag/milvus.py:608-618 | a hit is kept when no resources are given, and otherwise exactly when it matches one |
| Milvus.IndexOfId | rag/milvus.py:621 | the position recorded for an id is a group with that id, and none exactly when no group has it |
| Milvus.AddHitIndex | rag/milvus.py:621-628 | adding a hit keeps every recorded position and records a new id at the end |
| Milvus.GroupedIds | rag/milvus.py:597-630 | the grouped documents have distinct ids, and an id is grouped exactly when some kept hit carries it |
| Milvus.KeptHits | rag/milvus.py:608-618 | the filter never adds hits |
| Milvus.GroupedChunkCount | rag/milvus.py:621-628 | every kept hit becomes exactly one chunk |
| Milvus.NoResourcesKeepsAll | rag/milvus.py:572 | without resources no hit is filtered out |
| Milvus.IndexAfterKnown | rag/milvus.py:621 | after a hit of a known id every recorded position stays |
| Milvus.IndexAfterNew | rag/milvus.py:621-624 | after the first hit of an id, that id is recorded at the end |
| Milvus.AppendChunk | rag/milvus.py:627-628 | a hit of a known id has its chunk appended to that document's own list, and no other list changes |
| Milvus.AddDocument | rag/milvus.py:621-624 | the first hit of an id creates a new document with a fresh chunk list holding its chunk |
| Milvus.AddHitTo | rag/milvus.py:620-628 | one kept hit updates the documents as the grouping defines; the documents so far stay in place, chunk lists stay distinct and new ones are fresh |
| Milvus.GroupHits | rag/milvus.py:597-630 | the grouping loop builds one fresh document per kept id, each with its own fresh chunk list, holding the grouping the definition gives |
| Qdrant.ScrolledUpToFirstStop | rag/qdrant.py:223-237 | when page k is the first without a next offset, the result is pages 0..k in order |
| Qdrant.NoOffsetEndsScroll | rag/qdrant.py:232-237 | a reply without a next offset ends the scroll: later replies are never read |
| Qdrant.ScrollAllPoints | rag/qdrant.py:213-239 | the scroll loop returns the points of the replies up to the first that stops |
| Qdrant.ExistingDocumentIds | rag/qdrant.py:241-250 | a failed scroll gives no ids; otherwise every point with a payload contributes its doc_id (or its own id) and every id comes from such a point |
| Qdrant.PayloadlessPointIgnored | rag/qdrant.py:244-247 | a point without a payload adds no id |
| Qdrant.PointIdStandsIn | rag/qdrant.py:245 | a point with a payload but no doc_id stands for its own id |
| Qdrant.QueryResourcesDistinct | rag/qdrant.py:306-318 | the query branch lists no URI twice |
| Qdrant.QueryResourcesCover | rag/qdrant.py:306-318 | every hit's URI is listed: its url when non-empty, else "qdrant://" followed by its id |
| Qdrant.QueryResourcesFromHits | rag/qdrant.py:306-318 | every listed resource is the stored form of one of the hits: that hit's non-empty url (else "qdrant://" + id) as URI, its non-empty title (else its id, else "Unnamed") as title, "Stored Qdrant document" as description |
| Qdrant.IsListed | rag/qdrant.py:309 | the check is true exactly when some listed resource has the URI |
| Qdrant.ListQueryResources | rag/qdrant.py:302-318 | the query-branch loop builds the deduplicated resource list the definition gives |
| Qdrant.PointResource | rag/qdrant.py:331-343 | a scroll-branch resource has the payload's non-empty url as URI, else "qdrant://" followed by the document id; the payload's non-empty title, else the document id, as title (so a non-empty title unless that id is empty); and the fixed description |
| Qdrant.HitOf | rag/qdrant.py:405-411 | a hit carries the result's score and the payload's content, title and url (default ""), and its document id is the payload's doc_id, falling back to the point id as text |
| Qdrant.QueryRelevantDocuments | rag/qdrant.py:387-428 | the hits are grouped into fresh documents with fresh, distinct chunk lists, as for Milvus |
| Retriever.ChunkList.constructor | rag/retriever.py:26 | a new list is empty |
| Retriever.ChunkList.Append | rag/retriever.py:26 | appending adds the chunk at the end |
| Retriever.Document.constructor | rag/retriever.py:28-38 | the given list is stored, not copied |
| Retriever.NewDocument | rag/retriever.py:28-38 | a document built without chunks receives the one shared default list |
| Retriever.DefaultChunksShared | rag/retriever.py:33 | two documents built without chunks alias one list: a chunk appended through the first shows in the second |
| Retriever.DocumentDictFields | rag/retriever.py:40-50 | the dict holds the id and the chunk contents joined by blank lines, and holds url and title exactly when they are non-empty, each with its own value |
| Retriever.SingleChunkContent | rag/retriever.py:43 | a single chunk's content is the whole content |
| Retriever.NewResource | rag/retriever.py:52-60 | a resource holds the given uri and title, with description "" by default |
| Retriever.IngestFile | rag/retriever.py:107-154 | the base `ingest_file` always raises NotImplementedError |
| Crawler.TrimSurrogates | crawler/crawler.py:47-48 | the result is the longest prefix that does not end in a surrogate: only surrogates are dropped |
| Crawler.SafeTruncate | crawler/crawler.py:17-49 | the truncation loop returns what the definition gives |
| Crawler.SafeTruncatedCases | crawler/crawler.py:28-49 | text within the limit comes back unchanged; a limit below 3 gives a prefix of "..."; otherwise the fallback stays within the limit, ends in "...", keeps a prefix of the text and does not end that prefix in a surrogate |
| Crawler.SafeTruncatedNoSurrogates | crawler/crawler.py:45-49 | surrogate-free input gives surrogate-free output |
| Crawler.BlankIsNotHtml | crawler/crawler.py:59-60 | empty or blank content is never HTML |
| Crawler.NoAngleIsNotHtml | crawler/crawler.py:52-134 | content without any "<" is never HTML |
| Crawler.LeadingTagIsHtml | crawler/crawler.py:77-97 | content whose trimmed text starts with one of the leading tags, in any case, is HTML |
| Crawler.CommentIsHtml | crawler/crawler.py:65-66 | a trimmed comment opening that is closed later is HTML |
| Crawler.SelectCrawlerTool | crawler/crawler.py:197-228 | a missing engine selects Jina; "infoquest" selects InfoQuest with the three configured timeouts; any other engine is an unsupported-engine error naming it; comparing a timeout that is not a number with 0 raises |
| Crawler.InfoQuestDefaults | crawler/crawler.py:208-210 | without timeout settings every InfoQuest timeout is -1 |
| Crawler.Crawl | crawler/crawler.py:138-195 | every article returned is fresh and has its url set to the crawled url; it is the article the crawl outcome defines, and every error of the outcome is raised |
| Crawler.FallbackRawBounded | crawler/crawler.py:176 | without `textwrap.shorten` the raw content embedded in a fallback article has at most 500 characters: the whole body, or its first 497 and "..." |
| Crawler.FallbackArticlesAreParagraphs | crawler/crawler.py:160-195 | every article the crawler builds itself holds one HTML paragraph; only an extracted article is passed on as extracted |
| Crawler.PlainTextIsNonHtml | crawler/crawler.py:171-179 | a non-blank body without any "<" becomes the "Non-HTML Content" article and is never given to the extractor |
| Crawler.NonHtmlArticle | crawler/crawler.py:171-179 | any non-blank body that is not HTML becomes the "Non-HTML Content" article |
| InfoQuestClient.Positive | crawler/infoquest_client.py:141 | the test `v > 0` holds for a positive number or for True, and raises for anything but a number or a bool |
| InfoQuestClient.AnyPositiveMeaning | crawler/crawler.py:213 | the logging test is false exactly when every timeout compares and none is positive, and true only when one is positive |
| InfoQuestClient.NormalizedFormatMeaning | crawler/infoquest_client.py:131-135 | the format sent is "HTML" exactly when the requested one is "html" in any case; any other format is sent unchanged |
| InfoQuestClient.AddTimeout | crawler/infoquest_client.py:141-146 | a timeout is stored exactly when it is positive, and comparing a non-number raises |
| InfoQuestClient.Update | crawler/infoquest_client.py:149-151 | merging parameters whose keys are new appends them in order |
| InfoQuestClient.Client.constructor | crawler/infoquest_client.py:22-31 | the client keeps the three timeouts it is given |
| InfoQuestClient.Client.PrepareRequestData | crawler/infoquest_client.py:129-153 | the request body is built, or raises exactly when some timeout cannot be compared with 0 |
| InfoQuestClient.RequestDataKeys | crawler/infoquest_client.py:137-151 | the keys sent are url, format, then the positive timeouts in order |
| InfoQuestClient.RequestDataLookups | crawler/infoquest_client.py:129-153 | the body always carries the url and the normalised format, carries each timeout exactly when it is positive, and repeats no key |
| InfoQuestClient.OptionalKeysDistinct | crawler/infoquest_client.py:137-151 | whichever timeouts are sent, no key appears twice |
| InfoQuestClient.PrepareHeaders | crawler/infoquest_client.py:112-127 | the JSON content type always comes first; the bearer token is added exactly when INFOQUEST_API_KEY is set and non-empty |
| InfoQuestClient.ErrorText | crawler/infoquest_client.py:73 | in-band errors are "Error: " followed by the message |
| InfoQuestClient.CrawlReply | crawler/infoquest_client.py:45-110 | a failed request, a non-200 status and a blank body each give their "Error: " text; a body that is not JSON comes back as is |
| InfoQuestClient.DictReplyFields | crawler/infoquest_client.py:81-94 | "reader_result" wins whatever else the JSON holds; without it "content" is used; with neither the raw text comes back |
| InfoQuestClient.FailuresAreErrorText | crawler/infoquest_client.py:62-110 | every failure is reported in-band as text starting with "Error: ", never raised |
| CrawlArticle.MessageOf | crawler/article.py:29-53 | a message that is built always has at least one entry |
| CrawlArticle.Article.constructor | crawler/article.py:13-15 | the article keeps the title and HTML it is given and has no url yet |
| CrawlArticle.Article.ToMessage | crawler/article.py:29-53 | the loop over the split builds the message the definition gives |
| CrawlArticle.KeptPartsErrSticks | crawler/article.py:40-43 | once an image link fails for want of a url, the whole message fails with that error |
| CrawlArticle.TitledMarkdownNotBlank | crawler/article.py:19-20 | the titled markdown is never blank, so the "No content available" shortcut of `to_message` is never taken |
| CrawlArticle.MarkdownOfBlankHtml | crawler/article.py:17-27 | missing or blank HTML becomes the "*No content available*" placeholder, after the title heading when asked |
| CrawlArticle.KeptPartsShape | crawler/article.py:38-47 | with the url set the split never fails, gives one image per odd piece and only stripped, non-empty text entries |
| CrawlArticle.KeptPartsWithoutUrl | crawler/article.py:41-42 | without a url the message fails exactly when the split found an image link |
| CrawlTool.FalsyUrlIsNotPdf | tools/crawl.py:19-20 | a missing or empty url is never a PDF |
| CrawlTool.QueryAndFragmentIgnored | tools/crawl.py:17-23 | a query or fragment after the path does not change whether the url is a PDF |
| CrawlTool.CompressCrawlContent | tools/crawl.py:54-60 | the compressed content is a prefix of the titled markdown of at most 1000 characters, and the whole markdown when it fits |
| CrawlTool.PdfUrlSkipsCrawl | tools/crawl.py:33-41 | a PDF url is answered without crawling, whatever the crawl would give |
| CrawlTool.PdfReplyFields | tools/crawl.py:35-40 | the PDF reply names the url, has null content, is marked as a PDF and carries the error text |
| CrawlTool.CrawledReplyShape | tools/crawl.py:43-47 | a crawled page is answered with JSON naming the url and at most 1000 characters of markdown, starting with the title heading when that fits |
| CrawlTool.FailedCrawlIsPlain | tools/crawl.py:48-51 | a failed crawl is answered with plain text naming the error, never JSON |

## Left out

- Network, database, model and file I/O are left out. The HTTP calls, the vector-store clients (connect, insert, search, embeddings), the LLM constructors and reading `conf.yaml` appear only through their results, which are parameters.
- `researcher_node` and the agent construction in `_setup_and_execute_agent_step` (graph/nodes/research_team_node.py) are not modelled: they choose tools and build a LangChain agent. The step executor receives the agent run's outcome as a parameter.
- `get_configured_llm_models` in llms/llm.py is not modelled. It lists the configured model name of each type, for display, from the same merged configuration that `Llm.MergeLookup` covers.
- Async execution, streaming and `interrupt()` suspension are not modelled. Each node is one call whose interrupt reply or model output is an input.
- How LangGraph merges a node's update into the state (the message-appending reducer) is framework behaviour. Each node's `(goto, update)` is modelled, not the merge.
- GraphTypes.GetText: a state value that is present but is not text reads as the default. In the source it would be passed on as it is and fail later.
- Strings.Lower and Strings.Upper fold ASCII letters only. The same holds for the case-insensitive regular expressions (Python also folds other letters, such as U+017F).
- `str.title`, `\w` and `str.isdigit` are modelled on ASCII. Unicode letters and digits beyond ASCII are not recognised.
- Milvus.SanitizedFits: the length bound is proved for limits of at least 11. Smaller limits, which the code never passes, are not covered.
- CrawlTool.QueryAndFragmentIgnored: `urlparse` is modelled for the path only. For a bracketed authority, only the balance test is modelled. The validation of the address inside the brackets and the NFKC check of the authority are not modelled.
- Crawler.SafeTruncate works on code points, where a surrogate can occur. Dafny strings cannot hold one, so `SafeTruncateText` applies it to strings of scalar values.
- The readability extractor and the Jina client are not modelled. The extracted article and the fetched body are parameters.
- Crawler.Crawl does not tell apart the kinds of exception a fetch or extraction raises. Each is a message string.
- ContextManagement.ValidateMessageContent returns the validated messages instead of assigning `content` on shared message objects. Messages are values in this model, so aliasing between callers is not captured.
- CitationCollection.CrawlResultSpec does not model the `**extra_metadata` keyword fields of `add_from_crawl_result` (citations/collector.py:75, 105). A new record is built from the URL, title and content alone. No caller in the repository passes extra fields.
- CitationCollection.CrawlResult drops the same keyword fields. Records are values here, so an update to a known URL is not seen by a second collector that took the same record object in `merge_with` (citations/collector.py:234).
- CitationCollection.Collector.AddFromCrawlResult changes only this collector's own records. The in-place update of a record shared with another collector through `merge_with` is not captured, and `**extra_metadata` is dropped.
- ConfigLoader.ConfigCache.LoadYamlConfig returns the cached configuration as a value. The source returns the cached dict object itself (config/loader.py:63-64), so a caller that mutates it also mutates the cache; that aliasing is not captured.
- SearchPostprocessor.ProcessResults does not model the TypeError of malformed results. A page whose `content` or `raw_content` is present but not text (Tavily's `raw_content: None`, for one) raises in `re.sub` or `len` (tools/search_postprocessor.py:104, 116, 180, 191). A None or text `score` raises at the threshold comparison (line 55) or in the sort (line 76). The model keeps such a field as it is and reads such a score as 0.
- SearchPostprocessor.Score reads a `score` that is present but not a number as 0.0. The source raises TypeError when it compares such a score.
- SearchPostprocessor.ScrubField keeps a field that is present but not text. The source raises TypeError in `re.sub`.
- SearchPostprocessor.TruncateField keeps a field that is present but not text. The source raises TypeError in `len`.
- CitationModels.FromSearchResult does not model pydantic's validation. A present `url` or `title` that is not text, a None or non-numeric `score`, or a `raw_content`, `content` or `description` of another type raises ValidationError in the source (citations/models.py:20-26, 39, 101-109). The model reads such a url as "", such a title as "Untitled", such a score as 0.0 and such a text field as None.
- ConfigLoader.IntEnvDefault: `int` also reads decimal digits outside ASCII, such as Arabic-Indic digits. The model treats them as unparsable, so the default is used. Underscore-grouped numerals are read as `int` reads them.
- ConfigLoader.GetIntEnv reads ASCII digits only, for the same reason.
- Strings.ParseInt reads ASCII digits only. Python's `int` also reads the other Unicode decimal digits.
- CoordinatorNode.ModelSeesNormalisedPrompt states the prompt of the corrected node, whose instruction is the notice text. The prompt the source sends, with the tuple's `str()` as the instruction, is stated by CoordinatorNode.ModelSeesTupleRepr (see "## Findings").
- InfoQuestSearchApi.CleanResultsWithImages works on replies already shaped as typed entries. The source indexes the reply's keys directly (`content`, `results`, `title`, `url`, `desc`, `items`, `time_frame`, `source`, `alt`; tools/infoquest_search/infoquest_search_api.py:174-216), so a reply lacking one raises KeyError and the tool reports a failed search. That error path is not modelled.
- Qdrant.ExistingDocumentIds reads a `doc_id` that is present but not text (an int, None) as `str(point.id)`. The source keeps the value itself in the id set (rag/qdrant.py:243-247).
- Qdrant.QueryResourcesFromHits reads a truthy `url`, `title` or `id` that is not text as its default. In the source such a value reaches `Resource`, whose ValidationError makes `list_resources` return the local example files instead (rag/qdrant.py:307-317, 348-352).
- Qdrant.PointResource reads a truthy `url`, `title` or `doc_id` that is not text as its default. The source passes it to `Resource` and falls back to the local example files on the ValidationError (rag/qdrant.py:333-341, 348-352).
- Qdrant.HitOf reads a `doc_id`, `content`, `title` or `url` that is present but not text as its default. The source carries the value itself into the document (rag/qdrant.py:406-410).
- ResearchTeamNode.AnswersOf reads an `answers` entry that is not a list as the empty list. The source raises TypeError at `len(answers)` for None (graph/nodes/research_team_node.py:186) and at `answers + [...]` for any non-list (lines 388 and 470).
- CitationExtraction.MergedIdempotent requires scores that are absent or non-negative. With a negative score a second merge changes the list (CitationExtraction.MergeTwiceDiffers).
- Citation URLs are compared as strings, and values compare structurally. Python's `1 == True == 1.0` is not modelled.
- The score comparison in `merge_citations` is modelled for numbers, booleans and strings. Comparing two lists raises in the model, but Python compares them element by element.
- Floating point is not modelled. Relevance scores are plain comparable numbers, token multipliers use truncating integer arithmetic, and the `:.2f` formatting of scores is left out.
- Logging calls are left out everywhere: they do not affect behaviour.
- Prompt templates (prompt/template.py), the reporter node and runflow.py are not part of this model.

## Findings

| source | as written | input that shows it | evidently intended | confidence | as-written member | corrected member |
|---|---|---|---|---|---|---|
| utils/log_sanitizer.py:75-76 | a value longer than `max_length` becomes `s[:max_length - 3] + "..."`; for a limit below 3 the slice counts from the end | `sanitize_log_input("hello", 2)` gives "hell...", 7 characters | never longer than `max_length` | not executed | LogSanitizer.AsWrittenExceedsLimit | LogSanitizer.SanitizedLogBound |
| graph/nodes/coordinator_node.py:64-71 | the notice's `content` is `("…",)`, a one-element tuple, and the normalisation replaces it by its `str()` | any call of `coordinator_node`: the model sees "('Clarification is DISABLED. …',)" | the notice text itself as the content | not executed | CoordinatorNode.ModelSeesTupleRepr | CoordinatorNode.ModelSeesNormalisedPrompt |
