# SCRAPER contact pipeline, modelled in Dafny

The repository scrapes contact details from a business directory in three
steps:

1. The scraper submits one scraping job per URL to a job service. It makes
   at most three submission attempts (two retries), then polls the job until it completes or
   fails. It picks the contact text out of the job result and appends one
   `{"url", "contact"}` record to `contact_data.json`.
2. A tab post-processor reads that file. It cuts each contact at tabs into
   stripped, non-empty tokens. The first tokens fill positional fields:
   label, company, street, an optional four-digit postal code, then the city.
   Every later token goes into one of four lists: phones, emails, languages
   or additional info. A language heading opens a language list and is itself
   dropped. Inside an open list every token is a language, even another
   language heading, until a payment heading or the end of the tokens closes
   the list. The payment heading is then sorted like any other token.
3. A line post-processor reads the same file. It cuts each contact at line
   feeds and reads the cells by line position.

The model is pure functions over immutable data:

- `Json` is a decoded document. Object members keep their document order,
  and a repeated key reads as its last value.
- Every network reply is an input: the answers to the three submission
  requests and the sequence of status replies.
- An exception that the scripts do not catch is the `Raises` case of
  `Common.Eval`.
- The scraper's main loop is `Pipeline.Run`. A run that ends early still
  keeps the records written so far, because the `finally` clause saves them.
- The tab classifier's sorting loop is proved equal to a positional reading.
  Each list holds exactly the tokens of its kind. A token's kind depends only
  on the token itself and on whether a language list is open at its position.
- The language and payment heading words are a parameter, `Markers`. The
  script's own words are `ContactPatterns.ScriptMarkers`. Every classifier
  lemma holds for any words that satisfy `ContactPatterns.WordsOnly`.
  `ContactPatterns.ScriptMarkersAreWords` shows that the script's words
  satisfy it. The script's rows are `ContactParser.StructureAll(ScriptMarkers, …)`.

Modules, one per file, in dependency order:

| module | file |
|---|---|
| `Common` | common.dfy |
| `Json` | json.dfy |
| `PyStr` | pystr.dfy |
| `JobClient` | job_client.dfy |
| `ResultExtractor` | result_extractor.dfy |
| `Pipeline` | pipeline.dfy |
| `ContactPatterns` | contact_patterns.dfy |
| `ContactParser` | contact_parser.dfy |
| `CsvSplitter` | csv_splitter.dfy |
| `Handoff` | handoff.dfy |

`Handoff` connects the scraper's output file to both post-processors.

Three behaviours of the result extraction are easy to misread:

- A key matches the URL when the two agree after `rstrip('/')`. The comment
  at Scripts/scraper_with_Log.py:128 says "regardless of trailing slash", but
  `rstrip('/')` removes every trailing slash, so `https://a.ch//` also matches
  `https://a.ch`. `ResultExtractor.KeyMatchesIff` states this.
- In a list result, the `break` only leaves the loop over one item's keys.
  The scan goes on to the following items, and a later item with a usable
  text overwrites an earlier one. `ResultExtractor.ScanItemsIsLastUpdate` and
  `ResultExtractor.ListResultText` state that the last such item wins.
- A first element that is neither an object nor a string leaves the contact
  text as it was. That is the sentinel, or the text an earlier list item set.

## Model

| member | source | states |
|---|---|---|
| Common.AllOk | data/CSV/data.py:22-93 | A loop over entries finishes exactly when no entry raises. It then yields one value per entry, in order. |
| Json.Get | Scripts/scraper_with_Log.py:96-103 | `d.get(key)` is None exactly when no member has the key. Otherwise it is the value of the last member with that key. |
| Json.GetOr | Scripts/scraper_with_Log.py:96-103 | `d.get(key, default)`: the last value with the key, or the default when no member has it. The same call reads `ContactSection` and `text` at lines 132, 136, 145 and 149, and `contact` and `url` at data/CSV/data.py:23 and 81. |
| Json.GetAppend | Scripts/scraper_with_Log.py:130-131 | A key present in the later members is read from them alone, whatever precedes them. |
| Json.GetAt | Scripts/scraper_with_Log.py:96-103 | A member whose key is not repeated later is what `get` returns. |
| Json.Truthy | Scripts/scraper_with_Log.py:66 | Python truthiness of a decoded value: null, false, a zero number, and an empty string, list or object are falsy. |
| PyStr.Strip | data/CSV/data.py:23 | `strip()` leaves no whitespace at either end and never lengthens the text. |
| PyStr.StripRemovesSpace | data/CSV/data.py:23 | `strip()` keeps one contiguous slice. Everything it removes is whitespace. |
| PyStr.StripTrimmed | data/CSV/data.py:23 | Text with no whitespace at its ends is its own `strip()`. |
| PyStr.StripIdempotent | data/CSV/data.py:23 | Stripping twice is stripping once. |
| PyStr.RightStripChar | Scripts/scraper_with_Log.py:130 | `rstrip('/')` keeps a prefix. Every character it cuts is a slash, and the result does not end in one. |
| PyStr.RightStripCharPadded | Scripts/scraper_with_Log.py:130 | Extra trailing slashes do not change `rstrip('/')`. |
| PyStr.RightStripCharEqualIff | Scripts/scraper_with_Log.py:130 | Two strings agree after `rstrip('/')` exactly when they differ only in their runs of trailing slashes. |
| PyStr.Split | data/CSV/extract_csv.py:9 | `split(sep)` gives at least one piece, and no piece contains the separator. |
| PyStr.Join | data/CSV/data.py:87-90 | `sep.join(pieces)`: the pieces in order with the separator between neighbours. It is also the `" ".join` of the notes lines in data/CSV/extract_csv.py:20. |
| PyStr.JoinSplit | data/CSV/extract_csv.py:9 | Joining the pieces of a split with the separator gives back the text. |
| PyStr.SplitJoin | data/CSV/extract_csv.py:9 | Splitting a join of separator-free pieces gives back the pieces. |
| PyStr.SplitLength | data/CSV/extract_csv.py:9 | n separators give n + 1 pieces. |
| PyStr.Replace | data/CSV/extract_csv.py:20 | Each separator becomes the other character, and nothing else changes. |
| PyStr.JoinSplitReplace | data/CSV/extract_csv.py:20 | `" ".join(s.split("\n"))` equals replacing every line feed with a space. |
| JobClient.ContactRule | Scripts/scraper_with_Log.py:43-47 | The extraction rule is an object with the name "ContactSection", the contact-section XPath and the job's URL. |
| JobClient.JobDocument | Scripts/scraper_with_Log.py:39-58 | The job description is an object of nine members with distinct keys, so `get` finds each one. JobDocumentShape states the values of six of them: url, status, id, result, time_created and elements. |
| JobClient.JobDocumentShape | Scripts/scraper_with_Log.py:39-58 | The posted document is a queued job for the URL. Its id and result are empty, it carries the creation time, and it has exactly one rule, "ContactSection", aimed at the same URL. |
| JobClient.JudgeAttempt | Scripts/scraper_with_Log.py:62-71 | An attempt is accepted exactly when the body is an object with a truthy `id`, and the id is the one returned. It raises exactly when the body is not an object. Otherwise it is retried. |
| JobClient.SubmitFrom | Scripts/scraper_with_Log.py:60-77 | From attempt n on, the loop stops at the first accepted or raising attempt. It gives up after attempt 3 only when every remaining attempt was rejected. |
| JobClient.Submit | Scripts/scraper_with_Log.py:60-77 | There are 1 to 3 attempts. It gives up with no id exactly when all three are rejected. Otherwise every attempt before the last was rejected and the last one decides: an accepted attempt gives its truthy id, and a non-object reply body makes the call raise. |
| JobClient.SubmitIgnoresUnusedReplies | Scripts/scraper_with_Log.py:60-68 | Only the answers to the first three requests decide the submission. |
| JobClient.StatusObject | Scripts/scraper_with_Log.py:91-106 | `status` and `result` can be read exactly when the reply is an object, or a non-empty list whose first item is an object. They are read from that object's own members. |
| JobClient.ClassifyStatus | Scripts/scraper_with_Log.py:85-118 | A transport error means poll again, and an unusable shape means None. "Completed" returns `result` (default `[]`), "Failed" returns None, and any other status means poll again. |
| JobClient.ListReplyIsFirstElement | Scripts/scraper_with_Log.py:92-100 | A list reply is judged by its first item alone, and is None when that item is not an object. |
| JobClient.Poll | Scripts/scraper_with_Log.py:84-120 | Polling finishes at the first terminal reply, and every earlier reply meant poll again. It is still waiting exactly when no reply is terminal. |
| JobClient.PollStopsAtTerminal | Scripts/scraper_with_Log.py:84-120 | Replies after the terminal one are never requested. |
| JobClient.PollFailedExample | Scripts/scraper_with_Log.py:102-114 | A reply `{"status": "Failed"}` ends polling after one request with None. |
| JobClient.PollCompletedExample | Scripts/scraper_with_Log.py:92-114 | A "Running" reply means poll again. A list reply whose first item is `{"status": "Completed", "result": X}` then ends polling after two requests with X. |
| JobClient.PollResultOnlyOnCompleted | Scripts/scraper_with_Log.py:109-114 | A result comes back only from a "Completed" reply. |
| ResultExtractor.KeyMatches | Scripts/scraper_with_Log.py:130 | A result key names the URL when both agree after `rstrip('/')`. KeyMatchesIff characterises it. |
| ResultExtractor.KeyMatchesIff | Scripts/scraper_with_Log.py:128-130 | A result key names the URL exactly when the two differ only in trailing slashes. |
| ResultExtractor.FirstMatchingKey | Scripts/scraper_with_Log.py:129-131 | The key read is the first one, in document order, that matches the URL. None means no key matches. |
| ResultExtractor.FirstElement | Scripts/scraper_with_Log.py:134 | `section[0]` on a truthy value gives a list's first item or a string's first character. It raises on anything else. |
| ResultExtractor.TextOf | Scripts/scraper_with_Log.py:135-140 | An object element gives its `text`, or the sentinel when it has none. A string element gives itself. Anything else leaves the text unchanged. |
| ResultExtractor.SectionUpdate | Scripts/scraper_with_Log.py:132-142 | Data that is not an object raises. A falsy or missing "ContactSection" keeps the current text. A non-empty list section yields the text of its first element. A string section gives its first character, and any other truthy section raises. |
| ResultExtractor.ItemUpdate | Scripts/scraper_with_Log.py:127-143 | A non-object item, or one with no matching key, keeps the current text. |
| ResultExtractor.ScanItems | Scripts/scraper_with_Log.py:126-143 | The loop over a list result: an item that raises ends the scan, and an item that sets a text replaces the current one. ScanItemsRaises and ScanItemsIsLastUpdate state its outcome. |
| ResultExtractor.ContactText | Scripts/scraper_with_Log.py:123-157 | No result, a falsy result, or a result that is neither a list nor an object gives "No text available". |
| ResultExtractor.ProcessResult | Scripts/scraper_with_Log.py:122-165 | Exactly one record, for this URL, is appended, and the records already there are kept. It raises exactly when extracting the text raises. |
| ResultExtractor.ObjectResultText | Scripts/scraper_with_Log.py:144-155 | For an object result, a falsy or missing "ContactSection" gives the sentinel. For a list section, an object first element gives its `text` (default the sentinel), a string gives itself and anything else gives the sentinel. A string section gives its first character, and any other truthy section raises. |
| ResultExtractor.ListResultRaises | Scripts/scraper_with_Log.py:124-143 | The contact text of a list result raises exactly when one of its items raises. |
| ResultExtractor.ScanItemsRaises | Scripts/scraper_with_Log.py:126-143 | Scanning a list result raises exactly when some item raises. |
| ResultExtractor.ScanItemsIsLastUpdate | Scripts/scraper_with_Log.py:126-143 | The forward scan equals the backward reading: the text comes from the last item that sets one, because later matches overwrite earlier ones. |
| ResultExtractor.ListResultText | Scripts/scraper_with_Log.py:123-143 | A list result whose items all read without raising records the text of the last item that sets one, or the sentinel when none does. |
| ResultExtractor.NoMatchingItemGivesSentinel | Scripts/scraper_with_Log.py:123-143 | A list result with no item keyed by the URL records "No text available". |
| ResultExtractor.FirstMatchDecides | Scripts/scraper_with_Log.py:129-143 | Within one item only the first matching key is read, and `item[key]` gives its last duplicate. When no later member repeats the key, the item's own value decides. When one does, the last repeat decides. |
| ResultExtractor.ObjectResultExample | Scripts/scraper_with_Log.py:144-149 | An object result gives the `text` of its first "ContactSection" element. |
| ResultExtractor.ListResultExample | Scripts/scraper_with_Log.py:125-138 | A list item keyed by the URL without its trailing slash gives that item's string element. |
| ResultExtractor.EmptyListExample | Scripts/scraper_with_Log.py:124 | An empty list result records the sentinel. |
| Pipeline.VisitGoesThroughProcessResult | Scripts/scraper_with_Log.py:180-183 | Once a submitted job has finished polling, the visit emits exactly when `process_result` succeeds, and its record is the one `process_result` appends. The visit raises exactly when `process_result` raises. |
| Pipeline.VisitUrl | Scripts/scraper_with_Log.py:177-186 | A URL is skipped exactly when submission gave no id. A record is emitted exactly when the job was submitted, polling finished and extraction did not raise. The record is the URL with the text extracted from the polled result. A visit blocks exactly when a submitted job never reaches a terminal status. It raises exactly when submission raised or extraction raised. |
| Pipeline.Collect | Scripts/scraper_with_Log.py:177-186 | The loop over the visits: a skipped URL adds nothing, an emitted record is appended, and the first raise or endless poll stops it. It never holds more records than visits. |
| Pipeline.Run | Scripts/scraper_with_Log.py:168-191 | A run never writes more records than it has URLs. RunRecordsFollowSubmissions and RunRecordsFollowReplies say which records. |
| Pipeline.RunDoneIff | Scripts/scraper_with_Log.py:168-191 | The run completes exactly when no URL raises or polls forever. |
| Pipeline.RunRecordsFollowSubmissions | Scripts/scraper_with_Log.py:177-186 | A completed run has records for exactly the URLs whose submission returned an id, in input order. |
| Pipeline.RunRecordsFollowReplies | Scripts/scraper_with_Log.py:177-186 | A completed run holds, in input order, one record per submitted URL. Each record's contact is the text extracted from what polling that job returned. |
| Pipeline.RunKeepsEarlierRecords | Scripts/scraper_with_Log.py:168-191 | When URL k raises or blocks, the run stops there, keeps the records of the URLs before k, and ends aborted or stuck accordingly. |
| Pipeline.FailedJobGivesSentinel | Scripts/scraper_with_Log.py:112-114 | A job that ends "Failed" still gives its URL a record, with "No text available". |
| Pipeline.EmptyIdsSkipUrl | Scripts/scraper_with_Log.py:64-77 | Three replies with a missing, empty or null id skip the URL. |
| ContactPatterns.ScriptMarkers | data/CSV/data.py:69-72 | The script's heading words: `Sprachen`, `Langues` and `Lingue` open a language list, and `Zahlungsmethoden`, `Payment Methods` and `Opzioni di pagamento` close it. |
| ContactPatterns.IsLanguageMarker | data/CSV/data.py:69 | A token opens a language list when it is one of the language heading words. |
| ContactPatterns.IsPaymentMarker | data/CSV/data.py:72 | A token closes a language list when it is one of the payment heading words. |
| ContactPatterns.ScriptMarkersAreWords | data/CSV/data.py:69-72 | No heading word is a phone number or an email, and no word is both a language heading and a payment heading. |
| ContactPatterns.IsPhone | data/CSV/data.py:18 | `^\+?\d[\d\s\-]{7,}$`: an optional '+', a digit, then at least seven digits, whitespace or hyphens. The text may end in one extra line feed. |
| ContactPatterns.IsEmail | data/CSV/data.py:19 | `^\S+@\S+\.\S+$`: no whitespace, an '@' after a non-empty part, then a '.' with text on each side. The text may end in one extra line feed. |
| ContactPatterns.IsPostalCode | data/CSV/data.py:50 | `^\d{4}$`: exactly four digits, optionally followed by one line feed. |
| ContactPatterns.TrimmedPatterns | data/CSV/data.py:50 | On a stripped token the line-feed allowance of `$` never applies, so each pattern matches exactly its body. |
| ContactPatterns.PatternExamples | data/CSV/data.py:18-19 | Sample phones, emails and postal codes that match, and near misses that do not. |
| ContactPatterns.PhoneAndEmailExclusive | data/CSV/data.py:18-19 | No token matches both the phone and the email pattern, so testing phones first hides no email. |
| ContactParser.Compact | data/CSV/data.py:23-25 | Tokens are non-empty, stripped, and no more numerous than the pieces. |
| ContactParser.CompactSingle | data/CSV/data.py:23-25 | One piece becomes its stripped text, or nothing when that is empty. |
| ContactParser.CompactAppend | data/CSV/data.py:23-25 | Tokens of a concatenation are the tokens of each part, in order. With CompactSingle this fixes the tokens of every input: each piece stripped, empty ones dropped, order kept. |
| ContactParser.Tokens | data/CSV/data.py:23-25 | The tokens of a contact are the compacted pieces of its split at tabs. TokensOfJoin states that this inverts joining with tabs. |
| ContactParser.TokensOfJoin | data/CSV/data.py:23-25 | Tokenising inverts joining with tabs: clean tab-free tokens come back unchanged. |
| ContactParser.ClassifyByKind | data/CSV/data.py:63-78 | The sorting loop agrees with the positional reading. Each list is exactly the tokens of its kind, in order, and the language flag says whether a list is open. |
| ContactParser.Step | data/CSV/data.py:64-78 | Sorting one token. Inside a language list every token but a payment heading is a language. Otherwise phone comes before email, a language heading opens a list and is dropped, and anything else is additional info. |
| ContactParser.Classify | data/CSV/data.py:63-78 | Sorting a run of tokens left to right. ClassifyByKind and WalkTail state what it computes. |
| ContactParser.ClassifyPartitions | data/CSV/data.py:63-78 | Every token lands in exactly one list or is a dropped language heading. |
| ContactParser.SkipBlank | data/CSV/data.py:56-57 | The skip stops at the end or at a token that is not blank once stripped. |
| ContactParser.SkippedAreBlank | data/CSV/data.py:56-57 | Every token skipped is blank once stripped. |
| ContactParser.ReadHead | data/CSV/data.py:34-61 | The positional fields and the index where sorting begins, which never passes the end. HeadOfTokens states the fields for real tokens. |
| ContactParser.HeadOfTokens | data/CSV/data.py:38-61 | Tokens 0-2 are label, company and street. Token 3 is the postal code exactly when it is four digits, and the city otherwise. Sorting starts right after the city. |
| ContactParser.SkipBlanks | data/CSV/data.py:56-57 | The script's skip loop ends where the reference skip does. |
| ContactParser.WalkHead | data/CSV/data.py:34-61 | The script's index walk over the positional fields computes the reference head. |
| ContactParser.WalkLanguages | data/CSV/data.py:71-74 | The inner loop stops at the end or at a payment heading, and adds the tokens it passes to the languages. |
| ContactParser.SortAt | data/CSV/data.py:64-78 | One outer pass, including the step back after a language list, advances and keeps the lists equal to the reference sort of the tokens read so far. |
| ContactParser.WalkTail | data/CSV/data.py:63-78 | The script's sorting loop computes the reference lists for the tokens after the city. |
| ContactParser.Structure | data/CSV/data.py:34-78 | The reference fields of one contact's tokens: the positional head, then phones, emails, languages and other tokens classified by kind. WalkTokens shows the loop computes them. |
| ContactParser.WalkTokens | data/CSV/data.py:34-78 | The whole walk over one contact's tokens gives the reference fields. |
| ContactParser.ContactOf | data/CSV/data.py:23 | A contact text exists exactly when the entry is an object whose `contact` (default `""`) is a string. |
| ContactParser.StructureEntry | data/CSV/data.py:22-93 | An entry gives a row exactly when it has a text contact, and the row's URL is `entry.get("url", "")`. |
| ContactParser.StructureAll | data/CSV/data.py:22-93 | All rows are produced, in entry order, exactly when no entry raises. |
| ContactParser.RowOfCleanContact | data/CSV/data.py:38-54 | A contact made of clean tokens puts its first three tokens in label, company and street. It has a postal code exactly when token 3 is four digits, and then the postal code is token 3. The city is the next token after that: token 4 with a postal code, token 3 without one, or empty when the contact is too short. |
| ContactParser.RowListsByKind | data/CSV/data.py:63-91 | A row's joined lists hold, in order, the tokens after the city of each kind. |
| CsvSplitter.LineAt | data/CSV/extract_csv.py:14-17 | A cell is filled exactly when the line exists, and then holds that line. |
| CsvSplitter.Fill | data/CSV/extract_csv.py:12-21 | Lines 1-4 fill company, address, postal code & city and phone 1. When line 5 has an '@' it is the email and there is no second phone. Otherwise line 5 is the second phone. The email is empty exactly when neither line 5 nor line 6 has an '@'. Notes exist exactly when there are more than seven lines. |
| CsvSplitter.FirstLineIgnored | data/CSV/extract_csv.py:12-21 | Line 0 never reaches the sheet. |
| CsvSplitter.FillText | data/CSV/extract_csv.py:9-21 | Splits one contact at line feeds and fills the cells by position. CellsByLineCount, FillOfJoinedLines and NotesAreTheRest state what it gives. |
| CsvSplitter.CellsByLineCount | data/CSV/extract_csv.py:9-21 | Each cell is filled exactly when the contact has enough line feeds: 1, 2, 3 and 4 for the first four cells, 5 for phone 2 or email, and 7 for notes. |
| CsvSplitter.FillOfJoinedLines | data/CSV/extract_csv.py:9-21 | Lines written out with line feeds and read back give the same cells. |
| CsvSplitter.NotesAreTheRest | data/CSV/extract_csv.py:20 | Notes are the text after the seventh line feed, with each later line feed turned into a space. |
| CsvSplitter.SplitEntry | data/CSV/extract_csv.py:9-13 | An entry gives a row exactly when it is an object with a string `contact` and a `url`. The row keeps the URL. |
| CsvSplitter.SplitAll | data/CSV/extract_csv.py:8-22 | All rows are produced, in entry order, exactly when no entry raises. |
| Handoff.RecordJson | Scripts/scraper_with_Log.py:160-164 | A saved record reads back with its URL and its contact. |
| Handoff.Entries | Scripts/scraper_with_Log.py:190-191 | The saved file holds one entry per record, in record order. |
| Handoff.TabRowsFollowRecords | data/CSV/data.py:22-25 | The tab classifier accepts the scraper's file exactly when every contact is text, and each row keeps its record's URL. |
| Handoff.LineRowsFollowRecords | data/CSV/extract_csv.py:8-13 | The line splitter accepts the scraper's file exactly when every contact is text, and each row keeps its record's URL. |
| Handoff.SentinelRow | data/CSV/data.py:23-61 | A URL with no contact found becomes a row labelled "No text available" with an empty company and no phones. |

## Left out

- Authentication, HTTP and the service's endpoints are left out. Each request is an input reply, and a body that is not JSON counts as a transport error, because the request library raises its own exception for it.
- `time.sleep`, logging and timestamps are left out. The creation timestamp is a parameter of `JobClient.JobDocument`.
- JobClient.Poll: the real loop can block forever. The model reads a finite sequence of replies and reports `Waiting` when none of them is terminal.
- Pipeline.Run: a run that blocks never reaches the `finally` clause, so `Stuck` records were never saved. Reading `urls.json` and the exception that a missing or malformed file raises are left out.
- Writing `contact_data.json` (indentation, `ensure_ascii`) and the two spreadsheets (pandas, Excel) is file output and is left out. Rows are returned as values.
- The post-processors' handling of a missing or undecodable input file is I/O and is left out. So is a top-level document that is not a list: the model takes the list of entries.
- Json.Truthy: Python reads a number literal with a fraction or an exponent as a float. One that underflows, such as `1e-400`, becomes `0.0` and is falsy, but the model keeps its exact decimal value and counts it truthy. `NaN` and `Infinity` have no representation. Float rounding is left out.
- Text is ASCII. Python's `isspace`, `\s` and `\d` also match other Unicode characters, which the model does not.
- Pipeline.Run takes URLs as strings. For a `urls.json` holding other values, `rstrip` would raise only when a list result has an object item with a key to compare. Elsewhere the value would pass into the record unchanged. That case is not modelled.
- `data/XML/extract_XML.py`, a third exporter, is not part of this model.
