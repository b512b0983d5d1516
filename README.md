# moji2anki backend, modelled in Dafny

moji2anki turns a MOJi dictionary word list into an Anki deck. Its web
service creates a task for each list URL. A background job then does the
following:

- fetches every page of the list;
- works out the list's folder path, which tags every note of the run;
- extracts and deduplicates the word ids;
- for each word, fetches its detail and pronunciation audio, and adds one note to the process-wide deck, which every run shares;
- writes the deck as `<task id>.apkg`.

While the job runs, it appends progress lines to the task's log. The log ends with `SUCCESS` or with one line of the form `Failed: <exception class>:<message>`.

This project models that core:

- **`Errors`**: the exceptions as values, and the `Failed:` line.
- **`Strings`**: the Python string operations the code relies on: `split`, `join`, `replace`, `str(n)`, and `re.findall(r"\[(.*?)\]")`.
- **`Kana`**: `is_kana`.
- **`Remote`**: the request merges and the response classification of `get_data`.
- **`WordIds`**: `get_word_id`, the set deduplication and the id checks.
- **`Voice`**: the audio retry loop of `get_word_voice`.
- **`Card`**: the definition HTML, the note fields and tags, the shared deck, and `generate_word_card`.
- **`ProgressLog`**: the `progress_logs` store of main.py, with `update_progress_log` and `get_progress_log`.
- **`Paginator`**: `extract_last_segment`, the folder-path name, and the page loop.
- **`Generate`**: `generate_anki_cards` end to end.
- **`Api`**: `create_apkg` and `download_apkg`.

Everything the program gets from outside is an input value:

- the service's answers: `Response` values, and functions from list id and page to a response;
- each download attempt: `Attempt`;
- the outcome of writing the package: `Option<Error>`;
- the files present in the deck directory: a set of paths;
- the task id drawn from `uuid4`.

The state-changing loops of the source are methods with loop invariants. Each is proved equal to a specification function. The `for` loop of `is_kana` computes a pure predicate and is the recursive predicate `Kana.IsKana`. The properties are then proved about those functions as lemmas.

The model follows core.py as written, in these places:

- A Japanese gloss of the same sense is wrapped in `<span class="jptext">(…)</span>`.
- When both download attempts raise, `audio_content` is never bound. The test after the loop then raises `UnboundLocalError`, which the task reports as its failure line. `False` comes back only for a download that succeeds with empty content.
- The `"tags" in word["result"]` test looks for the string among the elements of the result list. Upstream tags therefore only appear when that list contains the string `"tags"`.

## Model

| member | source | states |
|---|---|---|
| Errors.FailureLine | core.py:299-301 | the failure line is `Failed: ` + the exception's module-qualified class name (what `str(type(e))[8:-2]` leaves of `<class '…'>`) + `:` + its message |
| Strings.Bracketed | core.py:183 | every captured part of `\[(.*?)\]` is free of `]` and newlines (the lazy group stops at the first `]`; `.` never matches a newline) |
| Strings.BracketedSkip | core.py:19 | a character other than `[` is passed over and captures nothing |
| Strings.BracketedUnclosed | core.py:19 | a `[` with no `]` after it on its line captures nothing, and the scan resumes right after that `[` |
| Strings.BracketedAcrossLines | core.py:19 | `[a` newline `[b]` captures only `b`: the group cannot span a newline |
| Strings.BracketedFront | core.py:19 | a bracketed token at the front is captured whole and the scan resumes after its `]` |
| Strings.BracketedNone | core.py:19 | a string without `[` yields no captures |
| Kana.IsKanaIffAllKana | core.py:29-39 | `is_kana` holds exactly when every character lies in U+3040–U+309F or U+30A0–U+30FF; the empty string is kana |
| Kana.NonKanaCharSpoils | core.py:33-37 | one character outside both blocks anywhere in the word makes `is_kana` false |
| Kana.KanaExamples | core.py:29-39 | hiragana and katakana words are kana; a word with a kanji is not |
| Remote.Overlay | core.py:46-48 | a `{**base, **top}` merge has the keys of both, and a key of `top` takes `top`'s value |
| Remote.MakeRequest | core.py:42-49 | the posted body is the body overridden by the auth fields; the headers are the defaults overridden by the extra headers |
| Remote.GetData | core.py:50-58 | the payload is returned exactly when status and `result.code` are both 200. A status other than 200 raises NetworkError, checked first. Code 100000006 raises UnauthorizedError. Any other code raises DataError |
| WordIds.GetWordId | core.py:61-66 | the loop returns the target ids of the type-102 entries, in order, duplicates kept |
| WordIds.WordIdsAppend | core.py:61-66 | extracting from concatenated pages is concatenating the extractions |
| WordIds.WordIdsMembership | core.py:63-65 | an id is extracted exactly when some entry has type 102 and that target id |
| WordIds.ExtractionExample | core.py:61-66 | `[a/102, a/102, b/999, c/102]` gives `[a, a, c]` |
| WordIds.Dedup | core.py:268 | the deduplicated ids have the same members as the input, no repeats, and no more elements |
| WordIds.DedupSize | core.py:268 | the number of deduplicated ids is the number of distinct ids |
| WordIds.DedupExample | core.py:268 | `[a, a, c]` deduplicates to two ids `[a, c]` |
| WordIds.ValidateIds | core.py:269-272 | the ids pass exactly when there is at least one and no fewer than the list's size. None raises DataError "词单中无单词", and that test comes first. Too few raises DataError "未登录，数据访问受限" |
| Voice.FirstDownloadFrom | core.py:120-129 | the content used is that of the first attempt that does not raise, when one of the at most two attempts succeeds |
| Voice.AttemptsMade | core.py:116-137 | the loop issues one or two GETs: up to the first success, at most `max_retries + 1` |
| Voice.WordVoice | core.py:100-145 | False exactly when a download succeeded with empty content. True exactly when a file `<id>.mp3` is written, holding that content; a first successful download with non-empty content always gives True and that file. Two failed attempts raise UnboundLocalError. A failed signed-URL request propagates and writes nothing |
| Voice.GetWordVoice | core.py:115-145 | the retry loop returns and writes what `WordVoice` specifies, after the number of attempts `AttemptsMade` gives |
| Voice.FalseOnlyForEmptyAudio | core.py:139-145 | False is returned exactly when some attempt fetched empty content and every earlier attempt raised |
| Card.RenderSnoc | core.py:166-176 | one more fragment appends exactly its piece, computed from the running id left by the fragments before it |
| Card.RenderAppend | core.py:165-176 | the definition of two runs of fragments is the first's followed by the second's, started from the running id the first leaves |
| Card.SenseRendering | core.py:167-175 | a fragment opening a new relation id, with the fragments of that id after it, renders as `<br>` (unless it is the first sense), the bullet, then the Japanese glosses of the followers |
| Card.SameSenseGlosses | core.py:174-176 | fragments that keep the running id add only their Japanese `(title)` glosses; other languages add nothing |
| Card.DefinitionExample | core.py:165-176 | run/en, 走る/ja under sense 1, then flee/en under sense 2 give `・run<span class="jptext">(走る)</span><br>・flee` |
| Card.ComposeDefinition | core.py:165-176 | the definition loop builds exactly the rendering of the fragments from an empty running id |
| Card.AppendFragment | core.py:167-176 | one loop step appends the piece of one fragment for the current running id |
| Card.BuildNote | core.py:177-199 | a built note has exactly 11 fields |
| Card.NoteFailures | core.py:177-187 | a note is built exactly when the result list is non-empty and its first element is an object with `accent`, `spell` and `excerpt`, with `tags` when the membership test succeeds and with `pron` when the spelling is not kana. An empty list raises IndexError, a non-object first element TypeError, a missing `accent` or `tags` KeyError |
| Card.NoteFields | core.py:182-197 | field 0 is the spelling alone exactly when it is kana, and otherwise spelling `[reading]`. Field 7 is empty exactly when it is kana, and otherwise `1`. Field 1 is the accent and field 2 the bracket captures joined. Field 5 is the definition and field 6 `[sound:<id>.mp3]`. Fields 3, 4, 8, 9 and 10 are empty |
| Card.PartOfSpeechExample | core.py:183 | `[名][他サ]食べる` gives the part of speech `名他サ` |
| Card.NoteTagsShape | core.py:178-181 | when the list contains the string `"tags"`, the tags are the first object's `tags` split on `#`, otherwise none; then `moji2anki`, then the list name only when it is non-empty; a result list of objects contributes no upstream tags |
| Card.Deck.constructor | core.py:17 | the shared deck starts empty |
| Card.Deck.AddNote | core.py:202 | adding a note appends it to the deck's notes |
| Card.WordCardOutcome | core.py:157-204 | a card is built exactly when the detail, the audio and the note succeed. Its note is the one built from the detail and the composed definition. The audio file name is reported exactly when the download came back empty. A failed detail request raises before any audio is requested |
| Card.GenerateWordCard | core.py:157-204 | on success the deck gains exactly the card's note; when anything raises, the deck is unchanged. The audio file written is the one `get_word_voice` writes, and none when the detail request fails |
| ProgressLog.Appended | main.py:35-39 | appending to a task's log ends that log with the new lines after the old ones, creating it when needed |
| ProgressLog.AppendedLeavesOthers | main.py:35-39 | appending changes only that task: no other task appears, disappears or changes, and the task's log is its old log followed by exactly the new lines |
| ProgressLog.AppendedTwice | main.py:35-39 | two appends in a row are one append of both |
| ProgressLog.ProgressStore.constructor | main.py:27 | the store starts with no task |
| ProgressLog.ProgressStore.Update | main.py:35-39 | a known task's log gets the status at its end; an unknown task's log becomes `[status]`; nothing else changes |
| ProgressLog.ProgressStore.Get | main.py:82-86 | a known task's stored log is returned; an unknown task raises NotFound "Task not found" |
| Paginator.LastNonEmpty | core.py:211-213 | the result is empty exactly when every part is empty, and is otherwise one of the parts |
| Paginator.LastNonEmptyIsLast | core.py:211-213 | a non-empty result is the last non-empty part: every part after it is empty |
| Paginator.ExtractLastSegment | core.py:207-214 | the segment never contains `/` |
| Paginator.LastSegmentEmptyIff | core.py:207-223 | the segment is empty, which ends the run with DataError "词单id有误", exactly when the path is slashes only |
| Paginator.LastSegmentTrailingSlash | core.py:210-213 | a trailing slash does not change the segment |
| Paginator.LastSegmentAfterSlash | core.py:210-213 | the non-empty text after the last slash is the segment |
| Paginator.LastSegmentPlain | core.py:210-213 | a path without slashes is its own segment |
| Paginator.AncestorsFuel | core.py:236-251 | a parent climb that ended with some number of requests ends the same way with more allowed |
| Paginator.Reverse | core.py:252 | the reversed titles list the same titles from the other end |
| Paginator.Hyphenated | core.py:253 | each title has its spaces turned into `-`, and nothing else changes |
| Paginator.ListName | core.py:231-254 | the parent climb loop followed by reverse, replace and join computes exactly the name `ListNameOf` specifies (own title alone for a top-level list, root-first hyphenated titles joined with `::` otherwise, IndexError for an empty sidebar, the climb's exception when a parent request fails) |
| Paginator.NestedListNameExample | core.py:233-254 | a list under a root list is named `Root-title::Own-title`, spaces hyphenated |
| Paginator.NestedNameHasNoSpaces | core.py:252-254 | the name of a nested list contains no space |
| Paginator.PagesAnnounced | core.py:256-264 | the page loop announces pages 2, 3, … in order with `第i页(共N页)`, one line per page requested, all of them when every page answers |
| Paginator.FetchPage | core.py:258-264 | one turn of the page loop logs the page's line, then returns that page's entries, or the exception that ends the loop |
| Paginator.PagesStopAtFailure | core.py:256-264 | once a page request raised, no later page is announced or requested |
| Paginator.PagesInOrder | core.py:256-264 | when every page answers, the entries are page 2's, then page 3's, and so on |
| Paginator.PagesStep | core.py:258-264 | each page is announced before it is requested, and its entries extend the list |
| Paginator.FetchRemainingPages | core.py:255-264 | the page loop logs exactly the page lines and returns the first page's entries followed by the others, or the exception of the first failing page |
| Generate.Collect | core.py:220-272 | collecting a list reports the first-page line first, and ends with the parsing line when the ids are accepted |
| Generate.CollectedIds | core.py:267-272 | the accepted ids are distinct, at least one, no fewer than the list's size, and exactly the type-102 targets of all its pages |
| Generate.CollectProgressing | core.py:225-266 | every line logged while collecting is an intermediate progress line |
| Generate.CardsNotes | core.py:277-283 | the deck gains one note per word id, in id order: all of them when no card raised, otherwise those before the card that raised |
| Generate.CardsStopAtFailure | core.py:277-283 | once a card raised, no later card is announced or built |
| Generate.CardsProgressing | core.py:277-283 | every line of the card loop is an intermediate progress line |
| Generate.CardsStep | core.py:278-283 | each card is announced as `第n/N张`, then built; an empty audio download adds `语音下载失败:<id>.mp3` after it |
| Generate.GenerateCards | core.py:277-283 | the card loop logs exactly the card lines and adds exactly the notes the specification gives, stopping at the first exception |
| Generate.CardTurn | core.py:278-283 | one turn of the card loop extends the log and the deck by that card's lines and note |
| Generate.CollectWords | core.py:220-272 | the collecting part of the task logs and returns what `Collect` specifies |
| Generate.GenerateAnkiCards | core.py:217-301 | the task appends exactly the run's lines and terminal line to its own log. It adds the run's notes to the shared deck. It writes a package, holding every note of the deck, exactly when the run succeeds |
| Generate.OneTerminalLineLast | core.py:217-301 | a finished run logs exactly one terminal line (`SUCCESS` or `Failed: …`), and it is the last; an unfinished climb logs none |
| Generate.ProgressLines | core.py:217-298 | every line before the terminal one is an intermediate progress line |
| Generate.SuccessIff | core.py:277-298 | `SUCCESS` is logged exactly when the list is collected, every word yields a card and the package write returns; the deck then gains one note per distinct word id |
| Generate.NoNotesBeforeCards | core.py:220-272 | a run that fails before the card loop adds no note |
| Generate.EmptyListId | core.py:221-223 | a path with no non-empty segment logs only `Failed: exception.DataError:词单id有误` |
| Generate.DataErrorLine | core.py:301 | a data error is reported as `Failed: exception.DataError:<message>` |
| Generate.RestrictedList | core.py:271-272 | a list whose distinct words are fewer than its size ends with the parsing line and then `Failed: exception.DataError:未登录，数据访问受限` |
| Api.PathJoin | main.py:91 | an absolute name replaces the directory; otherwise the path starts with the directory and ends with the name |
| Api.DownloadApkg | main.py:90-99 | the task's `<task id>.apkg` in the deck directory is served when it exists, under that file name as an octet stream; otherwise NotFound "File not found" |
| Api.DownloadServesTaskArchive | main.py:91-97 | the served path lies in the deck directory and ends with `<task id>.apkg` |
| Api.DownloadAfterWrite | main.py:90-97 | once a task's package exists, downloading it by task id serves that file |
| Api.CreateApkg | main.py:70-77 | a new task's log is seeded with `Task created` and its id is returned |
| Api.CreateAndRun | main.py:70-75 | a fresh task's log reads `Task created`, then the run's lines, and no other task's log changes |
| Api.LogOpensWithCreation | main.py:72 | a task's log opens with `Task created`, and a finished run's log ends with its terminal line |

## Left out

- URL parsing: `extract_last_segment` is modelled on the path component of the URL. `urlparse` is not part of this model, and neither is how the validated `HttpUrl` reaches it.
- The HTTP transport: httpx clients, timeouts, `raise_for_status` and JSON decoding. A response is a value holding the status, `result.code`, the URL text, the body text and the payload fields the code reads. A payload missing a key (KeyError) or holding a wrongly typed value is not modelled, except for the `result` list of a word detail. There, any JSON value may stand first and any key may be missing, but the values of the first object's keys are strings: a number, list or null under `spell`, `pron`, `excerpt` or `tags` is not modelled.
- The request bodies of `get_word_detail`, `get_word_voice` and the list-page calls. `MakeRequest` states how any body and headers are merged. The values in `const.py` are not part of this model.
- The random delays before each page and each card, and all logging.
- genanki's `Model`, `Note` and `Package`. A note is its field list and tags, and the deck is the list of notes added. Writing the package is an input that either succeeds or raises. Collecting the media files is not modelled.
- Card.BuildNote: building a genanki `Note` is modelled as never raising. genanki rejects a tag that contains whitespace with ValueError. Only a nested list's name is hyphenated (core.py:253); a top-level list keeps its title (core.py:254), and that name tags every note (core.py:180-181). So when a top-level list's title contains a space, the program fails on its first card with a `Failed: ValueError:…` line, while the model builds the note and `Generate.SuccessIff` reports `SUCCESS`. An upstream `#`-separated tag containing a space behaves the same way.
- The file system: an audio file is a returned `SavedFile` value, not written to disk, and the deck directory is a set of paths. `purge_cache`, `remove_file` and the shutdown hook are left out.
- `get_word_detail_batch` and `generate_word_card_batch`: nothing in the modelled code calls them.
- The FastAPI application: routing, CORS, the exception-to-JSON handlers, and `uuid4`, whose value is a parameter.
- Concurrency: background tasks run one at a time in the model. The deck is shared between runs, as `card_deck` is, so a package holds the notes of earlier runs too.
- WordIds.Dedup: Python does not specify the order of `list(set(ids))`. The model keeps first occurrences. The card order and the note order are therefore one possible order, and the stated properties hold for any order except `DedupExample`.
- Paginator.ListName: the `while True` climb through parent lists makes at most a given number of requests. A run that needs more is `Unfinished` and logs no terminal line. The source keeps requesting instead, and never ends on a cyclic chain of parents.
- The messages of Python's built-in exceptions (IndexError, TypeError, KeyError, UnboundLocalError) are those of current CPython. Other versions word them differently.
- log.py and the default messages of exception.py: every modelled raise passes its own message.
