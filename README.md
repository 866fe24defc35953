# Slack payment bot: a verified model of its core

`main.py` is a Cloud Function behind a Slack Events webhook. A Slack message such as

```
DATA: 04/02/2025
VALOR: R$ 1.500,00
BANCO: Itau
EMPRESA: Empresa XYZ
CL: CC001
```

is a payment entry (*lancamento*). The function handles it as follows:

- It pulls five labelled fields out of the message.
- It creates the Drive folders `{root}/{YYYY-MM}/{YYYY-MM-DD_VALOR_BANCO_EMPRESA_CL}/`, reusing any that already exist.
- It downloads the message's attachments from Slack and uploads them into the entry folder.
- It appends one row to a Google Sheets tab.
- It reacts to the message and replies in its thread.

A gate in front of this decides whether an HTTP request is handled at all. It covers:

- the health check;
- the Slack signature;
- the `url_verification` handshake;
- retries, bots, subtypes and the channel filter;
- whether the message holds the required fields.

The model is written in Dafny, one module per part of the program:

| module | file | what it models |
|---|---|---|
| `Wrappers` | `wrappers.dfy` | `Option` and `Result` |
| `Strings` | `strings.dfy` | `str.strip` (ASCII whitespace), `str.replace`, `"_".join`, decimal and zero-padded numbers |
| `Extraction` | `extraction.dfy` | the five patterns `LABEL\s*[:\-]\s*(.+?)(?:\n|$)` under `re.search(..., re.IGNORECASE)`, `extract_fields`, `has_required_fields` |
| `Calendar` | `calendar.dfy` | `datetime.strptime(s, "%d/%m/%Y")` and the `strftime` renderings `%Y-%m-%d`, `%Y-%m`, `%d/%m/%Y` |
| `Naming` | `naming.dfy` | `sanitize_folder_name`, `build_folder_name`, `get_month_folder_name` |
| `Scenarios` | `scenarios.dfy` | the example of the module docstring, worked through the naming functions |
| `Drive` | `drive.dfy` | the Drive namespace as a class over a sequence of entries: `find_or_create_folder`, `create_lancamento_folder`, `upload_file_to_drive` |
| `Attachments` | `attachments.dfy` | `download_slack_files` as a loop against an HTTP oracle |
| `Ledger` | `ledger.dfy` | the sheet as a class over a sequence of rows: `ensure_headers`, `append_to_sheets` |
| `Webhook` | `webhook.dfy` | `verify_slack_signature` and the gate of `slack_webhook` as pure functions; its `try` block as methods over the Drive store and the sheet |

How the outside world is modelled:

- Every remote call that can raise takes an injected fault: `Option<string>`, where `Some(message)` is the exception's text.
- Every clock reading is a parameter.
- The HMAC digest is a function parameter.
- The HTTP GET of a download is a function from URL to outcome.
- Slack reactions and replies are recorded, in order, in a trace of steps.

Two behaviours of `main.py` are easy to miss:

- The amount drops only the plain space (`str.replace(" ", "")`, `main.py:242`); tabs and other whitespace stay.
- The `\s*` after a label's separator can run across a line break. So `DATA: \nVALOR: 10` yields the date `VALOR: 10` (`Extraction.ValueCrossesNewline`).

## Model

| member | source | states |
|---|---|---|
| Strings.TrimLeft | main.py:177 | the result is a suffix of the input, every dropped character is whitespace, and the result does not start with whitespace |
| Strings.TrimRight | main.py:177 | the result is a prefix of the input, every dropped character is whitespace, and the result does not end with whitespace |
| Strings.Strip | main.py:177 | `str.strip()`: the result has no leading or trailing whitespace, is no longer than the input and uses only its characters |
| Strings.StripMiddle | main.py:177 | `str.strip()` keeps a contiguous middle slice: the result is the input from position `k` on, for its own length, and every character before `k` or after the slice is whitespace |
| Strings.StripFixed | main.py:192 | stripping a string with no surrounding whitespace leaves it unchanged |
| Strings.TrimLeftFixed | main.py:192 | a string not starting with whitespace is left unchanged by the left trim |
| Strings.TrimRightFixed | main.py:192 | a string not ending with whitespace is left unchanged by the right trim |
| Strings.TrimRightAppend | main.py:192 | trimming the right end of `a + b` where `b` is not all whitespace only trims `b` |
| Strings.StripKeepsPrefix | main.py:192 | stripping `a + b` where `a` has no surrounding whitespace keeps `a` in front, unchanged |
| Strings.ReplaceChar | main.py:239 | `str.replace` of one character by another: same length, the replaced character replaced everywhere, every other character kept |
| Strings.RemoveChar | main.py:242 | `str.replace(" ", "")`: the removed character no longer occurs, and the result is no longer than the input |
| Strings.RemoveCharCount | main.py:242 | the result holds every other character exactly as often as the input (the multisets agree except at the removed character), so its length is the input's less the number of occurrences |
| Strings.RemoveCharAppend | main.py:242 | removing a character distributes over concatenation |
| Strings.RemoveCharAbsent | main.py:242 | removing a character that does not occur changes nothing |
| Strings.RemoveCharSplit | main.py:242 | removing the only occurrence of a character just joins the parts around it |
| Strings.JoinStartsWithFirst | main.py:250 | `"_".join(parts)` begins with the first part, followed by `_` when there are two parts or more |
| Strings.JoinEndsWithLast | main.py:250 | `"_".join(parts)` ends with the last part |
| Strings.NatToDecimal | main.py:502 | the decimal rendering of a count is a non-empty string of digits whose value is the count, with no leading zero unless it is `0` itself |
| Strings.Pad | main.py:237 | `%02d`/`%04d`: exactly `width` digits |
| Strings.PadValue | main.py:237 | a zero-padded number below `10^width` reads back as the number |
| Calendar.DaysInMonth | main.py:236 | `strptime` knows month lengths: 31 days exactly for January, March, May, July, August, October and December; 30 exactly for April, June, September and November; February has 29 iff the year is a leap year, else 28 |
| Calendar.DayField | main.py:236 | the `%d` field is accepted iff it starts with a digit 1–9, or with `0` or a space followed by a digit 1–9; it reads one or two characters whose numeral value is the day, from 1 to 31; it reads two characters exactly when they are a space and a digit 1–9, or two digits spelling 01–31 |
| Calendar.MonthField | main.py:236 | the `%m` field is accepted iff it starts with a digit 1–9, or with `0` followed by a digit 1–9; it reads one or two characters (no leading space) whose numeral value is the month, from 1 to 12; it reads two characters exactly when they are two digits spelling 01–12 |
| Calendar.ParseDayMonthYear | main.py:236 | `strptime(s, "%d/%m/%Y")` only ever yields a real calendar date with a year from 1 to 9999 |
| Calendar.ParseDayMonthYearRoundTrip | main.py:236-237 | every valid date, written `DD/MM/YYYY`, parses back to itself |
| Calendar.ParseUnpaddedAll | main.py:236 | every valid date, written with unpadded day and month (`4/2/2025`) and a four-digit year, parses back to itself |
| Calendar.ParseDayMonthYearSound | main.py:236 | a parsed date is read from the text: a day numeral, `/`, a month numeral, `/`, then exactly four digits whose value is the year |
| Calendar.IsoDate | main.py:237 | `strftime("%Y-%m-%d")` is ten characters with `-` at positions 4 and 7 |
| Calendar.IsoDateReadsBack | main.py:237 | the year, month and day fields of `YYYY-MM-DD` are digits whose values are the date's year, month and day |
| Calendar.YearMonth | main.py:260-263 | `strftime("%Y-%m")` is seven characters with `-` at position 4 |
| Calendar.DayMonthYear | main.py:342 | `strftime("%d/%m/%Y")` is ten characters with `/` at positions 2 and 5 |
| Calendar.IsoDateExtendsYearMonth | main.py:237 | the `YYYY-MM-DD` rendering is the `YYYY-MM` rendering followed by `-` and the day, and `YYYY-MM` is a well-formed month name |
| Calendar.IsoDateInjective | main.py:237 | different dates render to different `YYYY-MM-DD` names |
| Calendar.Pad2Chars | main.py:237 | a two-digit rendering is the tens digit followed by the units digit |
| Calendar.Pad1Char | main.py:237 | a single digit renders as itself at width one |
| Calendar.Pad4Value | main.py:237 | a four-digit year rendering reads back as the year |
| Calendar.FourDigits | main.py:236 | a four-digit year field has the positional value of its digits |
| Calendar.ParsePadded | main.py:236 | `04/02/2025` parses to 4 February 2025 |
| Calendar.ParseUnpadded | main.py:236 | `4/2/2025` parses to the same date: day and month may be one digit |
| Calendar.ParseLeapDay | main.py:236 | 29/02 is accepted in the leap year 2024 |
| Calendar.ParseNoLeapDay | main.py:236 | 29/02 is rejected in 2023 |
| Calendar.ParseRejects | main.py:236 | day `00` and a two-digit year are rejected |
| Calendar.ParseRejectsYearZero | main.py:236 | year `0000` is rejected |
| Extraction.SkipSpaces | main.py:61-67 | a greedy `\s*` stops at the first non-whitespace character or the end |
| Extraction.LineEnd | main.py:61-67 | `(.+?)(?:\n|$)` ends the group at the first newline or the end of the text |
| Extraction.GroupStart | main.py:61-67 | the backtracked `\s*` hands the group the last position before the captured text that is not a newline, or none if there is none |
| Extraction.MatchAt | main.py:61-67 | a match attempted at a position exists iff the label is there, a `:` or `-` follows after optional whitespace, and some non-newline character follows that; the group is then non-empty and has no newline (what the group is, is stated by `Extraction.MatchLabelledLine`) |
| Extraction.FirstMatch | main.py:176 | `re.search` takes the leftmost position where the pattern matches: no earlier position matches |
| Extraction.Search | main.py:176 | `re.search` finds nothing iff the pattern matches at no position; what it finds is non-empty and has no newline |
| Extraction.SearchLeftmost | main.py:176 | when the first matching position is `p`, `re.search` returns the match at `p` |
| Extraction.Extract | main.py:172-178 | each extracted value has no newline and no surrounding whitespace, and is `""` unless its label occurs in the text |
| Extraction.ExtractFields | main.py:172-178 | all five values are clean (no newline, no surrounding whitespace); a non-empty `DATA` or `VALOR` means its label occurs in the text |
| Extraction.MatchLabelledLine | main.py:61-67 | at the label (any letter case), a run of whitespace, one `:` or `-` and more whitespace (line breaks included), followed by a value that starts with a non-space and ends at a newline or the end, matches with exactly that value as the group: `LABEL: v`, `LABEL:v`, `LABEL - v`, and a value on the next line |
| Extraction.ExtractLabelledLine | main.py:172-178 | when no earlier position holds the label, `extract_fields` gives the stripped value of such a line for that label |
| Extraction.ExtractCleanLine | main.py:172-178 | when that value also has no trailing whitespace, `extract_fields` gives the value itself |
| Extraction.RequiredFieldsIgnoreOptional | main.py:181-183 | a record is eligible iff `DATA` and `VALOR` are non-empty, whatever `BANCO`, `EMPRESA` and `CL` hold |
| Extraction.MissingLabelIgnored | main.py:181-183 | a message without the `DATA` label or without the `VALOR` label is never eligible |
| Extraction.DataMatchCrossesNewline | main.py:62 | in `DATA: \nVALOR: 10`, the `DATA` pattern tried at position 0 captures `VALOR: 10` |
| Extraction.ValueCrossesNewline | main.py:62 | `DATA: \nVALOR: 10` yields the date `VALOR: 10` |
| Extraction.ClMatchInsideWord | main.py:66 | in `XCL: y`, the `CL` pattern tried at position 1 captures `y` |
| Extraction.LabelInsideWord | main.py:66 | labels are not word-bounded: `XCL: y` yields `CL = y` |
| Naming.ReplaceForbidden | main.py:192 | every forbidden character becomes `_`, every other character is kept, and the length is unchanged |
| Naming.ReplaceForbiddenFixed | main.py:192 | a string without forbidden characters is unchanged |
| Naming.ReplaceForbiddenAppend | main.py:192 | replacement distributes over concatenation |
| Naming.DatePart | main.py:234-239 | the date part never holds `/`; when `DATA` parses it is ten characters with `-` at positions 4 and 7, otherwise it has `DATA`'s length, keeps every character that is not `/`, and has `-` wherever `DATA` has `/` |
| Naming.DatePartReadsBack | main.py:234-237 | when `DATA` parses, the date part's year, month and day fields read back as the parsed date |
| Naming.Sanitize | main.py:190-192 | a sanitized name has no forbidden character and no surrounding whitespace, is no longer than the input, and equals the stripped name with each forbidden character replaced by `_` (so, with `Strings.StripMiddle`, only edge whitespace is dropped) |
| Naming.StripReplaceForbidden | main.py:190-192 | replacing forbidden characters and stripping commute, since a forbidden character is never whitespace |
| Naming.SanitizeIdempotent | main.py:190-192 | sanitizing twice equals sanitizing once |
| Naming.SanitizeSafe | main.py:190-192 | a name that is already safe is left unchanged |
| Naming.SanitizeKeepsPrefix | main.py:192 | a safe leading part that ends in a non-space survives sanitizing unchanged |
| Naming.PresentParts | main.py:245-248 | the kept optional values are non-empty and stripped, and there are no more of them than inputs |
| Naming.PresentPartsSkipsBlank | main.py:245-248 | an optional field that is blank after strip contributes no part, wherever it stands |
| Naming.PresentPartsAllPresent | main.py:245-248 | when all optional fields are present they all appear, stripped, in order |
| Naming.FolderPartsAllPresent | main.py:231-248 | with `BANCO`, `EMPRESA` and `CL` all present, the name has exactly five parts: date part, amount without spaces, then the three fields stripped |
| Naming.FolderParts | main.py:231-248 | the name has between two and five parts: date, amount, then up to three optional fields |
| Naming.BuildFolderName | main.py:229-252 | every entry folder name is safe: no forbidden character and no surrounding whitespace |
| Naming.BuildFolderNameOfSafeJoin | main.py:250-252 | when the `_`-joined parts are already safe, the folder name is exactly that join |
| Naming.JoinFirst | main.py:250 | joining two or more parts puts the first part, then `_`, in front |
| Naming.MonthFolderNameWellFormed | main.py:255-263 | the month folder name is always a well-formed `YYYY-MM`, whether the date parses or the clock is used |
| Naming.MonthFolderName | main.py:255-263 | when `DATA` parses, the month folder name is the first seven characters of the entry's date part; otherwise it is the clock's `YYYY-MM` |
| Naming.IsoDateSafe | main.py:237 | an ISO date followed by `_` has no forbidden character and no surrounding whitespace |
| Naming.EntryNameStartsWithFirstPart | main.py:250-251 | when the first part is safe, the entry name starts with it followed by `_` |
| Naming.EntryNameStartsWithDate | main.py:234-237 | when `DATA` parses, the entry name starts with its zero-padded `YYYY-MM-DD` followed by `_` |
| Naming.IsoDateStartsWithMonth | main.py:237 | the first eight characters of `YYYY-MM-DD_` are the `YYYY-MM` rendering and `-` |
| Naming.EntryNameStartsWithMonth | main.py:234-237 | when `DATA` parses, the entry name starts with the month folder name followed by `-` |
| Naming.NoForbiddenKept | main.py:192 | stripping cannot bring back a forbidden character |
| Naming.EntryNameStartsWithRawDate | main.py:238-239 | when `DATA` does not parse but is otherwise clean, the entry name starts with it, `/` turned into `-`, and `_` |
| Naming.RawDateSafe | main.py:239 | a clean raw date with `/` replaced is safe in front of `_` |
| Scenarios.ExampleRendering | main.py:15-18 | 4 February 2025 renders as `2025-02-04` and `2025-02` |
| Scenarios.ExampleYear | main.py:15 | the year 2025 renders as `2025` |
| Scenarios.ExampleDatePart | main.py:8 | `04/02/2025` parses and gives the date part `2025-02-04` |
| Scenarios.ExampleValor | main.py:9 | `R$ 1.500,00` gives the amount part `R$1.500,00` |
| Scenarios.ExampleStripped | main.py:10-12 | `Itau`, `Empresa XYZ` and `CC001` are unchanged by `strip()` |
| Scenarios.ExampleOptional | main.py:10-12 | `Itau`, `Empresa XYZ` and `CC001` are all kept |
| Scenarios.ExampleParts | main.py:7-12 | the example record yields exactly the five expected parts |
| Scenarios.JoinFive | main.py:250 | joining five parts with `_` puts `_` between consecutive parts |
| Scenarios.ExampleJoin | main.py:18 | the parts join to `2025-02-04_R$1.500,00_Itau_Empresa XYZ_CC001` |
| Scenarios.ExampleNameSafe | main.py:18 | that joined name is already safe |
| Scenarios.ExampleMonthFolder | main.py:17 | the example's month folder is `2025-02` |
| Scenarios.ExampleEntryFolder | main.py:18 | the example's entry folder is `2025-02-04_R$1.500,00_Itau_Empresa XYZ_CC001` |
| Scenarios.ExampleMessageFields | main.py:6-12 | the example message extracts to exactly the example record, and that record is eligible |
| Scenarios.ExampleDashSeparator | main.py:63 | `VALOR - 10` yields `VALOR = 10`: the `-` separator is not part of the value |
| Scenarios.ExampleValueOnNextLine | main.py:62 | `DATA:` with no space and the date on the next line yields that date |
| Drive.FirstFolder | main.py:197-213 | the lookup selects the first non-trashed folder with exactly that name under that parent, and nothing before it qualifies |
| Drive.FindFolderFirst | main.py:197-213 | the lookup finds nothing iff no entry is a non-trashed folder with that name under that parent; otherwise it returns the id of the first such entry |
| Drive.FindAfterAppend | main.py:215-226 | a folder created because the lookup found nothing is what the same lookup finds afterwards |
| Drive.FindStableUnderAppend | main.py:212-213 | creating further entries never changes what an earlier successful lookup finds |
| Drive.DriveStore.FindOrCreateFolder | main.py:195-226 | an existing folder's id comes back with the store unchanged; otherwise exactly one fresh folder with that name and parent is appended; a raising call changes nothing; afterwards the lookup finds the returned id |
| Drive.DriveStore.UploadFile | main.py:291-305 | an upload appends exactly one file with that name, parent, mimetype and content, under a fresh id |
| Drive.FindOrCreateTwice | main.py:195-226 | an immediate second call for the same name and parent returns the same id, and the two calls together add at most one folder |
| Drive.InFolderPathStable | main.py:273-279 | a resolved root → month → entry path stays resolved when entries are added |
| Drive.PathCreates | main.py:273-279 | the two lookups add at most two folders, and none iff the path root → month → entry already resolves |
| Drive.PathFolderExisting | main.py:273-279 | when the path already resolves, nothing is created and the entry folder is the one found |
| Drive.PathCreatesIdempotent | main.py:273-279 | after the folders are created the path resolves to the predicted folder, and a second pass creates nothing |
| Drive.PathStepsAdd | main.py:273-279 | two find-or-create steps, month then entry, add exactly `PathCreates` and end at the predicted folder |
| Drive.FolderStepEntries | main.py:273-279 | what the folder steps add when one raises: a prefix of `PathCreates`, nothing when the month step raises, all of it when neither lookup raises |
| Drive.CreateFolderPath | main.py:273-288 | the store gains exactly `FolderStepEntries` under fresh ids; on success the folder is the predicted one, the path resolves to it, and the link is its `webViewLink` or `""`; it fails iff one of the three calls raises, with the first error |
| Drive.CreateEntryFolder | main.py:266-288 | the same, for the month and entry names `get_month_folder_name` and `build_folder_name` give for the record |
| Drive.CreateFolderPathTwice | main.py:266-288 | two runs without faults return the same folder and link, and together add only what the first one adds |
| Attachments.DownloadUrl | main.py:318-321 | the URL is `url_private_download` if non-empty, else `url_private` if non-empty, else the file is skipped |
| Attachments.DownloadAll | main.py:317-333 | the kept downloads are never more than the files |
| Attachments.DownloadSlackFiles | main.py:312-333 | the loop returns exactly what the specification `DownloadAll` gives |
| Attachments.DownloadFailureSticks | main.py:323 | once a GET has raised, later files do not change the outcome |
| Attachments.KeptIndices | main.py:317-329 | the indices of the files with a URL that answered 200, strictly increasing, all of them |
| Attachments.KeptIndicesAgree | main.py:317-329 | which files are kept depends only on those files |
| Attachments.DownloadAllSelects | main.py:317-333 | a download that ends normally is an order-preserving selection: exactly the files with a URL that answered 200, with their bodies and their names and mimetypes or `arquivo` and `application/octet-stream` |
| Attachments.DownloadFailsIffRaise | main.py:323 | the download raises iff some file with a URL raised, and then with the message of the first such file |
| Attachments.DownloadExample | main.py:317-333 | of a 200, a URL-less file and a 404, only the first is kept, under the default name |
| Ledger.Timestamp | main.py:342 | `%d/%m/%Y %H:%M:%S` is 19 characters, begins with the `DD/MM/YYYY` of the date, separators sit where they should, and the hour, minute and second fields are two digits reading back as the clock's values |
| Ledger.TimestampDateRoundTrip | main.py:342 | the date half of the registration timestamp parses back to the day it was taken |
| Ledger.LedgerRow | main.py:344-352 | the appended row has exactly seven cells |
| Ledger.WithHeader | main.py:380-387 | the header write leaves row 1 starting with the seven titles and keeps the cells right of `G1`; rows below are untouched |
| Ledger.WithHeaderNotBlank | main.py:378-380 | after the header write, `A1:G1` is no longer blank |
| Ledger.HeadersAfter | main.py:369-390 | the header goes in only when both calls succeed over a blank `A1:G1`; a raising call or a non-blank first row leaves the sheet as it was; rows below the first are never touched; after two successful calls the first row is not blank |
| Ledger.WithHeaderIdempotent | main.py:380-387 | writing the header over a headed sheet changes nothing |
| Ledger.Sheet.EnsureHeaders | main.py:369-390 | the header is written only when `A1:G1` is blank and neither call raised; otherwise the sheet is unchanged and nothing is raised |
| Ledger.Sheet.AppendRow | main.py:340-360 | exactly one row `[DATA, VALOR, BANCO, EMPRESA, CL, link, timestamp]` after the existing rows, which stay as they were; nothing on a raising call |
| Ledger.EnsureHeadersTwice | main.py:369-390 | a second header check after a first one changes nothing more |
| Webhook.ParseInt | main.py:123 | a timestamp is accepted iff it is an optional `+` or `-` followed by at least one ASCII digit; a negative value comes only with a `-` |
| Webhook.ParseIntDecimal | main.py:123 | decimal numerals, with or without a sign, parse back to their value |
| Webhook.SignatureCheck | main.py:110-135 | with no signing secret, or a missing timestamp or signature header, the request passes unchecked; with all three present, a timestamp `int()` refuses is rejected; a passing checked request has a timestamp within 300 s of the clock and the expected signature |
| Webhook.SignatureOfValue | main.py:122-135 | for any parsed timestamp value: overflow of `float()` raises, out of the window is rejected, and otherwise the verdict follows the digest comparison |
| Webhook.SignatureOfNumeral | main.py:110-135 | for a decimal timestamp `n` with a secret and a signature: `n >= 2^1024 - 2^970` raises (`float(int)` overflows); more than 300 s away from the clock is rejected; otherwise, with an ASCII expected digest, a non-ASCII signature raises (`compare_digest` refuses it) and the request passes iff the signature equals `v0=` and the HMAC of `v0:{timestamp}:{body}` |
| Webhook.GateSignature | main.py:411-418 | a POST is answered 403 iff the signature check returns false, and 500 when the check raises |
| Webhook.Gate | main.py:411-464 | a request chosen for processing always carries a non-empty `DATA` and `VALOR` |
| Webhook.GateProcessIff | main.py:411-464 | a request is processed iff it is not a GET, passes the signature check, has a non-empty JSON object that is not `url_verification`, is not a retry, carries a `message` event with no bot id, a subtype that is absent or `file_share`, the configured channel, and eligible fields; it is processed with its own channel, timestamp, fields and files |
| Webhook.GateIgnores | main.py:432-453 | a retry, a bot's message or a message from another channel is never processed |
| Webhook.SuccessReply | main.py:500-511 | the success reply starts with `*Lancamento registrado!*`, a newline, `Pasta: `, the link and a newline; it then says `Nenhum comprovante anexado` for no files and ends with ` arquivo(s) salvos` otherwise |
| Webhook.SuccessReplyCount | main.py:500-505 | with files, the text between the link line and ` arquivo(s) salvos` is the decimal file count |
| Webhook.ErrorReply | main.py:518 | the error reply is `Erro ao processar lancamento: ` followed by the error text, nothing else |
| Webhook.FirstFault | main.py:486-487 | a sequence of calls raises nothing iff none of them raises, and otherwise raises one of their errors |
| Webhook.FirstFaultIndex | main.py:486-487 | the position of the first raising call: every earlier call succeeds, and the call there raises unless it is the end |
| Webhook.FirstFaultAt | main.py:486-487 | uploads that succeed up to a position and raise there fail with that upload's error; uploads that all succeed raise nothing |
| Webhook.UploadSteps | main.py:486-487 | one upload step per uploaded file, in order, and no row append among them |
| Webhook.UploadedEntries | main.py:486-487 | the files the uploads create: exactly one per upload |
| Webhook.UploadedEntriesAt | main.py:486-487 | the `k`-th created file has the `k`-th upload id and lies in the entry folder, with the `k`-th download's name, mimetype and content |
| Webhook.UploadedEntriesSnoc | main.py:486-487 | one more upload adds one more entry at the end |
| Webhook.UploadAll | main.py:486-487 | the uploads stop at the first raising one; the store gains exactly the uploaded files, in order, under consecutive fresh ids |
| Webhook.Notifications | main.py:496-518 | exactly a reaction then a reply to the message, neither a row append: `white_check_mark` and the success reply with the link and count for a recorded entry, `x` and the error reply for a failed one |
| Webhook.FailureOf | main.py:466-518 | a run raises nothing iff the services, the three folder calls, the downloads, every upload and the append all succeed; a services failure is the error |
| Webhook.RecordFailure | main.py:483-493 | the steps after the folders raise nothing iff the downloads, every upload and the append succeed; a download failure is the error |
| Webhook.UploadCount | main.py:486-487 | the uploads done are never more than the downloads |
| Webhook.FreshIds | main.py:486-487 | `n` consecutive ids from `next` |
| Webhook.TransferFiles | main.py:483-488 | a raising download uploads nothing; otherwise every download is uploaded until the first raising upload, under consecutive fresh ids, and the error is that upload's |
| Webhook.RecordEntry | main.py:483-518 | after the folders, the outcome, the steps, the store and the sheet are exactly those the specification `RecordOutcome`/`AfterFolders` gives: uploads up to the first raising one, one row only on success, then the two notifications |
| Webhook.FileEntry | main.py:478-518 | from the folders on, the outcome, steps and store are exactly the run specification `RunOutcome`/`RunSteps`/`RunEntries`, and one row is appended iff the entry is recorded |
| Webhook.ProcessNamed | main.py:466-518 | the whole `try` block for given folder names: outcome, steps, store and sheet are exactly `RunOutcome`, `RunSteps`, `RunEntries` and `RunRows`, also when a step raises |
| Webhook.ProcessEntry | main.py:466-518 | the same for the record's month and entry folder names; and any exception, and only an exception, means no row and the run ends with `x` and the error text; a success records exactly one row, in the resolved folder path, with every downloaded file uploaded |
| Webhook.Handle | main.py:397-520 | a request the gate does not process touches no store and has no Slack effect; a processed one always answers `{"ok": True}`, and its outcome, steps, store and sheet are those of the run specification |
| Webhook.RunEndsNotified | main.py:466-518 | in the run specification, a run fails iff some call raises, with that call's error; the last two steps are the notifications; a failed run appends no row |
| Webhook.RunFolderFault | main.py:473-478 | when the services or a folder call raise: no upload, no row, no folder step; at most two folders are added, none when the services or the month lookup raise |
| Webhook.RunFoldersRaise | main.py:478 | a raising folder call ends the run with its error right after the header check, and leaves what the folder steps added |
| Webhook.RunDownloadFault | main.py:485 | a raising download ends the run after the folders with its error: folders created, nothing uploaded |
| Webhook.RunUploadFault | main.py:486-487 | when upload `k` is the first to raise, the run fails with its error after uploading exactly the first `k` downloads |
| Webhook.RunPastFolders | main.py:479-518 | once both folders exist, the run is the steps after the folders, with uploads numbered past the folders created |
| Webhook.RunRecorded | main.py:466-518 | a recorded run leaves the resolved folder path with every download uploaded at the end of the store, and its steps are header check, folder, uploads, row, reaction, reply |

## Left out

- Credentials and client construction (`get_google_credentials`, `get_services`): only their failure is modelled, as the services fault of a processing run.
- The Drive, Sheets and Slack Web API wire formats: each call is a state change of an in-memory store, or a recorded step, and may raise.
- `send_slack_reaction` and `send_slack_reply` swallow their own errors, so they are recorded steps that never fail. Their HTTP requests are not modelled.
- HMAC-SHA256 is not modelled: it is a function parameter, and `hmac.compare_digest` is string equality.
- Webhook.ParseInt: Python's `int()` also accepts surrounding whitespace and `_` between digits. The model accepts only an optional sign followed by ASCII digits.
- Webhook.SignatureCheck: `time.time()` is a float. The model compares whole seconds, so a timestamp exactly at the 300 s edge may be decided differently within that second.
- Webhook.SignatureCheck: newer CPython refuses `int()` of a numeral longer than 4300 digits with `ValueError`, which the handler answers with 403. The model has no such limit and parses those numerals like any other, so a long one is answered 500 (float overflow), or decided by its value when it is mostly leading zeros.
- The root folder id is taken to be an id the Drive store has already issued (`cfg.rootFolder < nextId`).
- The processing run reads the clock twice: once for the month folder fallback and once for the row timestamp. They are two independent parameters, so a run across midnight is allowed.
- The Drive query is built by string interpolation without escaping. A name containing `'` breaks the query in the real system, because the sanitiser keeps `'`. The model's lookup is exact name equality.
- The race between the lookup and the creation in `find_or_create_folder` is not modelled: the model is sequential.
- Ledger.Sheet.AppendRow: the Sheets append finds the end of the table in `A:G`. The model appends after the last row, and does not model blank rows inside the sheet.
- Ledger.Sheet.AppendRow: `valueInputOption="USER_ENTERED"` (`main.py:357`) makes Sheets parse the cells as if typed, so `04/02/2025` may be stored as a date and `R$ 1.500,00` as a number. The model stores the strings as sent.
- Naming.MonthFolderNameWellFormed: `%Y` is rendered with four digits. This holds only on a runtime whose `%Y` zero-pads years below 1000; the same holds for Calendar.IsoDate.
- Non-ASCII whitespace, digits and case folding are not modelled. Python's `\s`, `str.strip`, `\d` in `strptime` and `re.IGNORECASE` also act on Unicode characters; the model uses ASCII only.
- JSON values of unexpected types are not modelled: a payload that is not an object, or an `event`, `text` or `files` that is not an object, string or list. The model takes the types the handler expects.
- Logging, `traceback.print_exc` and the health check's JSON body are not modelled. They are not behaviour, and the health check is the `HealthCheck` response.
- Download bodies are byte sequences. `MediaIoBaseUpload` and resumable uploads are not modelled.
