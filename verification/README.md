# LightHouseAudit run pipeline, modelled in Dafny

This project models `lighthouse-audit.js`, the script that audits one web page and passes the result on. The script does the following, in order:

1. It launches headless Chrome and runs the Lighthouse audit engine against the URL.
2. It writes the raw report as `audit.json` into a folder. The folder is named after the sanitised URL and a file-system-safe timestamp.
3. It reads the report back from that file.
4. It derives four category records from the report: performance, accessibility, best practices and SEO. Each record carries the score out of 100, the status against the optimal value 80, the URL and the shared timestamp.
5. It posts a payload to a webhook. The payload holds the four records, the folder name and the report text.
6. It kills Chrome in a `finally` block.

The project has four modules:

- `Wrappers` (`wrappers.dfy`): `Option` and `Result`.
- `Naming` (`naming.dfy`): `sanitizeUrl`, the safe timestamp and the folder name, as functions over `string` with lemmas (length, character class, idempotence, unique split, worked examples).
- `Metrics` (`metrics.dfy`): the report, the four category records, the status rule and the `"N/A"` fallback.
  - Extraction is a function returning a `Result`. A report lacking an entry that the source dereferences gives the TypeError that the source throws.
- `Pipeline` (`pipeline.dfy`): the imperative part.
  - `Chrome` is the browser handle. It has an `alive` flag and a kill counter.
  - `Host` is the process state: the directories (`set<Path>`), the files (`map<Path, string>`) and the payloads the webhook acknowledged with a success response (`seq<Payload>`). Its methods model `mkdirSync`, `writeFileSync`, `readFileSync`, `sendToMake`, the body of the `try` block and `runLighthouse` with its `catch`/`finally`.
  - Everything the world outside decides is an `Environment` parameter: whether Chrome launches, what the audit engine returns or throws, the clock's ISO time, how the file system fails on which paths (refusing to create a path, or interrupting a write part-way), which files cannot be read back, and whether the post gets a success response.
  - `JSON.stringify(lhr, null, 2)` is a function parameter.

An absent audit entry is not the same as an absent display string. When the report has no entry such as `cumulative-layout-shift`, `lhr.audits[key].displayValue` throws a TypeError (lighthouse-audit.js:106-109). The `catch` at lighthouse-audit.js:175-176 logs it, and nothing is sent. `"N/A"` appears only when the entry exists and its `displayValue` is missing or empty (`Metrics.PerformanceDetailsFallback`, `Metrics.ExtractSucceedsIff`). The folder name is not unique per URL and instant. Sanitising is lossy, so `http://a.b` and `http_//a_b` get the same folder at the same instant (`Naming.SanitizeUrlCollides`).

## Model

| member | source | states |
|---|---|---|
| `Naming.Replace` | lighthouse-audit.js:11 | A global one-character-class `replace` keeps the length, puts the replacement at every matched index and keeps every other character at its index |
| `Naming.SanitizeUrl` | lighthouse-audit.js:10-12 | The sanitised URL has the URL's length; every character is an ASCII letter, a digit or `_`; letters and digits are unchanged at the same index; every other character became `_` |
| `Naming.SanitizeUrlIdempotent` | lighthouse-audit.js:10-12 | Sanitising twice equals sanitising once |
| `Naming.SanitizeUrlExample` | lighthouse-audit.js:10-12 | `https://example.com/path?q=1` sanitises to `https___example_com_path_q_1` |
| `Naming.SanitizeUrlCollides` | lighthouse-audit.js:74-80 | Two different URLs (`http://a.b`, `http_//a_b`) have the same sanitised form, so they share a folder name at the same instant |
| `Naming.SafeTimestamp` | lighthouse-audit.js:76-77 | The safe timestamp has the ISO timestamp's length and contains no `:` or `.`; each `:` and `.` became `-`; every other character is unchanged |
| `Naming.SafeTimestampIdempotent` | lighthouse-audit.js:77 | Making a safe timestamp safe again changes nothing |
| `Naming.SafeTimestampExample` | lighthouse-audit.js:76-77 | `2024-01-01T00:00:00.000Z` becomes `2024-01-01T00-00-00-000Z` |
| `Naming.FolderNameSplits` | lighthouse-audit.js:74-80 | The folder name is the sanitised URL, then `-`, then the safe timestamp; the URL part holds no `-`, so the first `-` is the joining one |
| `Naming.FolderNameDeterminesParts` | lighthouse-audit.js:74-80 | Two runs with the same folder name have the same URL length, the same sanitised URL and the same safe timestamp |
| `Naming.FolderNameExample` | lighthouse-audit.js:74-80 | `http://test.com` at `2024-01-01T00:00:00.000Z` gives folder `http___test_com-2024-01-01T00-00-00-000Z` |
| `Metrics.OrNotAvailable` | lighthouse-audit.js:106-109 | `displayValue \|\| "N/A"` is the engine's display string when that is present and non-empty, and `"N/A"` when it is absent or empty; it is never empty |
| `Metrics.StatusRule` | lighthouse-audit.js:91-99 | A category meets the optimal value iff `raw * 100 >= 80`, boundary included; otherwise it needs improvement |
| `Metrics.StatusExamples` | lighthouse-audit.js:94-99 | 0.873 gives 87.3 and meets; 0.8 gives 80 and meets; 0.42 gives 42 and needs improvement; the two status texts |
| `Metrics.ExtractSucceedsIff` | lighthouse-audit.js:94-161 | Extraction succeeds iff the report holds the four category entries and the four performance audit entries it dereferences |
| `Metrics.ExtractErrorIsMissingEntry` | lighthouse-audit.js:94-161 | A failed extraction names a category or audit entry that is read and absent |
| `Metrics.ExtractSnapshot` | lighthouse-audit.js:91-161 | Each record carries the run's URL and timestamp, optimal 80, its category's description, the raw score times 100 and the status of that score; only performance has details |
| `Metrics.PerformanceDetailsFallback` | lighthouse-audit.js:106-109 | Each of fcp, lcp, cls and speedIndex is the audit's display string when present and non-empty, and `"N/A"` when it is absent or empty |
| `Metrics.DisplayValuesNeverFail` | lighthouse-audit.js:100-111 | Display strings never decide whether extraction fails: reports with the same scores and audit keys both succeed or both fail, with the same scores and statuses |
| `Pipeline.PayloadSnapshot` | lighthouse-audit.js:164-171 | All records share URL, timestamp and optimal value; the folder name is built from the records' own URL and timestamp, and its timestamp part is that timestamp made safe; `audit.json` sits in that folder; the embedded text is the text given |
| `Pipeline.Truncated` | lighthouse-audit.js:85 | What an interrupted write leaves is a prefix of the content, as long as the characters written or the whole content |
| `Pipeline.Chrome.Launch` | lighthouse-audit.js:26-50 | A launched browser is alive and has not been killed |
| `Pipeline.Chrome.Kill` | lighthouse-audit.js:178 | Killing marks the browser dead and adds one to its kill count |
| `Pipeline.Host.MakeDirectory` | lighthouse-audit.js:73-82 | Recursive mkdir creates the missing ancestors shortest first. It succeeds iff no ancestor is a file or a refused new directory, and then adds the path and all its ancestors. Otherwise it fails at the first such ancestor and keeps exactly the ancestors before it |
| `Pipeline.Host.WriteFile` | lighthouse-audit.js:84-85 | The write succeeds iff the parent directory exists, the path is not a directory and no fault hits it; it then maps the path to the content. A refused or impossible open changes nothing. An interrupted write leaves the file truncated to the characters written before the fault |
| `Pipeline.Host.ReadFile` | lighthouse-audit.js:88-89 | Reading succeeds iff the path is a readable file, and yields exactly that file's content; a directory gives EISDIR and a missing path ENOENT |
| `Pipeline.Host.SendToMake` | lighthouse-audit.js:14-23 | Posting never throws; the payload is appended to the acknowledged posts when the webhook answers with success, and nothing changes otherwise |
| `Pipeline.Host.SaveReport` | lighthouse-audit.js:72-85 | Saving succeeds iff both recursive mkdirs and the write get through. The directories grow at most by the run folder's ancestry. No file other than `audit.json` changes. On success `audit.json` holds exactly the serialised report; on failure the files are unchanged or `audit.json` holds a truncated write |
| `Pipeline.Host.AuditAndDeliver` | lighthouse-audit.js:67-176 | The `try` block. An engine error is returned and touches nothing. Only the run folder's ancestry and `audit.json` can change, and a changed `audit.json` holds a prefix of the serialised report. A persistence error (mkdir, write or read-back) is returned iff persisting is impossible. Once persisted, the block ends without error iff extraction succeeds. Nothing is posted unless every step succeeded. On success the posted payload's `auditJsonFile` is the text in `audit.json` |
| `Pipeline.Host.RunLighthouse` | lighthouse-audit.js:25-179 | A launch failure rejects before anything changes, and no kill happens. Once launched, the run settles without throwing, and the fresh browser is dead and killed exactly once. The file-system effects are those of the `try` block on every path. The run ends without a logged error iff engine, persistence and extraction succeed. Nothing is posted otherwise. On success `audit.json` holds the serialised report, and any payload posted embeds exactly that text under that folder name |

## Left out

- `server.js` is not part of this model: Express routing, CORS, static files and the child process are I/O plumbing. Its only check rejects an empty URL in the request.
- Chrome's flag list and Lighthouse's options (lighthouse-audit.js:27-65) are left out, and so is the engine's scoring. The engine is the `Environment.engine` outcome, a report or an error message.
- `axios.post` (lighthouse-audit.js:18) is the `Environment.delivers` flag, which says whether the post got a success response. The response and the logged error are left out.
- `JSON.stringify` formatting is left out. The serialiser is an opaque function parameter.
- `path.join`, `__dirname` and real file-system semantics are simplified. A path is a list of components, and file-system faults are the `Environment.faults` map and the `Environment.unreadable` set. The simplified error rules are ENOENT, ENOTDIR/EEXIST and EISDIR.
- Pipeline.Host.WriteFile: an interrupted write is measured in characters, not UTF-8 bytes. A write cut inside a multi-byte character is not modelled.
- Every awaited step is assumed to settle. `await lighthouse(...)` (lighthouse-audit.js:68) and `axios.post` (lighthouse-audit.js:18, no timeout) could stay pending forever. Chrome would then never be killed, because the `finally` at lighthouse-audit.js:177-178 never runs.
- Pipeline.Host.SendToMake: `sent` holds only the posts answered with a success response. On a non-2xx reply axios rejects after the webhook has already received the body, and the model records nothing for that post.
- `new Date().toISOString()` is the `Environment.now` string. Console logging is left out.
- `async`/`await` suspension is left out. The run is sequential.
- Scores are `real`, so IEEE-754 rounding of `score * 100` is not modelled.
  - A `null` or missing `score` is not modelled. In the source it gives `0` or `NaN`; its status is "Needs Improvement" because the `typeof … === "number"` guard or the comparison fails.
- Naming.SanitizeUrl: JavaScript strings are UTF-16 code units, and Dafny characters are Unicode scalar values. A character outside the Basic Multilingual Plane becomes `__` in the source and `_` here, so the length equality is stated in scalar values.
- Metrics.Extract: the order in which the source reads the entries decides which missing entry the error names. The model keeps that order. The error text itself is left out.
