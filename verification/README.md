# GitPulse backend: cache-first contribution fetch

GitPulse is a desktop widget that shows a GitHub user's daily contribution
counts as a heatmap. Its Tauri backend offers a `fetch_contributions` command
that reads a per-user cache file under the application data directory, serves
it when it is at most 300 whole seconds old, and otherwise asks GitHub's
GraphQL API, flattens the calendar it returns into a list of days, and writes
that list through to the cache. A `clear_cache` command empties the cache
directory.

This project models that pipeline in Dafny and proves its contracts:

- `json.dfy` (`Json`): the parsed JSON value and the serde_json accessors the
  code uses (`get`, indexing that yields `null`, `as_array`, `as_str`, `as_i64`).
- `contribution.dfy` (`Contribution`): `ContributionDay` (as `Day`), the
  `FetchResult` reply, and Rust's `as i32` as an explicit wrap to 32 bits.
- `decimal.dfy` (`Decimal`): the decimal text of an HTTP status number.
- `github.dfy` (`GitHub`): everything `fetch_from_github` does once the answer
  has arrived — status check, GraphQL error check, the walk down to the weeks,
  the flattening (as a reference function and as the source's nested loops),
  and the error texts — plus a response builder that serves as its inverse.
- `cache.dfy` (`Cache`, `CacheProperties`): the cache path, the freshness
  rule, and `load_from_cache`, `save_to_cache` and `clear_cache` over a file
  system held as a set of directories and a map from path to file.
- `commands.dfy` (`Commands`): `fetch_contributions` as a function returning
  the reply, the file system afterwards and whether the network was asked.
- `wrappers.dfy` (`Wrappers`): `Option` and `Result`.

Modelling choices:

- The clock is an integer number of milliseconds. The freshness check divides
  the elapsed time by 1000 and truncates, as `Duration::as_secs` does, so a
  file is served up to 300.999 s after it was written and refused from 301 s.
- A file whose modification time cannot be read, or lies in the future (so
  that no elapsed time exists), is served as fresh.
- Paths are text. Joining follows `PathBuf::join` on Unix: a component
  starting with `/` replaces everything before it. The code does not sanitise
  the username; it is pasted into the file name unchanged. A username starting
  with `/` places the cache file wherever the username names, which can be
  outside the cache directory, and can share a file with an ordinary username (`CacheProperties.UsernameEscapesCacheDir`,
  `CacheProperties.UsernamesCollide`). Any other username containing `/`
  (`../x`, `./x`, `a//b`) can also leave the cache directory or share a file
  with another username once the operating system resolves the path, which
  the text model does not do; the lemmas that speak of files inside the cache
  directory or of distinct files are therefore stated only for usernames
  without any `/`.
- `load_from_cache` leaves an expired file in place: `Load` never changes the
  file system.
- Counts may be negative: the code reads any 64-bit integer and converts it
  with `as i32`, so every 32-bit value can appear.
- The outcome of the HTTP request, and the errors the operating system reports
  for writes and removals, are inputs to the model.

## Model

| member | source | states |
|---|---|---|
| Contribution.WrapI32 | src-tauri/src/commands.rs:127 | `as i32` yields a 32-bit value congruent to the 64-bit count modulo 2^32 |
| Contribution.WrapI32Identity | src-tauri/src/commands.rs:127 | a count that already fits in 32 bits passes through `as i32` unchanged |
| Contribution.WrapI32Unique | src-tauri/src/commands.rs:127 | `as i32` yields the only 32-bit value congruent to its input |
| Decimal.FromNat | src-tauri/src/commands.rs:103 | the status number is written as a non-empty run of digits with no leading zero |
| Decimal.FromNatRoundTrip | src-tauri/src/commands.rs:103 | reading the written status number back gives the number, so distinct statuses are written differently |
| GitHub.Decode | src-tauri/src/commands.rs:100-119 | a failed send is a network error; a non-2xx status is an API error whatever the body; a 2xx answer whose body is not JSON is a parse error; an `errors` key refuses the answer even beside `data`; success exactly when the status is 2xx, the body is JSON, there is no `errors` key and `weeks` is an array, and then the days are the flattened weeks; a non-array `weeks` is exactly the "Invalid response structure" case |
| GitHub.FetchFromGitHub | src-tauri/src/commands.rs:100-119 | a failed send gives "Network error: " and its detail; a non-2xx status gives "GitHub API error: " with the status number and its reason phrase (or "<unknown status code>"); an unparsable 2xx body gives "JSON parse error: " and its detail; an `errors` key gives "GraphQL error: " and the JSON text of its value; otherwise a non-array `weeks` gives "Invalid response structure" and an array gives the flattened days |
| GitHub.ApiStatusTextsDistinct | src-tauri/src/commands.rs:103 | two different statuses never give the same "GitHub API error" text, whatever their reason phrases |
| GitHub.DecodeDaysAppend | src-tauri/src/commands.rs:124-129 | decoding a run of day objects in two pieces gives the same days as decoding it whole |
| GitHub.FlattenWeeks | src-tauri/src/commands.rs:121-131 | the source's nested loops produce the in-order concatenation of every week's days, as many as the weeks' arrays hold together |
| GitHub.FlattenAppend | src-tauri/src/commands.rs:121-131 | flattening two runs of weeks is flattening each and concatenating the results |
| GitHub.FlattenLength | src-tauri/src/commands.rs:121-131 | the output length is the sum of the lengths of the weeks' `contributionDays` arrays |
| GitHub.FlattenWeekSlot | src-tauri/src/commands.rs:122-129 | week k's days appear in their own order right after the days of all weeks before k |
| GitHub.NonArrayWeekSkipped | src-tauri/src/commands.rs:123 | a week whose `contributionDays` is not an array contributes nothing |
| GitHub.DayDefaults | src-tauri/src/commands.rs:126-127 | a missing or non-string date becomes ""; a missing, non-integer or beyond-64-bit count becomes 0; a count within 32 bits is kept; a 64-bit count is wrapped to 32 bits |
| GitHub.DecodeEncodeDay | src-tauri/src/commands.rs:125-128 | a day object built from a day decodes back to that day |
| GitHub.DecodeEncodeRoundTrip | src-tauri/src/commands.rs:117-133 | a 2xx answer built from weeks of days decodes to exactly those days, week after week |
| GitHub.NonSuccessIgnoresBody | src-tauri/src/commands.rs:102-104 | a non-2xx status fails before the body is inspected: two answers differing only in body decode alike |
| GitHub.NullErrorsStillRefused | src-tauri/src/commands.rs:112-114 | an `errors` key holding `null` still refuses an otherwise valid answer |
| GitHub.SingleDayExample | src-tauri/src/commands.rs:117-131 | one week with the day 2025-01-15 and count 5 decodes to that single day |
| GitHub.NotFoundMessage | src-tauri/src/commands.rs:103 | a 404 answer reads "GitHub API error: 404 Not Found" |
| Cache.GetCachePath | src-tauri/src/commands.rs:182-189 | fails exactly when the app data directory is unknown, with "Failed to get app data dir: " and its error; otherwise the path text is the cache directory, "/", the username unchanged and "_contributions.json", except that a username starting with `/` discards the cache directory and gives the username plus "_contributions.json" |
| Cache.IsExpired | src-tauri/src/commands.rs:147-156 | a file is expired exactly when it has an mtime and at least 301 000 ms (301 whole seconds) have elapsed since it |
| Cache.Load | src-tauri/src/commands.rs:137-160 | no app data directory or no file is a failure; success exactly when the file exists, is not expired and holds days, and then those days are returned |
| Cache.Save | src-tauri/src/commands.rs:163-179 | succeeds exactly when the app data directory is known and the OS reports no fault; success stores the days with mtime `now` at the user's path and changes no other file; failure changes nothing; directories only grow; file directories stay in place |
| Cache.Clear | src-tauri/src/commands.rs:193-207 | an absent cache directory is a success that changes nothing; success keeps every file outside the cache directory and adds none; a file left inside it implies the directory was absent |
| Cache.ClearEmptiesCacheDir | src-tauri/src/commands.rs:199-204 | after a successful clear no file remains inside the cache directory |
| Cache.ClearKeepsWellFormed | src-tauri/src/commands.rs:201-204 | clearing keeps the directories of every remaining file |
| CacheProperties.CacheDirShape | src-tauri/src/commands.rs:199 | the cache directory is `<app data>/cache` |
| CacheProperties.CachePathRelative | src-tauri/src/commands.rs:188 | the cache file is `<app data>/cache/` + username + `_contributions.json`, inside the cache directory, for a username without any `/` |
| CacheProperties.CachePathInjective | src-tauri/src/commands.rs:188 | on a case-sensitive file system, distinct usernames without any `/` never share a cache file |
| CacheProperties.AbsoluteUsernameReplacesPath | src-tauri/src/commands.rs:188 | a username starting with `/` replaces the whole path |
| CacheProperties.UsernameEscapesCacheDir | src-tauri/src/commands.rs:188 | the username "/tmp/x" puts the cache file outside the cache directory |
| CacheProperties.UsernamesCollide | src-tauri/src/commands.rs:188 | "octocat" and "/data/cache/octocat" share one cache file |
| CacheProperties.FreshnessBoundary | src-tauri/src/commands.rs:151 | 300 s and 300.999 s are served, 301 s is expired |
| CacheProperties.ExpiryIsMonotone | src-tauri/src/commands.rs:149-156 | once expired, a file stays expired as the clock advances |
| CacheProperties.SaveThenLoad | src-tauri/src/commands.rs:137-179 | saving days and loading before 301 s have passed returns exactly those days |
| CacheProperties.SaveThenLoadExpired | src-tauri/src/commands.rs:151-153 | loading 301 s or more after saving reports the file expired |
| CacheProperties.SaveLeavesOthers | src-tauri/src/commands.rs:163-179 | on a case-sensitive file system, saving for one username does not change another's cache read, when neither holds a `/` |
| CacheProperties.ClearThenLoadMisses | src-tauri/src/commands.rs:143-145 | after a successful clear every username without any `/` misses the cache |
| CacheProperties.ClearIdempotent | src-tauri/src/commands.rs:193-207 | clearing a second time succeeds and changes nothing |
| Commands.FetchContributions | src-tauri/src/commands.rs:22-54 | the outer result is always Ok with a well-shaped reply; a cache hit serves the cached days, writes nothing and uses no network; a miss always asks the network; a failed fetch replies not-ok with the fetch's error text and leaves the cache alone; a successful fetch replies ok with the fetched days and the cache becomes the save of those days; the cache changes only after a live success |
| Commands.SaveFaultInvisible | src-tauri/src/commands.rs:40 | whether the write-through works never changes the reply |
| Commands.HitIgnoresNetwork | src-tauri/src/commands.rs:28-34 | on a cache hit the outcome does not depend on what the network would answer |
| Commands.FetchKeepsWellFormed | src-tauri/src/commands.rs:22-54 | the command keeps every file's directories in place |
| Commands.WriteThroughThenHit | src-tauri/src/commands.rs:28-47 | after a live success whose save worked, a second call within 300 whole seconds serves the same days from the cache without the network |

## Left out

- Building and sending the GraphQL request (client, headers, query text, bearer token): the answer is an input; the token only changes a request header and so does not appear in the model.
- JSON text: parsing the response body, and pretty-printing and parsing the cache file. A cache file holds the days themselves, or an unreadable marker standing for a file that cannot be read or parsed.
- GitHub.Message: the text after "GraphQL error: " is the JSON text of the `errors` value, which is supplied as a parameter rather than modelled.
- Cache.Save: a fault is modelled as leaving the file system unchanged; directories created before a failed write, or a partly written file, are not modelled.
- Cache.Clear: a fault is modelled as leaving the file system unchanged; a partial removal is not modelled. A plain file sitting at the cache directory's path is not modelled.
- Cache.Load: a failing `fs::metadata` call on an existing file, and a directory sitting at the cache file's path, are not modelled.
- Path normalisation: `..` components and symbolic links are not resolved; paths are compared as text. Windows path rules are not modelled.
- CacheProperties.CachePathRelative, CacheProperties.CachePathInjective, CacheProperties.SaveLeavesOthers, CacheProperties.ClearThenLoadMisses: stated only for usernames without `/`, because a `/` inside a username (`../x`, `./x`) makes the operating system resolve the path to a file the text model does not identify. File names are also compared case-sensitively and without Unicode normalisation; on a case-insensitive volume (the macOS default) usernames that differ only in letter case share one file, so CacheProperties.CachePathInjective and CacheProperties.SaveLeavesOthers hold only on case-sensitive file systems.
- Commands.FetchContributions: one clock reading serves both the freshness check and the mtime of the write-through, whereas the file's mtime is really set when `fs::write` runs after the network round trip; no stated property depends on the difference.
- GitHub.Decode: the canonical reason phrase of a status (`StatusCode::canonical_reason`) is an input beside the status rather than the fixed table the HTTP library holds.
- Modification times are milliseconds; the operating system's finer resolution is not modelled.
- The token commands (`save_github_token`, `get_github_token`, `delete_github_token`), the keyring wrappers in `src-tauri/src/auth.rs` and the Tauri wiring in `src-tauri/src/lib.rs`: they only forward to foreign code.
- Asynchronous execution: every step is modelled as sequential.
