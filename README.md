# AutoAnimeBot release pipeline in Dafny

This project models the core of an anime auto-upload bot. The bot polls the
three SubsPlease RSS feeds (1080p, 720p and SD). It lines up the newest entries
into one release and skips batches and releases whose identifier it has
already stored. Then, for each quality tier (360p, 480p, 720p, 1080p), it runs
an executor that renames or compresses the downloaded file and uploads it. In
button mode, each uploaded tier adds a deep-link button to the release's poster.
A `/start <id>` message with a numeric payload brings the user back to the
uploaded message.

Modules, one per source file, plus shared definitions:

- `Common` (`common.dfy`) holds optional values and the outcome of a call into
  code outside the model (`Call`: raised or returned). It also holds feed
  entries and the Python string operations the code relies on: `in`, ASCII
  `lower`, `isdigit`, and `str`/`int` on non-negative integers.
- `SubsPlease` (`subsplease.dfy`) models `libs/subsplease.py`:
  - the SD selection loop;
  - the title comparison, both as written and as evidently intended;
  - the batch filter and the release identifier;
  - the scan over indices 2, 1, 0 (`feed_optimizer`);
  - one step of the `on_new_anime` poll loop, as the class `Poller`.
- `Executors` (`executors.dfy`) models `core/executors.py`:
  - `execute` as the function `Exec`, over the outcomes of its outside calls;
  - the class `Executor`, whose `Execute` updates its fields and the
    reporter's message in place;
  - `further_work` as the method `FurtherWork`, which returns the files left
    on disk after its cleanup.
- `Bot` (`bot.dfy`) models `bot.py`:
  - the tier loop of `anime`, as a fold (`RunOver`) and as the imperative
    method `RunTiers`, which `Anime` runs after its early exits;
  - the button-grid append rule;
  - the routing of `/start` payloads.

The outside world is passed in as parameters:

- `anitopy.parse` is the function parameter `parse`, and `hashlib.sha256` is
  the function parameter `hash`. Nothing is assumed about either; in
  particular `hash` need not be injective.
- The RSS snapshots are `Option<seq<Entry>>` values.
- The uploaded-anime table is a set of identifiers.
- The local disk is a set of paths.
- Each outside call made by `execute` that returns a value it uses is a
  `Call` value that says whether it raised and what it returned. The other
  calls have no `Call` value of their own. A raise in `get_poster` (line 42)
  counts as a raise of the `cover_dl` call around it. A raise in
  `started_renaming` or `started_compressing` (lines 44, 51) counts as a raise
  of the preparation step after it. A raise in `started_uploading` (line 59)
  counts as a raise of `upload_anime`. The behaviour is the same, because each
  of these raises ends the run with the traceback at the same point.
- The calls the tier loop makes before `execute` (`Reporter(...)`,
  `alert_new_file_founded`, `download_magnet`, `Executors(...)`) are one flag
  per tier, `TierEnv.fetched`: did they all return?
- Everything `anime` does between the title lookup and the loop is one flag,
  `posterOk`: did it all return? That covers creating the poster, the
  separate-channel step and the two configuration reads (lines 133-151).
- The status calls and `get_messages` that `further_work` makes before its
  cleanup are one flag, `fetched`: did they all return?

In three places the code behaves differently from what one might expect. The
model follows the code in each:

- Tiers are processed in the code's order 360p, 480p, 720p, 1080p, not highest
  quality first.
- Even with the comparison corrected (see Findings), the code never checks for
  an empty series name, and two HD titles without an `anime_title` agree
  (`None == None`). `TitlesAgree` keeps that.
- `feed_optimizer` returns releases without a 480p entry (line 110). But
  `anime` takes its title from `torr[1]`, the 480p entry, and raises without
  it. That is modelled as written.

## Model

| member | source | states |
|---|---|---|
| Common.Contains | libs/subsplease.py:73-75 | `sub in s`: the empty string is in every string, and a found `sub` is no longer than `s`. |
| Common.ContainsIffOccurs | libs/subsplease.py:73-75 | The left-to-right search used for `sub in s` holds exactly when `sub` occurs at some offset of `s`. |
| Common.OccursAtContains | libs/subsplease.py:73-75 | An occurrence at any offset is found by the search. |
| Common.ContainsOccurs | libs/subsplease.py:73-75 | A successful search yields an offset where `sub` occurs. |
| Common.Lower | libs/subsplease.py:72 | `title.lower()` keeps the length and lower-cases each ASCII letter in place. |
| Common.Decimal | core/executors.py:66 | `str(msg.id)` is a non-empty string of ASCII digits. |
| Common.ParseDecimal | bot.py:52-53 | `int(s)` of an all-digit string is below `10^len(s)`, and its last digit is the last character of `s`. |
| Common.ParseDecimalOfDecimal | bot.py:52-53 | `int(str(n)) == n` for every non-negative `n`. |
| SubsPlease.SelectFrom | libs/subsplease.py:70-78 | Only a title containing "480p" becomes the 480p entry. Only a title containing "360p" and not "480p" becomes the 360p entry. Each picked entry comes from the feed. A tier stays `None` exactly when no entry of its kind exists. |
| SubsPlease.SelectSd | libs/subsplease.py:70-78 | The pair `feed_optimizer` takes from the SD feed: a picked 480p or 360p entry is of its kind and comes from the feed. A tier is `None` exactly when the feed has no entry of its kind. |
| SubsPlease.SelectSdEntries | libs/subsplease.py:70-78 | The loop, with its early `break` once both are found, returns the same pair as `SelectSd`. |
| SubsPlease.SelectFromIgnoresRest | libs/subsplease.py:77-78 | Once a prefix holds a 480p and a 360p entry, the entries after it do not change the result. |
| SubsPlease.SelectSdIgnoresRest | libs/subsplease.py:77-78 | The same, starting from the empty selection `feed_optimizer` uses. |
| SubsPlease.TitlesAgreeAsWritten | libs/subsplease.py:83-91 | The chained comparison as written can only hold when both SD tiers are missing. |
| SubsPlease.TitlesAgree | libs/subsplease.py:83-91 | The intended comparison holds exactly when every present tier has the 1080p entry's `anime_title`. |
| SubsPlease.TitlesAgreeIffPresentTitlesEqual | libs/subsplease.py:83-91 | The intended comparison holds exactly when every tier that is present has the same `anime_title`. |
| SubsPlease.AsWrittenRejectsSdTiers | libs/subsplease.py:86-91 | As written, a present 480p or 360p entry makes the comparison false, because a parse dictionary never equals a string. |
| SubsPlease.AsWrittenAgreementIsDegenerate | libs/subsplease.py:83-91 | As written, the comparison holds exactly when both SD tiers are missing and both HD titles parse to `""`. |
| SubsPlease.AsWrittenMissesMatchingRelease | libs/subsplease.py:83-91 | A concrete release whose four tiers name the same anime is accepted by the intended comparison and rejected by the one as written. |
| SubsPlease.AnyBatch | libs/subsplease.py:92-97 | A release is a batch exactly when some present tier's title contains `[Batch]`. A missing tier contributes nothing. |
| SubsPlease.UidKey | libs/subsplease.py:101-103 | The string hashed for the uid is the titles of the present tiers, concatenated in the order 1080p, 720p, 480p, 360p. |
| SubsPlease.UidDependsOnlyOnTitles | libs/subsplease.py:101-103 | The identifier depends on the four titles alone ("" for a missing tier), not on the links. |
| SubsPlease.UidKeyDeterminesTitles | libs/subsplease.py:101-103 | The hashed string loses only the boundaries between titles. Equal keys built from titles of equal lengths come from equal titles. |
| SubsPlease.Candidate | libs/subsplease.py:67-103 | Index `i` yields nothing exactly when the titles disagree or some title contains `[Batch]`. Otherwise it yields the 1080p and 720p entries at `i`, the SD selection, and `uid = hash(titles)`. |
| SubsPlease.ScanFrom | libs/subsplease.py:65-115 | A release returned by the scan has an identifier that is not yet stored. |
| SubsPlease.Optimize | libs/subsplease.py:60-63 | A feed that could not be fetched gives `None`. A returned release is not yet stored. |
| SubsPlease.ScanFindsFirstAccepted | libs/subsplease.py:65-112 | The scan returns a release exactly when some index, counting down from 2, is accepted, and the release is that of the first such index. |
| SubsPlease.ScanNoneIff | libs/subsplease.py:65-115 | The scan returns `None` exactly when index 2 is missing from the 1080p or the 720p feed, or when no index 2..0 is accepted. |
| SubsPlease.ShortFeedGivesNone | libs/subsplease.py:67 | A 1080p or 720p feed with fewer than three entries gives `None`. The `IndexError` at index 2 ends the call before indices 1 and 0 are tried. |
| SubsPlease.AsWrittenNeverYieldsSdTiers | libs/subsplease.py:83-112 | As written, every release returned has neither a 480p nor a 360p entry. |
| SubsPlease.FeedOptimizer | libs/subsplease.py:60-115 | The imperative `feed_optimizer` returns exactly `Optimize` of its snapshots and the stored set. |
| SubsPlease.Poller.constructor | libs/subsplease.py:33-34 | The poller starts from the given uploaded set, with no events. |
| SubsPlease.Poller.PollStep | libs/subsplease.py:117-123 | One poll returns `Optimize` under the given comparison. When it finds a release, it dispatches the release, then adds its uid to the uploaded set. Otherwise nothing changes. |
| SubsPlease.PollShrinksAccepted | libs/subsplease.py:119-122 | Storing the uid a poll returned strictly reduces the set of accepted indices. |
| SubsPlease.AcceptedAtMostThree | libs/subsplease.py:65 | At most three indices are ever accepted. |
| SubsPlease.RepeatedPollsDrain | libs/subsplease.py:118-123 | After three polls of the same snapshots, a fourth finds nothing: no release is handed on twice. |
| Executors.Exec | core/executors.py:38-78 | Success holds exactly when a message id is assigned, and that id is the uploaded message's. The output path is `encode/<rename>` once the rename returned. A failed rename or compress returns its detail, with no upload. A detail comes back exactly in that case. Every raise returns the traceback. The status message is replaced only after a successful compress. The upload gets the output path, the rename, the thumbnail (default `thumb.jpg`) and the button flag. Button mode returns the deep-link button labelled with the resolution (`None` when missing). Otherwise it returns `[]`. An upload without success only happens when `get_me` raised in button mode. Conversely, when the rename, the thumbnail, the preparation and the upload all return and the preparation succeeds, the file is uploaded, and the run succeeds exactly unless button mode is on and `get_me` raised. |
| Executors.DeepLink | core/executors.py:66 | The button URL is `https://t.me/<bot username>?start=` followed by the message id's decimal digits, and nothing else: its length is the prefix's plus the digits'. |
| Executors.Cleanup | core/executors.py:98-102 | Only the input and output files are removed. A missing input file ends the cleanup with nothing removed. When both files exist and differ, both are removed. |
| Executors.Executor.constructor | core/executors.py:18-36 | The flags come from the configuration, and the message id and output file start unset. |
| Executors.Executor.Execute | core/executors.py:38-78 | The fields and the reporter's message change exactly as `Exec` assigns them, and all else keeps its value. On a fresh executor, success holds exactly when the message id is set. |
| Executors.Executor.HasMsgId | core/executors.py:85 | `if self.msg_id:` holds only for a set, non-zero id. On a valid executor, a set id implies that the output path is set. |
| Executors.Executor.FurtherWork | core/executors.py:83-105 | Without a truthy message id (an id of 0 counts as unset), or when a status call raises, the files stay. Otherwise the files become `Cleanup` of them: when the downloaded file and the output file are both on disk and differ, both are removed. |
| Executors.CleanupAfterSuccess | core/executors.py:83-102 | After a successful run, the cleanup removes exactly the downloaded file and `encode/<rename>` when both exist. |
| Bot.Attach | bot.py:179-182 | Appending a button to a well-shaped grid keeps it well shaped: a first row of at most two buttons, then one-button rows. The grid's buttons, read row by row, gain exactly the new button at the end. |
| Bot.AttachAll | bot.py:149-183 | The grid built from `[[]]` is well shaped and holds exactly the buttons attached, in order. |
| Bot.AttachAllIsGridOf | bot.py:149-183 | Attaching one at a time gives the first two buttons in row 0 and one row per later button. |
| Bot.Step | bot.py:154-192 | One pass of the loop body. A missing tier changes nothing. A present tier is recorded as started and lands in exactly one of the scheduled and failed lists. A failed tier leaves the grid alone, and the grid stays well shaped. |
| Bot.RunOver | bot.py:153-192 | The loop over the tiers never empties the grid. |
| Bot.RunOverGrid | bot.py:177-183 | The grid holds the buttons of the successful tiers, in tier order, laid out by `Attach`. |
| Bot.RunOverTiers | bot.py:153-192 | The run records exactly the present tiers as started, the successful ones as scheduled for `further_work`, and the present unsuccessful ones as failed. |
| Bot.RunOverEdits | bot.py:183 | The poster is edited once per button, the last time with the final grid. |
| Bot.RunTier | bot.py:157-175 | A new reporter and a new executor for `downloads/<title>` produce exactly the executor's result pair. |
| Bot.AnimeRun | bot.py:127-194 | Without a 480p entry or a poster, nothing is started, scheduled, reported or edited. Otherwise exactly the present tiers are started, and the grid is well shaped. |
| Bot.RunTiers | bot.py:147-192 | The imperative loop over `torr`, starting from the grid `[[]]`, ends in exactly the log of the fold `RunOver` over the tiers 360p, 480p, 720p, 1080p in that order. |
| Bot.Anime | bot.py:127-194 | The imperative handler equals `AnimeRun`: nothing happens without a 480p entry or a poster. Otherwise the tiers are handled in the order 360p, 480p, 720p, 1080p, and the final grid is well shaped. |
| Bot.AnimeTierFates | bot.py:153-192 | A tier's `further_work` is scheduled exactly when it is present, downloaded and its executor succeeded. It is reported as failed exactly when it is present and did not succeed. |
| Bot.FailureIsolation | bot.py:156-192 | A tier's fate depends only on its own inputs, so a failing tier never affects another. |
| Bot.AsWrittenPublishesNothing | bot.py:132 | With the comparison as written, every release the scan returns has no 480p entry. `anime` then raises at `torr[1].title` and starts no tier. |
| Bot.UpToNewline | bot.py:27 | `(.*)` takes the longest prefix without a line break. |
| Bot.StartPayload | bot.py:27-32 | Group 1 of `^/start ?(.*)`: the text after `/start` and at most one space, up to the first line break. |
| Bot.Route | bot.py:51-66 | A non-empty all-digit payload asks for the backup-channel message whose id is `int(payload)`. Any other non-empty payload is a store code. An empty payload opens the admin panel for the owner and the welcome message for anyone else. |
| Bot.DeepLinkRoundTrip | core/executors.py:64-67 | The deep link is the prefix up to `?start=` followed by the start parameter. That parameter, the whole text after `?start=`, is exactly the message id's digits. `/start <parameter>` is routed back to exactly that message. |

## Left out

- RSS fetching (`rss_feed_data`), `anitopy.parse` and `hashlib.sha256` are inputs. `digest` is the parameter `hash`, so no property of SHA-256 is used.
- `_exit`, the `count()` loop's infinite repetition, and `asyncio.sleep` are not modelled. `Poller.PollStep` is one iteration.
- Logging (`LOGS`), the "could not find both" warning, and every status message of the reporter except the one `execute` assigns are not modelled.
- SubsPlease.Candidate: `anitopy.parse` raising inside the scan is not modelled. The parse function is total here.
- Common.Lower: only ASCII letters are lower-cased. Python's Unicode case mapping is not modelled.
- Bot.Route: `str.isdigit` is taken as ASCII digits. Unicode digits such as superscripts, which make `int()` raise, are not modelled.
- Bot.Route: the reply contents are not modelled. That covers fetching the messages, the store items, the admin panel buttons and the welcome buttons.
- The force-subscription check of `/start` (lines 35-49), `/about` and the admin callback handlers are not modelled, because they call outside code only.
- The separate-channel poster of `anime` (lines 135-147) is not modelled. It edits a different poster and does not touch the tier grid.
- Bot.Anime: `poster.edit`, `report_error` and `msg.delete` are assumed not to raise. A raise inside the inner `except` block would end the whole loop through the outer handler.
- Bot.Anime: when `Reporter(...)` itself raises for the first tier, the handler's use of an unbound `reporter` would end the loop. This is not modelled; such a tier is a plain failure.
- Bot.Anime: `asyncio.ensure_future(exe.further_work())` is recorded as scheduling only. The concurrent run of `further_work` is not modelled.
- Executors.Executor.Execute: the reporter's status calls and the detail strings of rename/compress failures are opaque. A traceback is the constructor `Traceback`.
- Executors.Executor.Valid: it states only that a known message id comes with an output file and an upload. It does not tie the upload's file to the current output file when `execute` runs twice on one executor. `FurtherWork` requires it. The source only calls `further_work` after `execute` succeeded.
- Executors.Executor.FurtherWork: `os.remove` raising is modelled as the path being absent. Permission errors are not distinguished.
- Executors.Executor.FurtherWork: `run_further_work` (which wraps it in `asyncio.run`) and the choice of channel for `get_messages` are left out. Neither changes the cleanup.

## Findings

| source | as written | input that shows it | evidently intended | confidence | as-written member | corrected member |
|---|---|---|---|---|---|---|
| libs/subsplease.py:86-87 | `a480` and `a360` are the whole `anitopy.parse` dictionaries (or `""`), then compared with the 1080p and 720p `anime_title` strings in `a1080 == a720 == a480 == a360`. | Four tiers "[SubsPlease] Frieren - 01 (…p) …" whose titles all parse to `anime_title` "Frieren". The comparison is false, so the release is skipped. A release is only ever accepted with both SD tiers missing and `anime_title == ""`, and then `anime` raises at `torr[1].title`. | Compare `anitopy.parse(f.title).get("anime_title")` for every present tier. | high (not executed) | SubsPlease.TitlesAgreeAsWritten, SubsPlease.AsWrittenMissesMatchingRelease, SubsPlease.AsWrittenNeverYieldsSdTiers, Bot.AsWrittenPublishesNothing | SubsPlease.TitlesAgree, SubsPlease.TitlesAgreeIffPresentTitlesEqual |

The scan and `Poller.PollStep` take the comparison (`TitleCheck`) as a
parameter. With `AsWritten` they run the program as written. With `Intended`
they run the corrected comparison. The lemmas about the scan and the poll
loop hold for both.
