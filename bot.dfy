/** The release handler and the `/start` routing of bot.py.

    `anime` walks the tiers of one release in the order 360p, 480p, 720p,
    1080p, runs an executor for each tier that is present, and grows the button
    grid of the shared poster with every button a tier produces. Each tier's
    download and executor outcome is an input (`TierEnv`). The input
    `posterOk` says whether everything between the title lookup and the loop
    returned without raising: creating the poster, the separate-channel step
    and the two configuration reads (lines 133-151). */
module Bot {
  import opened Common
  import opened SubsPlease
  import opened Executors

  datatype Tier = P360 | P480 | P720 | P1080

  /** The order of `torr` at line 130. */
  const TierOrder: seq<Tier> := [P360, P480, P720, P1080]

  function EntryOf(rel: Release, t: Tier): Option<Entry>
  {
    match t
    case P360 => rel.t360
    case P480 => rel.t480
    case P720 => Some(rel.t720)
    case P1080 => Some(rel.t1080)
  }

  // ---------------------------------------------------------------------
  // The button grid

  type Grid = seq<seq<Button>>

  /** A first row of at most two buttons, full whenever more rows follow, and
      single-button rows after it. */
  predicate WellShaped(g: Grid)
  {
    && |g| >= 1
    && |g[0]| <= 2
    && (|g| > 1 ==> |g[0]| == 2)
    && forall k :: 1 <= k < |g| ==> |g[k]| == 1
  }

  /** The buttons of a grid, row by row. */
  function Flatten(g: Grid): seq<Button>
  {
    if g == [] then [] else Flatten(g[..|g| - 1]) + g[|g| - 1]
  }

  /** Lines 179-182: only the first row is inspected; when it holds two buttons
      a new one-button row is appended, otherwise the button joins row 0. */
  function Attach(g: Grid, b: Button): (r: Grid)
    requires |g| > 0
    ensures WellShaped(g) ==> WellShaped(r) && Flatten(r) == Flatten(g) + [b]
  {
    if |g[0]| == 2 then
      var r := g + [[b]];
      assert r[..|r| - 1] == g;
      r
    else
      var r := g[0 := g[0] + [b]];
      assert |g| == 1 && WellShaped(g) ==> r == [g[0] + [b]] && Flatten(r) == Flatten([]) + r[0];
      r
  }

  /** The grid after attaching `bs` in order to the initial `[[]]`. */
  function AttachAll(bs: seq<Button>): (g: Grid)
    ensures WellShaped(g) && Flatten(g) == bs
  {
    if bs == [] then
      assert Flatten([[]]) == Flatten([]) + [];
      [[]]
    else
      Attach(AttachAll(bs[..|bs| - 1]), bs[|bs| - 1])
  }

  function Min(a: int, b: int): int
  {
    if a < b then a else b
  }

  /** The layout spelled out: the first two buttons in row 0, then one row per button. */
  function GridOf(bs: seq<Button>): Grid
  {
    var w := Min(2, |bs|);
    [bs[..w]] + seq(|bs| - w, k requires 0 <= k < |bs| - w => [bs[k + 2]])
  }

  /** Past the first row, one more button is one more row. */
  lemma GridOfSnoc(bs: seq<Button>, b: Button)
    requires |bs| >= 2
    ensures GridOf(bs + [b]) == GridOf(bs) + [[b]]
  {
    var xs := bs + [b];
    var l, r := GridOf(xs), GridOf(bs) + [[b]];
    assert xs[..2] == bs[..2];
    assert |l| == |r|;
    forall k | 0 <= k < |l|
      ensures l[k] == r[k]
    {
      if 0 < k < |l| - 1 {
        assert l[k] == [xs[k + 1]] && xs[k + 1] == bs[k + 1];
      }
    }
  }

  lemma GridOfShort(bs: seq<Button>)
    requires |bs| <= 2
    ensures GridOf(bs) == [bs]
  {
    assert bs[..|bs|] == bs;
    assert GridOf(bs) == [bs] + [];
  }

  /** Attaching buttons one at a time gives exactly the spelled-out layout. */
  lemma {:induction false} AttachAllIsGridOf(bs: seq<Button>)
    ensures AttachAll(bs) == GridOf(bs)
  {
    if bs != [] {
      var init, b := bs[..|bs| - 1], bs[|bs| - 1];
      assert bs == init + [b];
      AttachAllIsGridOf(init);
      var g := AttachAll(init);
      assert AttachAll(bs) == Attach(g, b);
      if |init| < 2 {
        assert g == [init];
        assert Attach(g, b) == [bs];
        GridOfShort(bs);
      } else {
        assert g[0] == init[..2];
        GridOfSnoc(init, b);
      }
    }
  }

  // ---------------------------------------------------------------------
  // The tier loop

  /** What the calls made for one tier do: `fetched` says whether creating the
      reporter, its first alert, `download_magnet` and building the executor
      all returned without raising. */
  datatype TierEnv = TierEnv(fetched: bool, exec: ExecEnv)

  /** How one present tier ends: it failed before its executor ran, or the
      executor returned this result pair. */
  datatype Outcome = NotFetched | Ran(ok: bool, payload: Payload)

  function OutcomeOf(cfg: Config, te: TierEnv): Outcome
  {
    if te.fetched then Ran(Exec(cfg, te.exec).ok, Exec(cfg, te.exec).payload) else NotFetched
  }

  /** What `anime` did: the tiers it started, those whose `further_work` it
      scheduled, those it reported as failed, the final grid, and the grid sent
      with every edit of the poster. */
  datatype RunLog = RunLog(attempted: seq<Tier>, scheduled: seq<Tier>, failed: seq<Tier>, grid: Grid, edits: seq<Grid>)

  const EmptyLog := RunLog([], [], [], [[]], [])

  /** One tier ends with its executor reporting success. */
  predicate Succeeds(rel: Release, outs: Tier -> Outcome, t: Tier)
  {
    EntryOf(rel, t).Some? && outs(t).Ran? && outs(t).ok
  }

  /** The button one tier adds to the grid, if any. */
  function ButtonOf(rel: Release, outs: Tier -> Outcome, t: Tier): Option<Button>
  {
    if Succeeds(rel, outs, t) && outs(t).payload.ButtonPayload? then Some(outs(t).payload.button) else None
  }

  function AttemptedTiers(rel: Release, ts: seq<Tier>): seq<Tier>
  {
    if ts == [] then []
    else
      var t := ts[|ts| - 1];
      AttemptedTiers(rel, ts[..|ts| - 1]) + (if EntryOf(rel, t).Some? then [t] else [])
  }

  function SucceededTiers(rel: Release, outs: Tier -> Outcome, ts: seq<Tier>): seq<Tier>
  {
    if ts == [] then []
    else
      var t := ts[|ts| - 1];
      SucceededTiers(rel, outs, ts[..|ts| - 1]) + (if Succeeds(rel, outs, t) then [t] else [])
  }

  function FailedTiers(rel: Release, outs: Tier -> Outcome, ts: seq<Tier>): seq<Tier>
  {
    if ts == [] then []
    else
      var t := ts[|ts| - 1];
      FailedTiers(rel, outs, ts[..|ts| - 1]) + (if EntryOf(rel, t).Some? && !Succeeds(rel, outs, t) then [t] else [])
  }

  function ButtonsOf(rel: Release, outs: Tier -> Outcome, ts: seq<Tier>): seq<Button>
  {
    if ts == [] then []
    else
      var b := ButtonOf(rel, outs, ts[|ts| - 1]);
      ButtonsOf(rel, outs, ts[..|ts| - 1]) + (if b.Some? then [b.value] else [])
  }

  /** One pass of the loop body, lines 154-192. */
  function Step(log: RunLog, t: Tier, entry: Option<Entry>, o: Outcome): (r: RunLog)
    requires |log.grid| > 0
    ensures |r.grid| > 0 && (WellShaped(log.grid) ==> WellShaped(r.grid))
    ensures entry.None? ==> r == log
    ensures entry.Some? ==> r.attempted == log.attempted + [t]
    // a present tier lands in exactly one of the scheduled and the failed lists
    ensures entry.Some? && o.Ran? && o.ok ==> r.scheduled == log.scheduled + [t] && r.failed == log.failed
    ensures entry.Some? && !(o.Ran? && o.ok) ==> r.failed == log.failed + [t] && r.scheduled == log.scheduled && r.grid == log.grid
  {
    if entry.None? then log
    else
      var log1 := log.(attempted := log.attempted + [t]);
      if o.NotFetched? || !o.ok then log1.(failed := log1.failed + [t])
      else if o.payload.ButtonPayload? then
        var g := Attach(log1.grid, o.payload.button);
        log1.(grid := g, edits := log1.edits + [g], scheduled := log1.scheduled + [t])
      else log1.(scheduled := log1.scheduled + [t])
  }

  /** The loop over the tiers `ts`: the grid holds the buttons of the
      successful tiers, in tier order, laid out by `Attach`. */
  function RunOver(rel: Release, outs: Tier -> Outcome, ts: seq<Tier>): (r: RunLog)
    ensures |r.grid| > 0
  {
    if ts == [] then EmptyLog
    else
      var t := ts[|ts| - 1];
      Step(RunOver(rel, outs, ts[..|ts| - 1]), t, EntryOf(rel, t), outs(t))
  }

  lemma AttachAllSnoc(bs: seq<Button>, b: Button)
    ensures AttachAll(bs + [b]) == Attach(AttachAll(bs), b)
  {
    assert (bs + [b])[..|bs|] == bs;
  }

  /** The grid holds the buttons of the successful tiers, in tier order, laid
      out by `Attach`. */
  lemma {:induction false} RunOverGrid(rel: Release, outs: Tier -> Outcome, ts: seq<Tier>)
    ensures RunOver(rel, outs, ts).grid == AttachAll(ButtonsOf(rel, outs, ts))
  {
    if ts != [] {
      var init, t := ts[..|ts| - 1], ts[|ts| - 1];
      RunOverGrid(rel, outs, init);
      var prev := RunOver(rel, outs, init);
      var bs := ButtonsOf(rel, outs, init);
      var b := ButtonOf(rel, outs, t);
      assert RunOver(rel, outs, ts) == Step(prev, t, EntryOf(rel, t), outs(t));
      if b.Some? {
        AttachAllSnoc(bs, b.value);
        assert ButtonsOf(rel, outs, ts) == bs + [b.value];
        assert Step(prev, t, EntryOf(rel, t), outs(t)).grid == Attach(prev.grid, b.value);
      } else {
        assert ButtonsOf(rel, outs, ts) == bs;
        assert Step(prev, t, EntryOf(rel, t), outs(t)).grid == prev.grid;
      }
    }
  }

  /** The log lists exactly the tiers each filter selects. */
  lemma {:induction false} RunOverTiers(rel: Release, outs: Tier -> Outcome, ts: seq<Tier>)
    ensures var r := RunOver(rel, outs, ts);
      && r.attempted == AttemptedTiers(rel, ts)
      && r.scheduled == SucceededTiers(rel, outs, ts)
      && r.failed == FailedTiers(rel, outs, ts)
  {
    if ts != [] {
      RunOverTiers(rel, outs, ts[..|ts| - 1]);
    }
  }

  /** The poster is edited once per button, the last time with the final grid. */
  lemma {:induction false} RunOverEdits(rel: Release, outs: Tier -> Outcome, ts: seq<Tier>)
    ensures var r := RunOver(rel, outs, ts);
      && |r.edits| == |ButtonsOf(rel, outs, ts)|
      && (r.edits != [] ==> r.edits[|r.edits| - 1] == r.grid)
  {
    if ts != [] {
      RunOverEdits(rel, outs, ts[..|ts| - 1]);
    }
  }

  /** The outcome of every tier of a release under the given inputs. */
  function Outcomes(cfg: Config, envs: Tier -> TierEnv): Tier -> Outcome
  {
    t => OutcomeOf(cfg, envs(t))
  }

  /** What `anime` does with a release: nothing when the 480p entry is missing
      (`torr[1].title` raises) or the poster cannot be made, otherwise the loop
      over all four tiers. */
  function AnimeRun(rel: Release, cfg: Config, posterOk: bool, envs: Tier -> TierEnv): (r: RunLog)
    ensures WellShaped(r.grid)
    ensures r.attempted == (if rel.t480.None? || !posterOk then [] else AttemptedTiers(rel, TierOrder))
    ensures rel.t480.None? || !posterOk ==> r.scheduled == [] && r.failed == [] && r.edits == []
  {
    if rel.t480.None? || !posterOk then EmptyLog
    else
      RunOverGrid(rel, Outcomes(cfg, envs), TierOrder);
      RunOverTiers(rel, Outcomes(cfg, envs), TierOrder);
      RunOver(rel, Outcomes(cfg, envs), TierOrder)
  }

  /** The `try` block of one tier up to `execute`, lines 157-175: a new
      reporter and a new executor for `downloads/<title>`. */
  method RunTier(cfg: Config, e: Entry, te: TierEnv) returns (o: Outcome)
    requires te.fetched
    ensures o == OutcomeOf(cfg, te)
  {
    var reporter := new Reporter(e.title);
    var exe := new Executor(cfg, "downloads/" + e.title, reporter);
    var result, payload := exe.Execute(te.exec);
    o := Ran(result, payload);
  }

  /** `anime(data)`, lines 127-194. */
  method Anime(rel: Release, cfg: Config, posterOk: bool, envs: Tier -> TierEnv) returns (log: RunLog)
    ensures log == AnimeRun(rel, cfg, posterOk, envs)
    ensures WellShaped(log.grid)
  {
    if rel.t480.None? || !posterOk {
      // the outer handler at lines 193-194 logs the exception
      return EmptyLog;
    }
    log := RunTiers(rel, cfg, envs);
  }

  /** The loop over `torr`, lines 147-192, from an empty grid. */
  method RunTiers(rel: Release, cfg: Config, envs: Tier -> TierEnv) returns (log: RunLog)
    ensures log == RunOver(rel, Outcomes(cfg, envs), TierOrder)
  {
    log := EmptyLog;
    ghost var outs := Outcomes(cfg, envs);
    var torr := [rel.t360, rel.t480, Some(rel.t720), Some(rel.t1080)];
    var btn: Grid := [[]];
    var k := 0;
    while k < |torr|
      invariant 0 <= k <= |torr|
      invariant log == RunOver(rel, outs, TierOrder[..k])
      invariant btn == log.grid
    {
      var t := TierOrder[k];
      assert TierOrder[..k + 1][..k] == TierOrder[..k];
      assert torr[k] == EntryOf(rel, t);
      ghost var next := Step(log, t, torr[k], outs(t));
      assert next == RunOver(rel, outs, TierOrder[..k + 1]);
      var i := torr[k];
      var te := envs(t);
      assert outs(t) == OutcomeOf(cfg, te);
      if i.None? {
        assert log == next;
        k := k + 1;
        continue;
      }
      log := log.(attempted := log.attempted + [t]);
      if !te.fetched {
        // the download raised: the handler at lines 190-192 reports it
        log := log.(failed := log.failed + [t]);
        assert log == next;
        k := k + 1;
        continue;
      }
      var outcome := RunTier(cfg, i.value, te);
      var result, payload := outcome.ok, outcome.payload;
      if result {
        if payload.ButtonPayload? {
          btn := Attach(btn, payload.button);
          log := log.(grid := btn, edits := log.edits + [btn]);
        }
        // asyncio.ensure_future(exe.further_work())
        log := log.(scheduled := log.scheduled + [t]);
      } else {
        log := log.(failed := log.failed + [t]);
      }
      assert log == next;
      k := k + 1;
    }
    assert TierOrder[..4] == TierOrder;
  }

  lemma {:induction false} SucceededTiersMembers(rel: Release, outs: Tier -> Outcome, ts: seq<Tier>, t: Tier)
    ensures t in SucceededTiers(rel, outs, ts) <==> t in ts && Succeeds(rel, outs, t)
  {
    if ts != [] {
      SucceededTiersMembers(rel, outs, ts[..|ts| - 1], t);
      assert ts == ts[..|ts| - 1] + [ts[|ts| - 1]];
    }
  }

  lemma {:induction false} FailedTiersMembers(rel: Release, outs: Tier -> Outcome, ts: seq<Tier>, t: Tier)
    ensures t in FailedTiers(rel, outs, ts) <==> t in ts && EntryOf(rel, t).Some? && !Succeeds(rel, outs, t)
  {
    if ts != [] {
      FailedTiersMembers(rel, outs, ts[..|ts| - 1], t);
      assert ts == ts[..|ts| - 1] + [ts[|ts| - 1]];
    }
  }

  /** With the 480p entry present and the poster made, a tier's `further_work`
      is scheduled exactly when it was downloaded and its executor reported
      success, and the tier is reported as failed exactly when it is present and
      did not succeed. */
  lemma AnimeTierFates(rel: Release, cfg: Config, posterOk: bool, envs: Tier -> TierEnv, t: Tier)
    requires rel.t480.Some? && posterOk
    ensures var r := AnimeRun(rel, cfg, posterOk, envs);
      && (t in r.scheduled <==> EntryOf(rel, t).Some? && envs(t).fetched && Exec(cfg, envs(t).exec).ok)
      && (t in r.failed <==> EntryOf(rel, t).Some? && !(envs(t).fetched && Exec(cfg, envs(t).exec).ok))
  {
    var outs := Outcomes(cfg, envs);
    RunOverTiers(rel, outs, TierOrder);
    SucceededTiersMembers(rel, outs, TierOrder, t);
    FailedTiersMembers(rel, outs, TierOrder, t);
    assert t in TierOrder;
  }

  /** A failing tier never affects another: what happens to tier `t` depends on
      nothing but `t`'s own inputs. */
  lemma FailureIsolation(rel: Release, cfg: Config, posterOk: bool, envs: Tier -> TierEnv, envs': Tier -> TierEnv, t: Tier)
    requires envs(t) == envs'(t)
    ensures var r, r' := AnimeRun(rel, cfg, posterOk, envs), AnimeRun(rel, cfg, posterOk, envs');
      (t in r.scheduled <==> t in r'.scheduled) && (t in r.failed <==> t in r'.failed)
  {
    if rel.t480.Some? && posterOk {
      AnimeTierFates(rel, cfg, posterOk, envs, t);
      AnimeTierFates(rel, cfg, posterOk, envs', t);
    }
  }

  /** Under the title comparison as written, every release the scan returns
      lacks its 480p entry, so `anime` downloads and publishes nothing. */
  lemma AsWrittenPublishesNothing(s: Snapshots, parse: string -> ParsedTitle, hash: string -> string, store: set<string>,
                                  cfg: Config, posterOk: bool, envs: Tier -> TierEnv)
    ensures var r := Optimize(s, AsWritten, parse, hash, store);
      r.Some? ==> AnimeRun(r.value, cfg, posterOk, envs).attempted == []
  {
    AsWrittenNeverYieldsSdTiers(s, parse, hash, store);
  }

  // ---------------------------------------------------------------------
  // `/start` routing

  /** What `_start` answers with. */
  datatype StartReply = BackupMessage(id: nat) | StoreItems(code: string) | AdminPanel | Welcome

  /** The text up to the first line break: what `.` in `(.*)` can match. */
  function UpToNewline(s: string): (r: string)
    ensures |r| <= |s| && r == s[..|r|]
    ensures forall i :: 0 <= i < |r| ==> r[i] != '\n'
    ensures |r| < |s| ==> s[|r|] == '\n'
  {
    if s == [] || s[0] == '\n' then [] else [s[0]] + UpToNewline(s[1..])
  }

  /** Group 1 of `^/start ?(.*)` on a message the handler receives. */
  function StartPayload(text: string): (r: string)
    requires StartsWith(text, "/start")
    // the text after "/start" and at most one space, up to the first line break
    ensures var k := if |text| > 6 && text[6] == ' ' then 7 else 6;
      && k + |r| <= |text| && r == text[k..k + |r|]
      && (forall i :: 0 <= i < |r| ==> r[i] != '\n')
      && (k + |r| < |text| ==> text[k + |r|] == '\n')
  {
    var rest := text[6..];
    UpToNewline(if |rest| > 0 && rest[0] == ' ' then rest[1..] else rest)
  }

  /** Lines 51-66: a numeric payload names a backup-channel message, any other
      payload a store code, and an empty one opens the admin panel for the owner. */
  function Route(payload: string, sender: int, owner: int): (a: StartReply)
    ensures a.BackupMessage? <==> payload != "" && AllDigits(payload)
    ensures a.StoreItems? <==> payload != "" && !AllDigits(payload)
    ensures a.BackupMessage? ==> a.id == ParseDecimal(payload)
    ensures a.StoreItems? ==> a.code == payload
    ensures a.AdminPanel? <==> payload == "" && sender == owner
    ensures a.Welcome? <==> payload == "" && sender != owner
  {
    if payload != "" then
      if AllDigits(payload) then BackupMessage(ParseDecimal(payload)) else StoreItems(payload)
    else if sender == owner then AdminPanel
    else Welcome
  }

  /** The deep link an executor puts on a button brings its user back to the
      uploaded message: the start parameter is all digits and reads back as the id. */
  lemma DeepLinkRoundTrip(username: string, id: nat, sender: int, owner: int)
    ensures var prefix := "https://t.me/" + username + "?start=";
      var link := DeepLink(username, id);
      |prefix| <= |link| &&
      var param := link[|prefix|..];
      && link == prefix + param
      && param == Decimal(id)
      && Route(StartPayload("/start " + param), sender, owner) == BackupMessage(id)
  {
    var prefix := "https://t.me/" + username + "?start=";
    var link := DeepLink(username, id);
    var d := Decimal(id);
    assert link == prefix + d;
    assert link[|prefix|..] == d;
    var text := "/start " + d;
    assert StartsWith(text, "/start");
    assert text[6..] == " " + d && (" " + d)[1..] == d;
    assert forall i :: 0 <= i < |d| ==> d[i] != '\n';
    assert UpToNewline(d) == d;
    ParseDecimalOfDecimal(id);
  }
}
