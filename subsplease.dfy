/** The release finder of libs/subsplease.py: it aligns the newest entries of
    the 1080p, 720p and SD feeds into one release record, skips batches and
    releases whose identifier is already stored, and one poll step hands the
    record on and stores its identifier.

    `anitopy.parse` and `hashlib.sha256(...).hexdigest()` are outside the
    model: they are the parameters `parse` and `hash`, about which nothing is
    assumed (in particular `hash` need not be injective). The uploaded-anime
    table of the database is a set of identifiers. */
module SubsPlease {
  import opened Common

  /** What `anitopy.parse` returns: a dictionary of named fields. */
  datatype ParsedTitle = ParsedTitle(fields: map<string, string>)

  /** `anitopy.parse(title).get("anime_title")`. */
  function AnimeTitle(p: ParsedTitle): Option<string>
  {
    if "anime_title" in p.fields then Some(p.fields["anime_title"]) else None
  }

  /** The dictionary `feed_optimizer` returns: the identifier and one entry per tier. */
  datatype Release = Release(uid: string, t1080: Entry, t720: Entry, t480: Option<Entry>, t360: Option<Entry>)

  /** What `rss_feed_data` hands over: one snapshot per feed, `None` when fetching failed. */
  datatype Snapshots = Snapshots(d1080: Option<seq<Entry>>, d720: Option<seq<Entry>>, dsd: Option<seq<Entry>>)

  /** The entries of three snapshots that were all fetched. */
  datatype Feeds = Feeds(hd: seq<Entry>, md: seq<Entry>, sd: seq<Entry>)

  /** Which title comparison the scan uses: the one at lines 83-91 as written,
      or the one those lines evidently intend (see `TitlesAgree`). */
  datatype TitleCheck = AsWritten | Intended

  // ---------------------------------------------------------------------
  // Picking the 480p and 360p entries out of the SD feed

  /** The SD entry is taken as the 480p one. */
  predicate Picks480(e: Entry)
  {
    Contains(Lower(e.title), "480p")
  }

  /** The SD entry is taken as the 360p one: the `elif` only sees titles without "480p". */
  predicate Picks360(e: Entry)
  {
    !Picks480(e) && Contains(Lower(e.title), "360p")
  }

  /** The SD search from some point on, given what it has found so far. */
  function SelectFrom(es: seq<Entry>, f480: Option<Entry>, f360: Option<Entry>): (r: (Option<Entry>, Option<Entry>))
    requires f480.Some? ==> Picks480(f480.value)
    requires f360.Some? ==> Picks360(f360.value)
    ensures r.0.Some? ==> Picks480(r.0.value) && (r.0 == f480 || r.0.value in es)
    ensures r.1.Some? ==> Picks360(r.1.value) && (r.1 == f360 || r.1.value in es)
    ensures r.0.None? <==> f480.None? && forall k :: 0 <= k < |es| ==> !Picks480(es[k])
    ensures r.1.None? <==> f360.None? && forall k :: 0 <= k < |es| ==> !Picks360(es[k])
    decreases |es|
  {
    if es == [] then (f480, f360)
    else
      var a := if Picks480(es[0]) then Some(es[0]) else f480;
      var b := if Picks360(es[0]) then Some(es[0]) else f360;
      if a.Some? && b.Some? then (a, b)
      else
        var r := SelectFrom(es[1..], a, b);
        assert forall k :: 1 <= k < |es| ==> es[k] == es[1..][k - 1];
        r
  }

  /** The 480p and 360p entries `feed_optimizer` takes from the SD feed; the
      same for every index of the scan. */
  function SelectSd(es: seq<Entry>): (r: (Option<Entry>, Option<Entry>))
    ensures r.0.Some? ==> Picks480(r.0.value) && r.0.value in es
    ensures r.1.Some? ==> Picks360(r.1.value) && r.1.value in es
    ensures r.0.None? <==> forall k :: 0 <= k < |es| ==> !Picks480(es[k])
    ensures r.1.None? <==> forall k :: 0 <= k < |es| ==> !Picks360(es[k])
  {
    SelectFrom(es, None, None)
  }

  /** The loop at lines 70-78. */
  method SelectSdEntries(es: seq<Entry>) returns (f480: Option<Entry>, f360: Option<Entry>)
    ensures (f480, f360) == SelectSd(es)
  {
    ghost var target := SelectFrom(es, None, None);
    f480, f360 := None, None;
    var k := 0;
    while k < |es|
      invariant 0 <= k <= |es|
      invariant f480.Some? ==> Picks480(f480.value)
      invariant f360.Some? ==> Picks360(f360.value)
      invariant SelectFrom(es[k..], f480, f360) == target
    {
      ghost var a, b, rest := f480, f360, es[k..];
      assert rest[0] == es[k] && rest[1..] == es[k + 1..];
      var title := Lower(es[k].title);
      if Contains(title, "480p") {
        f480 := Some(es[k]);
      } else if Contains(title, "360p") {
        f360 := Some(es[k]);
      }
      assert f480 == (if Picks480(rest[0]) then Some(rest[0]) else a);
      assert f360 == (if Picks360(rest[0]) then Some(rest[0]) else b);
      if f480.Some? && f360.Some? {
        assert SelectFrom(rest, a, b) == (f480, f360);
        return;
      }
      assert SelectFrom(rest, a, b) == SelectFrom(es[k + 1..], f480, f360);
      k := k + 1;
    }
    assert es[k..] == [];
  }

  /** The SD search stops as soon as it has seen both kinds: once a prefix holds
      a 480p and a 360p entry, whatever follows it is never looked at. */
  lemma {:induction false} SelectFromIgnoresRest(p: seq<Entry>, q: seq<Entry>, a: Option<Entry>, b: Option<Entry>)
    requires a.Some? ==> Picks480(a.value)
    requires b.Some? ==> Picks360(b.value)
    requires |p| > 0
    requires a.Some? || exists i :: 0 <= i < |p| && Picks480(p[i])
    requires b.Some? || exists i :: 0 <= i < |p| && Picks360(p[i])
    ensures SelectFrom(p + q, a, b) == SelectFrom(p, a, b)
    decreases |p|
  {
    var pq := p + q;
    assert pq[0] == p[0] && pq[1..] == p[1..] + q;
    SelectFromStep(pq, a, b);
    SelectFromStep(p, a, b);
    var a' := if Picks480(p[0]) then Some(p[0]) else a;
    var b' := if Picks360(p[0]) then Some(p[0]) else b;
    if !(a'.Some? && b'.Some?) {
      if a'.None? {
        ShiftWitness480(p);
      }
      if b'.None? {
        ShiftWitness360(p);
      }
      SelectFromIgnoresRest(p[1..], q, a', b');
    }
  }

  /** One step of the SD search. */
  lemma SelectFromStep(es: seq<Entry>, a: Option<Entry>, b: Option<Entry>)
    requires a.Some? ==> Picks480(a.value)
    requires b.Some? ==> Picks360(b.value)
    requires |es| > 0
    ensures var a' := if Picks480(es[0]) then Some(es[0]) else a;
      var b' := if Picks360(es[0]) then Some(es[0]) else b;
      SelectFrom(es, a, b) == if a'.Some? && b'.Some? then (a', b') else SelectFrom(es[1..], a', b')
  {
  }

  lemma ShiftWitness480(p: seq<Entry>)
    requires |p| > 0 && !Picks480(p[0])
    requires exists i :: 0 <= i < |p| && Picks480(p[i])
    ensures |p| > 1 && exists i :: 0 <= i < |p[1..]| && Picks480(p[1..][i])
  {
    var i :| 0 <= i < |p| && Picks480(p[i]);
    assert p[1..][i - 1] == p[i];
  }

  lemma ShiftWitness360(p: seq<Entry>)
    requires |p| > 0 && !Picks360(p[0])
    requires exists i :: 0 <= i < |p| && Picks360(p[i])
    ensures |p| > 1 && exists i :: 0 <= i < |p[1..]| && Picks360(p[1..][i])
  {
    var i :| 0 <= i < |p| && Picks360(p[i]);
    assert p[1..][i - 1] == p[i];
  }

  lemma SelectSdIgnoresRest(p: seq<Entry>, q: seq<Entry>)
    requires exists i :: 0 <= i < |p| && Picks480(p[i])
    requires exists i :: 0 <= i < |p| && Picks360(p[i])
    ensures SelectSd(p + q) == SelectSd(p)
  {
    SelectFromIgnoresRest(p, q, None, None);
  }

  // ---------------------------------------------------------------------
  // Do the tiers name the same anime?

  /** The Python values the comparison at line 91 is made on. */
  datatype PyValue = PyNone | PyStr(s: string) | PyDict(d: map<string, string>)

  /** `anitopy.parse(title).get("anime_title")`, as a Python value. */
  function TitleValue(p: ParsedTitle): PyValue
  {
    if "anime_title" in p.fields then PyStr(p.fields["anime_title"]) else PyNone
  }

  /** `anitopy.parse(f.title) if f else ""`: the whole dictionary, not its title. */
  function ParseOrEmpty(f: Option<Entry>, parse: string -> ParsedTitle): PyValue
  {
    if f.Some? then PyDict(parse(f.value.title).fields) else PyStr("")
  }

  /** The chained comparison `a1080 == a720 == a480 == a360` of lines 83-91 as written. */
  predicate TitlesAgreeAsWritten(f1080: Entry, f720: Entry, f480: Option<Entry>, f360: Option<Entry>, parse: string -> ParsedTitle)
    ensures TitlesAgreeAsWritten(f1080, f720, f480, f360, parse) ==> f480.None? && f360.None?
  {
    var a1080 := TitleValue(parse(f1080.title));
    var a720 := TitleValue(parse(f720.title));
    var a480 := ParseOrEmpty(f480, parse);
    var a360 := ParseOrEmpty(f360, parse);
    a1080 == a720 && a720 == a480 && a480 == a360
  }

  /** The comparison lines 83-91 evidently intend: every tier that is present
      has the same `anime_title` as the 1080p entry. */
  predicate TitlesAgree(f1080: Entry, f720: Entry, f480: Option<Entry>, f360: Option<Entry>, parse: string -> ParsedTitle)
    ensures TitlesAgree(f1080, f720, f480, f360, parse) <==>
      forall e :: e in PresentTiers(f1080, f720, f480, f360) ==> AnimeTitle(parse(e.title)) == AnimeTitle(parse(f1080.title))
  {
    var t := AnimeTitle(parse(f1080.title));
    && AnimeTitle(parse(f720.title)) == t
    && (f480.Some? ==> AnimeTitle(parse(f480.value.title)) == t)
    && (f360.Some? ==> AnimeTitle(parse(f360.value.title)) == t)
  }

  function Agree(check: TitleCheck, f1080: Entry, f720: Entry, f480: Option<Entry>, f360: Option<Entry>, parse: string -> ParsedTitle): bool
  {
    match check
    case AsWritten => TitlesAgreeAsWritten(f1080, f720, f480, f360, parse)
    case Intended => TitlesAgree(f1080, f720, f480, f360, parse)
  }

  /** The entries of the tiers that are present, in the order 1080p, 720p, 480p, 360p. */
  function PresentTiers(f1080: Entry, f720: Entry, f480: Option<Entry>, f360: Option<Entry>): seq<Entry>
  {
    [f1080, f720] + (if f480.Some? then [f480.value] else []) + (if f360.Some? then [f360.value] else [])
  }

  /** The intended comparison holds exactly when all present tiers carry one anime title. */
  lemma TitlesAgreeIffPresentTitlesEqual(f1080: Entry, f720: Entry, f480: Option<Entry>, f360: Option<Entry>, parse: string -> ParsedTitle)
    ensures var ps := PresentTiers(f1080, f720, f480, f360);
      TitlesAgree(f1080, f720, f480, f360, parse) <==>
      forall j, k :: 0 <= j < |ps| && 0 <= k < |ps| ==> AnimeTitle(parse(ps[j].title)) == AnimeTitle(parse(ps[k].title))
  {
    var ps := PresentTiers(f1080, f720, f480, f360);
    assert ps[0] == f1080 && ps[1] == f720;
    if f480.Some? {
      assert ps[2] == f480.value;
    }
    if f360.Some? {
      assert ps[|ps| - 1] == f360.value;
    }
    if TitlesAgree(f1080, f720, f480, f360, parse) {
      forall j | 0 <= j < |ps|
        ensures AnimeTitle(parse(ps[j].title)) == AnimeTitle(parse(f1080.title))
      {
        assert ps[j] in [f1080, f720] || (f480.Some? && ps[j] == f480.value) || (f360.Some? && ps[j] == f360.value);
      }
    }
  }

  /** As written, the comparison fails as soon as the SD feed supplied a 480p or
      a 360p entry: a dictionary never equals a string or `None`. */
  lemma AsWrittenRejectsSdTiers(f1080: Entry, f720: Entry, f480: Option<Entry>, f360: Option<Entry>, parse: string -> ParsedTitle)
    requires f480.Some? || f360.Some?
    ensures !TitlesAgreeAsWritten(f1080, f720, f480, f360, parse)
  {
  }

  /** As written, the comparison holds only when both SD tiers are missing and
      the 1080p and 720p titles are both the empty string. */
  lemma AsWrittenAgreementIsDegenerate(f1080: Entry, f720: Entry, f480: Option<Entry>, f360: Option<Entry>, parse: string -> ParsedTitle)
    ensures TitlesAgreeAsWritten(f1080, f720, f480, f360, parse) <==>
      f480.None? && f360.None? && AnimeTitle(parse(f1080.title)) == Some("") && AnimeTitle(parse(f720.title)) == Some("")
  {
  }

  /** A release whose four tiers all parse to the same anime is rejected by the
      comparison as written and accepted by the intended one. */
  lemma AsWrittenMissesMatchingRelease()
    ensures var parse := (t: string) => ParsedTitle(map["anime_title" := "Frieren"]);
      var f1080 := Entry("[SubsPlease] Frieren - 01 (1080p) [A1].mkv", "magnet:a");
      var f720 := Entry("[SubsPlease] Frieren - 01 (720p) [B2].mkv", "magnet:b");
      var f480 := Entry("[SubsPlease] Frieren - 01 (480p) [C3].mkv", "magnet:c");
      var f360 := Entry("[SubsPlease] Frieren - 01 (360p) [D4].mkv", "magnet:d");
      TitlesAgree(f1080, f720, Some(f480), Some(f360), parse) &&
      !TitlesAgreeAsWritten(f1080, f720, Some(f480), Some(f360), parse)
  {
  }

  // ---------------------------------------------------------------------
  // Batches and the release identifier

  /** Some present title contains `[Batch]` (lines 92-97). */
  predicate AnyBatch(f1080: Entry, f720: Entry, f480: Option<Entry>, f360: Option<Entry>)
    ensures AnyBatch(f1080, f720, f480, f360) <==>
      exists e :: e in PresentTiers(f1080, f720, f480, f360) && Contains(e.title, "[Batch]")
  {
    Contains(f1080.title, "[Batch]") || Contains(f720.title, "[Batch]") ||
    Contains(TitleOr(f480), "[Batch]") || Contains(TitleOr(f360), "[Batch]")
  }

  /** The string `digest` is applied to: the titles in tier order, "" for a missing tier. */
  function UidKey(f1080: Entry, f720: Entry, f480: Option<Entry>, f360: Option<Entry>): (r: string)
    ensures r == ConcatTitles(PresentTiers(f1080, f720, f480, f360))
  {
    PresentTitlesConcat(f1080, f720, f480, f360);
    f1080.title + f720.title + TitleOr(f480) + TitleOr(f360)
  }

  /** The titles of `es`, one after the other. */
  function ConcatTitles(es: seq<Entry>): string
  {
    if es == [] then [] else es[0].title + ConcatTitles(es[1..])
  }

  lemma PresentTitlesConcat(f1080: Entry, f720: Entry, f480: Option<Entry>, f360: Option<Entry>)
    ensures ConcatTitles(PresentTiers(f1080, f720, f480, f360)) == f1080.title + f720.title + TitleOr(f480) + TitleOr(f360)
  {
    var hd := [f1080, f720];
    var with480 := hd + (if f480.Some? then [f480.value] else []);
    assert ConcatTitles(hd) == f1080.title + f720.title by {
      assert hd[1..] == [f720] && [f720][1..] == [];
      assert ConcatTitles([f720]) == f720.title + [];
      assert f720.title + [] == f720.title;
    }
    if f480.Some? {
      ConcatTitlesSnoc(hd, f480.value);
    } else {
      assert with480 == hd;
    }
    assert ConcatTitles(with480) == f1080.title + f720.title + TitleOr(f480);
    if f360.Some? {
      ConcatTitlesSnoc(with480, f360.value);
    } else {
      assert PresentTiers(f1080, f720, f480, f360) == with480;
    }
  }

  lemma {:induction false} ConcatTitlesSnoc(es: seq<Entry>, e: Entry)
    ensures ConcatTitles(es + [e]) == ConcatTitles(es) + e.title
  {
    if es != [] {
      assert (es + [e])[1..] == es[1..] + [e];
      ConcatTitlesSnoc(es[1..], e);
    } else {
      assert [e][1..] == [];
    }
  }

  /** The key is built from the titles alone: releases whose tiers carry the same
      titles get the same identifier, whatever their links. */
  lemma UidDependsOnlyOnTitles(hash: string -> string,
                               a1080: Entry, a720: Entry, a480: Option<Entry>, a360: Option<Entry>,
                               b1080: Entry, b720: Entry, b480: Option<Entry>, b360: Option<Entry>)
    requires a1080.title == b1080.title && a720.title == b720.title
    requires TitleOr(a480) == TitleOr(b480) && TitleOr(a360) == TitleOr(b360)
    ensures hash(UidKey(a1080, a720, a480, a360)) == hash(UidKey(b1080, b720, b480, b360))
  {
  }

  /** The key loses nothing but the boundaries between titles: two keys that are
      equal, built from titles of the same lengths, come from the same titles. */
  lemma {:induction false} UidKeyDeterminesTitles(a1080: Entry, a720: Entry, a480: Option<Entry>, a360: Option<Entry>,
                                                  b1080: Entry, b720: Entry, b480: Option<Entry>, b360: Option<Entry>)
    requires |a1080.title| == |b1080.title| && |a720.title| == |b720.title| && |TitleOr(a480)| == |TitleOr(b480)|
    requires UidKey(a1080, a720, a480, a360) == UidKey(b1080, b720, b480, b360)
    ensures a1080.title == b1080.title && a720.title == b720.title
    ensures TitleOr(a480) == TitleOr(b480) && TitleOr(a360) == TitleOr(b360)
  {
    var a3, b3 := a1080.title + a720.title + TitleOr(a480), b1080.title + b720.title + TitleOr(b480);
    var a2, b2 := a1080.title + a720.title, b1080.title + b720.title;
    EqualConcatSplit(a3, TitleOr(a360), b3, TitleOr(b360));
    EqualConcatSplit(a2, TitleOr(a480), b2, TitleOr(b480));
    EqualConcatSplit(a1080.title, a720.title, b1080.title, b720.title);
  }

  /** Two equal concatenations with first parts of equal length have equal parts. */
  lemma EqualConcatSplit(x: string, y: string, x': string, y': string)
    requires |x| == |x'| && x + y == x' + y'
    ensures x == x' && y == y'
  {
    assert x == (x + y)[..|x|] && x' == (x' + y')[..|x|];
    assert y == (x + y)[|x|..] && y' == (x' + y')[|x|..];
  }

  // ---------------------------------------------------------------------
  // The scan over indices 2, 1, 0

  /** The record index `i` yields when its titles agree and none is a batch,
      before the uploaded set is consulted. */
  function Candidate(f: Feeds, i: nat, check: TitleCheck, parse: string -> ParsedTitle, hash: string -> string): (r: Option<Release>)
    requires i < |f.hd| && i < |f.md|
    ensures var (f480, f360) := SelectSd(f.sd);
      r.None? <==> !Agree(check, f.hd[i], f.md[i], f480, f360, parse) || AnyBatch(f.hd[i], f.md[i], f480, f360)
    ensures r.Some? ==>
      && r.value.t1080 == f.hd[i] && r.value.t720 == f.md[i]
      && (r.value.t480, r.value.t360) == SelectSd(f.sd)
      && !AnyBatch(r.value.t1080, r.value.t720, r.value.t480, r.value.t360)
      && r.value.uid == hash(UidKey(r.value.t1080, r.value.t720, r.value.t480, r.value.t360))
  {
    var (f480, f360) := SelectSd(f.sd);
    var f1080, f720 := f.hd[i], f.md[i];
    if !Agree(check, f1080, f720, f480, f360, parse) then None
    else if AnyBatch(f1080, f720, f480, f360) then None
    else Some(Release(hash(UidKey(f1080, f720, f480, f360)), f1080, f720, f480, f360))
  }

  /** Index `i` passes every check and its identifier is not stored yet. */
  predicate Accepts(f: Feeds, i: nat, check: TitleCheck, parse: string -> ParsedTitle, hash: string -> string, store: set<string>)
    requires i < |f.hd| && i < |f.md|
  {
    var c := Candidate(f, i, check, parse, hash);
    c.Some? && c.value.uid !in store
  }

  /** The scan from index `i` down to 0; an index missing from the 1080p or
      720p feed raises, which ends the scan with `None`. */
  function ScanFrom(f: Feeds, i: int, check: TitleCheck, parse: string -> ParsedTitle, hash: string -> string, store: set<string>): (r: Option<Release>)
    requires i <= 2
    ensures r.Some? ==> r.value.uid !in store
    decreases i + 1
  {
    if i < 0 then None
    else if i >= |f.hd| || i >= |f.md| then None
    else if Accepts(f, i, check, parse, hash, store) then Candidate(f, i, check, parse, hash)
    else ScanFrom(f, i - 1, check, parse, hash, store)
  }

  /** What `feed_optimizer` returns. */
  function Optimize(s: Snapshots, check: TitleCheck, parse: string -> ParsedTitle, hash: string -> string, store: set<string>): (r: Option<Release>)
    ensures s.d1080.None? || s.d720.None? || s.dsd.None? ==> r.None?
    ensures r.Some? ==> r.value.uid !in store
  {
    if s.d1080.None? || s.d720.None? || s.dsd.None? then None
    else ScanFrom(Feeds(s.d1080.value, s.d720.value, s.dsd.value), 2, check, parse, hash, store)
  }

  /** Whether the scan accepts index `j`, as a function of the index. */
  function AcceptsAt(f: Feeds, check: TitleCheck, parse: string -> ParsedTitle, hash: string -> string, store: set<string>): int -> bool
  {
    j => 0 <= j < |f.hd| && j < |f.md| && Accepts(f, j, check, parse, hash, store)
  }

  /** `i` is the first index, counting down from `n`, where `acc` holds. */
  predicate FirstFrom(acc: int -> bool, n: int, i: int)
  {
    0 <= i <= n && acc(i) && forall j :: i < j <= n ==> !acc(j)
  }

  /** Index `i` is the first one, counting down from `n`, that the scan accepts. */
  predicate FirstAcceptedAt(f: Feeds, n: int, i: int, check: TitleCheck, parse: string -> ParsedTitle, hash: string -> string, store: set<string>)
  {
    n < |f.hd| && n < |f.md| && FirstFrom(AcceptsAt(f, check, parse, hash, store), n, i)
  }

  /** The scan returns a record exactly when, with index `n` present in both the
      1080p and 720p feeds, some index counting down from `n` is accepted; the
      record is that of the first such index. */
  lemma ScanFindsFirstAccepted(f: Feeds, n: int, check: TitleCheck, parse: string -> ParsedTitle, hash: string -> string, store: set<string>, rel: Release)
    requires n <= 2
    ensures ScanFrom(f, n, check, parse, hash, store) == Some(rel) <==>
      exists i :: FirstAcceptedAt(f, n, i, check, parse, hash, store) && Candidate(f, i, check, parse, hash) == Some(rel)
  {
    if ScanFrom(f, n, check, parse, hash, store) == Some(rel) {
      var i := ScanYieldsFirst(f, n, check, parse, hash, store);
    }
    if exists i :: FirstAcceptedAt(f, n, i, check, parse, hash, store) && Candidate(f, i, check, parse, hash) == Some(rel) {
      var i :| FirstAcceptedAt(f, n, i, check, parse, hash, store) && Candidate(f, i, check, parse, hash) == Some(rel);
      FirstYieldsScan(f, n, i, check, parse, hash, store);
    }
  }

  /** A record from the scan is that of the first accepted index. */
  lemma {:induction false} ScanYieldsFirst(f: Feeds, n: int, check: TitleCheck, parse: string -> ParsedTitle, hash: string -> string, store: set<string>)
    returns (i: int)
    requires n <= 2
    requires ScanFrom(f, n, check, parse, hash, store).Some?
    ensures FirstAcceptedAt(f, n, i, check, parse, hash, store)
    ensures Candidate(f, i, check, parse, hash) == ScanFrom(f, n, check, parse, hash, store)
    decreases n + 1
  {
    assert 0 <= n < |f.hd| && n < |f.md|;
    ScanStep(f, n, check, parse, hash, store);
    if Accepts(f, n, check, parse, hash, store) {
      i := n;
      FirstAcceptedHere(f, n, n, check, parse, hash, store);
    } else {
      i := ScanYieldsFirst(f, n - 1, check, parse, hash, store);
      FirstAcceptedShift(f, n, i, check, parse, hash, store);
    }
  }

  /** The first accepted index is the one whose record the scan returns. */
  lemma FirstYieldsScan(f: Feeds, n: int, i: int, check: TitleCheck, parse: string -> ParsedTitle, hash: string -> string, store: set<string>)
    requires n <= 2
    requires FirstAcceptedAt(f, n, i, check, parse, hash, store)
    ensures ScanFrom(f, n, check, parse, hash, store) == Candidate(f, i, check, parse, hash)
  {
    FirstAcceptedIsAccepted(f, n, i, check, parse, hash, store);
    ScanNoneIff(f, n, check, parse, hash, store);
    var i' := ScanYieldsFirst(f, n, check, parse, hash, store);
    FirstFromUnique(AcceptsAt(f, check, parse, hash, store), n, i, i');
  }

  lemma FirstAcceptedHere(f: Feeds, n: int, i: int, check: TitleCheck, parse: string -> ParsedTitle, hash: string -> string, store: set<string>)
    requires 0 <= n < |f.hd| && n < |f.md|
    requires Accepts(f, n, check, parse, hash, store)
    ensures FirstAcceptedAt(f, n, i, check, parse, hash, store) <==> i == n
  {
    FirstFromHere(AcceptsAt(f, check, parse, hash, store), n, i);
  }

  lemma FirstAcceptedShift(f: Feeds, n: int, i: int, check: TitleCheck, parse: string -> ParsedTitle, hash: string -> string, store: set<string>)
    requires 0 <= n < |f.hd| && n < |f.md|
    requires !Accepts(f, n, check, parse, hash, store)
    ensures FirstAcceptedAt(f, n, i, check, parse, hash, store) <==> FirstAcceptedAt(f, n - 1, i, check, parse, hash, store)
  {
    FirstFromShift(AcceptsAt(f, check, parse, hash, store), n, i);
  }

  lemma FirstAcceptedIsAccepted(f: Feeds, n: int, i: int, check: TitleCheck, parse: string -> ParsedTitle, hash: string -> string, store: set<string>)
    requires FirstAcceptedAt(f, n, i, check, parse, hash, store)
    ensures 0 <= i <= n < |f.hd| && n < |f.md| && Accepts(f, i, check, parse, hash, store)
  {
    assert AcceptsAt(f, check, parse, hash, store)(i);
  }

  /** One index of the scan: the record there if it is accepted, else the rest of the scan. */
  lemma ScanStep(f: Feeds, i: int, check: TitleCheck, parse: string -> ParsedTitle, hash: string -> string, store: set<string>)
    requires 0 <= i <= 2 && i < |f.hd| && i < |f.md|
    ensures ScanFrom(f, i, check, parse, hash, store) ==
      if Accepts(f, i, check, parse, hash, store) then Candidate(f, i, check, parse, hash) else ScanFrom(f, i - 1, check, parse, hash, store)
  {
  }

  lemma FirstFromUnique(acc: int -> bool, n: int, i: int, i': int)
    requires FirstFrom(acc, n, i) && FirstFrom(acc, n, i')
    ensures i == i'
  {
  }

  lemma FirstFromHere(acc: int -> bool, n: int, i: int)
    requires 0 <= n && acc(n)
    ensures FirstFrom(acc, n, i) <==> i == n
  {
  }

  lemma FirstFromShift(acc: int -> bool, n: int, i: int)
    requires !acc(n)
    ensures FirstFrom(acc, n, i) <==> FirstFrom(acc, n - 1, i)
  {
  }

  /** The scan returns nothing exactly when index `n` is missing from the 1080p
      or 720p feed, or no index from `n` down to 0 is accepted. */
  lemma {:induction false} ScanNoneIff(f: Feeds, n: int, check: TitleCheck, parse: string -> ParsedTitle, hash: string -> string, store: set<string>)
    requires 0 <= n <= 2
    ensures ScanFrom(f, n, check, parse, hash, store).None? <==>
      n >= |f.hd| || n >= |f.md| || forall j :: 0 <= j <= n ==> !Accepts(f, j, check, parse, hash, store)
    decreases n
  {
    if n > 0 && n < |f.hd| && n < |f.md| && !Accepts(f, n, check, parse, hash, store) {
      ScanStep(f, n, check, parse, hash, store);
      ScanNoneIff(f, n - 1, check, parse, hash, store);
      NoneAcceptedExtends(f, n, check, parse, hash, store);
    }
  }

  lemma NoneAcceptedExtends(f: Feeds, n: int, check: TitleCheck, parse: string -> ParsedTitle, hash: string -> string, store: set<string>)
    requires 0 < n < |f.hd| && n < |f.md|
    requires !Accepts(f, n, check, parse, hash, store)
    ensures (forall j :: 0 <= j <= n ==> !Accepts(f, j, check, parse, hash, store)) <==>
      (forall j :: 0 <= j <= n - 1 ==> !Accepts(f, j, check, parse, hash, store))
  {
  }

  /** The 1080p or the 720p feed with fewer than three entries makes the whole
      call return nothing: index 2 raises before any other index is tried. */
  lemma ShortFeedGivesNone(s: Snapshots, check: TitleCheck, parse: string -> ParsedTitle, hash: string -> string, store: set<string>)
    requires s.d1080.Some? && s.d720.Some?
    requires |s.d1080.value| < 3 || |s.d720.value| < 3
    ensures Optimize(s, check, parse, hash, store).None?
  {
  }

  /** As written, every record the scan returns lacks both SD tiers. */
  lemma AsWrittenNeverYieldsSdTiers(s: Snapshots, parse: string -> ParsedTitle, hash: string -> string, store: set<string>)
    ensures var r := Optimize(s, AsWritten, parse, hash, store);
      r.Some? ==> r.value.t480.None? && r.value.t360.None?
  {
    var r := Optimize(s, AsWritten, parse, hash, store);
    if r.Some? {
      var f := Feeds(s.d1080.value, s.d720.value, s.dsd.value);
      ScanFindsFirstAccepted(f, 2, AsWritten, parse, hash, store, r.value);
      var i :| FirstAcceptedAt(f, 2, i, AsWritten, parse, hash, store) && Candidate(f, i, AsWritten, parse, hash) == r;
      var rel := r.value;
      if rel.t480.Some? || rel.t360.Some? {
        AsWrittenRejectsSdTiers(rel.t1080, rel.t720, rel.t480, rel.t360, parse);
      }
    }
  }

  /** `feed_optimizer`, lines 60-115. */
  method FeedOptimizer(s: Snapshots, check: TitleCheck, parse: string -> ParsedTitle, hash: string -> string, store: set<string>)
    returns (r: Option<Release>)
    ensures r == Optimize(s, check, parse, hash, store)
  {
    if s.d1080.None? || s.d720.None? || s.dsd.None? {
      return None;
    }
    var d1080, d720, dsd := s.d1080.value, s.d720.value, s.dsd.value;
    ghost var f := Feeds(d1080, d720, dsd);
    var i := 2;
    while i >= 0
      invariant -1 <= i <= 2
      invariant ScanFrom(f, i, check, parse, hash, store) == Optimize(s, check, parse, hash, store)
      decreases i + 1
    {
      if i >= |d1080| || i >= |d720| {
        // the IndexError is caught by the handler at line 113
        return None;
      }
      var f1080, f720 := d1080[i], d720[i];
      var f480, f360 := SelectSdEntries(dsd);
      ScanStep(f, i, check, parse, hash, store);
      assert Candidate(f, i, check, parse, hash) ==
        if !Agree(check, f1080, f720, f480, f360, parse) || AnyBatch(f1080, f720, f480, f360) then None
        else Some(Release(hash(UidKey(f1080, f720, f480, f360)), f1080, f720, f480, f360));
      if Agree(check, f1080, f720, f480, f360, parse) {
        if AnyBatch(f1080, f720, f480, f360) {
          i := i - 1;
          continue;
        }
        var uid := hash(UidKey(f1080, f720, f480, f360));
        if uid !in store {
          return Some(Release(uid, f1080, f720, f480, f360));
        }
      }
      i := i - 1;
    }
    return None;
  }

  // ---------------------------------------------------------------------
  // One step of `on_new_anime`

  /** What the poll step does, in order: hand the record to the callback, then store its identifier. */
  datatype PollEvent = Dispatched(release: Release) | Recorded(uid: string)

  /** The uploaded set after one poll step that found `data`. */
  function StoreAfter(store: set<string>, data: Option<Release>): (r: set<string>)
  {
    if data.Some? then store + {data.value.uid} else store
  }

  /** The poller and the uploaded-anime table it writes to. */
  class Poller {
    var uploaded: set<string>
    var events: seq<PollEvent>

    constructor(uploaded: set<string>)
      ensures this.uploaded == uploaded && events == []
    {
      this.uploaded := uploaded;
      events := [];
    }

    /** One iteration of the loop at lines 118-123, without the sleep; `check`
        picks the title comparison as written or as intended. */
    method PollStep(s: Snapshots, check: TitleCheck, parse: string -> ParsedTitle, hash: string -> string) returns (data: Option<Release>)
      modifies this
      ensures data == Optimize(s, check, parse, hash, old(uploaded))
      ensures uploaded == StoreAfter(old(uploaded), data)
      ensures events == old(events) + (if data.Some? then [Dispatched(data.value), Recorded(data.value.uid)] else [])
    {
      data := FeedOptimizer(s, check, parse, hash, uploaded);
      if data.Some? {
        events := events + [Dispatched(data.value)];
        uploaded := uploaded + {data.value.uid};
        events := events + [Recorded(data.value.uid)];
      }
    }
  }

  /** The uploaded set after one poll step over the snapshots `s`. */
  function StoreAfterPoll(s: Snapshots, check: TitleCheck, parse: string -> ParsedTitle, hash: string -> string, store: set<string>): set<string>
  {
    StoreAfter(store, Optimize(s, check, parse, hash, store))
  }

  /** The indices of the scan that are currently accepted. */
  function AcceptedSet(f: Feeds, check: TitleCheck, parse: string -> ParsedTitle, hash: string -> string, store: set<string>): set<int>
  {
    set i | 0 <= i <= 2 && i < |f.hd| && i < |f.md| && Accepts(f, i, check, parse, hash, store)
  }

  lemma SubsetCard(a: set<int>, b: set<int>)
    requires a <= b
    ensures |a| <= |b|
  {
    assert b == a + (b - a);
  }

  /** Storing the identifier a poll returned removes at least the returned index
      from the accepted ones and adds none. */
  lemma {:induction false} PollShrinksAccepted(s: Snapshots, check: TitleCheck, parse: string -> ParsedTitle, hash: string -> string, store: set<string>)
    requires s.d1080.Some? && s.d720.Some? && s.dsd.Some?
    requires Optimize(s, check, parse, hash, store).Some?
    ensures var f := Feeds(s.d1080.value, s.d720.value, s.dsd.value);
      var store' := StoreAfter(store, Optimize(s, check, parse, hash, store));
      |AcceptedSet(f, check, parse, hash, store')| < |AcceptedSet(f, check, parse, hash, store)|
  {
    var f := Feeds(s.d1080.value, s.d720.value, s.dsd.value);
    var rel := Optimize(s, check, parse, hash, store).value;
    var store' := StoreAfter(store, Some(rel));
    ScanFindsFirstAccepted(f, 2, check, parse, hash, store, rel);
    var i :| FirstAcceptedAt(f, 2, i, check, parse, hash, store) && Candidate(f, i, check, parse, hash) == Some(rel);
    FirstAcceptedIsAccepted(f, 2, i, check, parse, hash, store);
    assert store' == store + {rel.uid};
    StoringShrinksAccepted(f, i, check, parse, hash, store, rel.uid);
  }

  /** Storing the identifier of an accepted index removes that index from the
      accepted ones and adds none. */
  lemma StoringShrinksAccepted(f: Feeds, i: int, check: TitleCheck, parse: string -> ParsedTitle, hash: string -> string, store: set<string>, uid: string)
    requires 0 <= i <= 2 && i < |f.hd| && i < |f.md|
    requires Accepts(f, i, check, parse, hash, store)
    requires Candidate(f, i, check, parse, hash).value.uid == uid
    ensures |AcceptedSet(f, check, parse, hash, store + {uid})| < |AcceptedSet(f, check, parse, hash, store)|
  {
    var before, after := AcceptedSet(f, check, parse, hash, store), AcceptedSet(f, check, parse, hash, store + {uid});
    assert i in before && i !in after;
    forall j | j in after
      ensures j in before - {i}
    {
      AcceptsWithFewerStored(f, j, check, parse, hash, store, uid);
    }
    SubsetCard(after, before - {i});
  }

  lemma AcceptsWithFewerStored(f: Feeds, j: int, check: TitleCheck, parse: string -> ParsedTitle, hash: string -> string, store: set<string>, uid: string)
    requires 0 <= j < |f.hd| && j < |f.md|
    requires Accepts(f, j, check, parse, hash, store + {uid})
    ensures Accepts(f, j, check, parse, hash, store)
  {
  }

  /** Polling the same snapshots again and again stops finding new releases
      after at most three steps: each step stores an identifier, and only three
      indices are ever scanned. */
  lemma RepeatedPollsDrain(s: Snapshots, check: TitleCheck, parse: string -> ParsedTitle, hash: string -> string, store: set<string>)
    ensures var st1 := StoreAfterPoll(s, check, parse, hash, store);
      var st2 := StoreAfterPoll(s, check, parse, hash, st1);
      var st3 := StoreAfterPoll(s, check, parse, hash, st2);
      Optimize(s, check, parse, hash, st3).None?
  {
    if s.d1080.Some? && s.d720.Some? && s.dsd.Some? {
      var f := Feeds(s.d1080.value, s.d720.value, s.dsd.value);
      var st1 := StoreAfterPoll(s, check, parse, hash, store);
      var st2 := StoreAfterPoll(s, check, parse, hash, st1);
      var st3 := StoreAfterPoll(s, check, parse, hash, st2);
      AcceptedAtMostThree(f, check, parse, hash, store);
      PollStepBound(s, f, check, parse, hash, store, 0);
      PollStepBound(s, f, check, parse, hash, st1, 1);
      PollStepBound(s, f, check, parse, hash, st2, 2);
      NoneAcceptedGivesNone(s, f, check, parse, hash, st3);
    }
  }

  lemma NoneAcceptedGivesNone(s: Snapshots, f: Feeds, check: TitleCheck, parse: string -> ParsedTitle, hash: string -> string, st: set<string>)
    requires s.d1080.Some? && s.d720.Some? && s.dsd.Some?
    requires f == Feeds(s.d1080.value, s.d720.value, s.dsd.value)
    requires Optimize(s, check, parse, hash, st).None? || |AcceptedSet(f, check, parse, hash, st)| + 3 <= 3
    ensures Optimize(s, check, parse, hash, st).None?
  {
    var accepted := AcceptedSet(f, check, parse, hash, st);
    if |f.hd| >= 3 && |f.md| >= 3 && |accepted| == 0 {
      forall j | 0 <= j <= 2
        ensures !Accepts(f, j, check, parse, hash, st)
      {
        assert j !in accepted;
      }
      ScanNoneIff(f, 2, check, parse, hash, st);
    }
  }

  lemma AcceptedAtMostThree(f: Feeds, check: TitleCheck, parse: string -> ParsedTitle, hash: string -> string, store: set<string>)
    ensures |AcceptedSet(f, check, parse, hash, store)| <= 3
  {
    var a := AcceptedSet(f, check, parse, hash, store);
    assert a <= {0, 1, 2} by {
      forall i | i in a
        ensures i == 0 || i == 1 || i == 2
      {
      }
    }
    SubsetCard(a, {0, 1, 2});
  }

  /** One more poll either finds nothing or leaves one index fewer accepted. */
  lemma PollStepBound(s: Snapshots, f: Feeds, check: TitleCheck, parse: string -> ParsedTitle, hash: string -> string, prev: set<string>, k: nat)
    requires s.d1080.Some? && s.d720.Some? && s.dsd.Some?
    requires f == Feeds(s.d1080.value, s.d720.value, s.dsd.value)
    requires Optimize(s, check, parse, hash, prev).None? || |AcceptedSet(f, check, parse, hash, prev)| + k <= 3
    ensures var st := StoreAfterPoll(s, check, parse, hash, prev);
      Optimize(s, check, parse, hash, st).None? || |AcceptedSet(f, check, parse, hash, st)| + k + 1 <= 3
  {
    if Optimize(s, check, parse, hash, prev).Some? {
      PollShrinksAccepted(s, check, parse, hash, prev);
    }
  }

}
