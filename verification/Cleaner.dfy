/**
 The LUN cleaner: which maps a pass flushes, and what that means over a whole history of passes. What
 the host's tools report (open counts, SCSI ids, path states) is an arbitrary input of each pass.
 */
module Cleaner {
  import opened GoStrings
  import opened Multipath
  import opened Arith

  /** What the host's tools answer during one pass; -1 is an open count that could not be determined. */
  datatype Host = Host(openCount: string -> int, scsiId: string -> string, pathState: string -> string)

  predicate Mismatch(m: MpMap, host: Host, dev: string) { host.scsiId(dev) != "" && host.scsiId(dev) != m.wwid }
  predicate Healthy(m: MpMap, host: Host, dev: string) {
    host.scsiId(dev) == m.wwid && host.pathState(dev) == "running"
  }

  /** No path, or a path that answers with another volume's id, or no path that is healthy. */
  predicate Stale(m: MpMap, host: Host) {
    || m.paths == []
    || (exists dev :: dev in m.paths && Mismatch(m, host, dev))
    || (forall dev :: dev in m.paths ==> !Healthy(m, host, dev))
  }

  method PathsStale(m: MpMap, host: Host) returns (stale: bool, reason: string)
    ensures stale <==> Stale(m, host)
    ensures stale <==> reason != ""
    ensures forall i :: 0 <= i < |m.paths| && Mismatch(m, host, m.paths[i])
              && (forall j :: 0 <= j < i ==> !Mismatch(m, host, m.paths[j]))
              ==> reason == "scsi-id-mismatch:" + m.paths[i] + "=" + host.scsiId(m.paths[i])
  {
    if |m.paths| == 0 { return true, "no-paths"; }
    var anyHealthy := false;
    for i := 0 to |m.paths|
      invariant forall j :: 0 <= j < i ==> !Mismatch(m, host, m.paths[j])
      invariant anyHealthy <==> exists j :: 0 <= j < i && Healthy(m, host, m.paths[j])
    {
      var dev := m.paths[i];
      var sid := host.scsiId(dev);
      if sid != "" && sid != m.wwid {
        assert Mismatch(m, host, m.paths[i]);
        return true, "scsi-id-mismatch:" + dev + "=" + sid;
      }
      if sid == m.wwid && host.pathState(dev) == "running" {
        anyHealthy := true;
      }
    }
    if !anyHealthy { return true, "no-healthy-path"; }
    return false, "";
  }

  /** The order in which the paths are probed does not matter. */
  lemma StaleAnyOrder(m: MpMap, paths: seq<string>, host: Host)
    requires multiset(paths) == multiset(m.paths)
    ensures Stale(m.(paths := paths), host) == Stale(m, host)
  {
    assert |multiset(paths)| == |paths| && |multiset(m.paths)| == |m.paths|;
    forall dev ensures dev in paths <==> dev in m.paths {
      assert dev in multiset(paths) <==> dev in multiset(m.paths);
    }
    var n := m.(paths := paths);
    assert forall dev :: Mismatch(n, host, dev) == Mismatch(m, host, dev);
    assert forall dev :: Healthy(n, host, dev) == Healthy(m, host, dev);
  }

  // ---- one pass ----

  /** What a pass makes of one parsed map. */
  datatype Obs = Obs(wwid: string, ours: bool, idle: bool, stale: bool)

  predicate Candidate(o: Obs) { o.ours && o.idle && o.stale }

  function Observe(m: MpMap, vendor: string, host: Host): Obs {
    Obs(m.wwid, Contains(ToUpper(m.vendor), ToUpper(vendor)), host.openCount(m.name) == 0, Stale(m, host))
  }

  function ObserveAll(ms: seq<MpMap>, vendor: string, host: Host): (r: seq<Obs>)
    ensures |r| == |ms|
  {
    seq(|ms|, i requires 0 <= i < |ms| => Observe(ms[i], vendor, host))
  }

  /** A Go map read: a missing key counts as zero. */
  function Get(streak: map<string, int>, w: string): int { if w in streak then streak[w] else 0 }

  datatype Pass = Failed | Scanned(event: bool, seen: seq<Obs>)

  predicate Flushes(streak: map<string, int>, o: Obs, event: bool, grace: int) {
    Candidate(o) && (event || Get(streak, o.wwid) + 1 >= grace)
  }

  function OneMap(streak: map<string, int>, o: Obs, event: bool, grace: int): map<string, int> {
    if !o.ours then streak
    else if !o.idle || !o.stale then streak[o.wwid := 0]
    else if Flushes(streak, o, event, grace) then streak - {o.wwid}
    else streak[o.wwid := Get(streak, o.wwid) + 1]
  }

  function AllMaps(streak: map<string, int>, seen: seq<Obs>, event: bool, grace: int): map<string, int>
    decreases |seen|
  {
    if seen == [] then streak else AllMaps(OneMap(streak, seen[0], event, grace), seen[1..], event, grace)
  }

  /** The ids flushed, in order. */
  function Flushed(streak: map<string, int>, seen: seq<Obs>, event: bool, grace: int): seq<string>
    decreases |seen|
  {
    if seen == [] then []
    else (if Flushes(streak, seen[0], event, grace) then [seen[0].wwid] else [])
         + Flushed(OneMap(streak, seen[0], event, grace), seen[1..], event, grace)
  }

  /** The ids of the maps that are ours. */
  function OursIn(seen: seq<Obs>): set<string> {
    if seen == [] then {} else (if seen[0].ours then {seen[0].wwid} else {}) + OursIn(seen[1..])
  }

  lemma {:induction false} OursInExactly(seen: seq<Obs>, w: string)
    ensures w in OursIn(seen) <==> exists i :: 0 <= i < |seen| && seen[i].ours && seen[i].wwid == w
  {
    if seen != [] {
      OursInExactly(seen[1..], w);
      if w in OursIn(seen[1..]) {
        var i :| 0 <= i < |seen[1..]| && seen[1..][i].ours && seen[1..][i].wwid == w;
        assert seen[i + 1] == seen[1..][i];
      }
      if i :| 0 <= i < |seen| && seen[i].ours && seen[i].wwid == w {
        assert i > 0 ==> seen[1..][i - 1] == seen[i];
      }
    }
  }

  function Restrict(streak: map<string, int>, ws: set<string>): map<string, int> {
    map w | w in streak && w in ws :: streak[w]
  }

  /** The streaks after a pass: maps that were not seen are forgotten; a failed listing changes nothing. */
  function After(streak: map<string, int>, p: Pass, grace: int): map<string, int> {
    if p.Failed? then streak else Restrict(AllMaps(streak, p.seen, p.event, grace), OursIn(p.seen))
  }

  function FlushedIn(streak: map<string, int>, p: Pass, grace: int): seq<string> {
    if p.Failed? then [] else Flushed(streak, p.seen, p.event, grace)
  }

  datatype ScanResult = ScanResult(pure_: nat, idle: nat, stale: nat, flushed: nat) {
    function Plus(r: ScanResult): ScanResult {
      ScanResult(pure_ + r.pure_, idle + r.idle, stale + r.stale, flushed + r.flushed)
    }
  }

  function CountsOf(o: Obs, flushes: bool): ScanResult {
    ScanResult(if o.ours then 1 else 0, if o.ours && o.idle then 1 else 0, if Candidate(o) then 1 else 0,
               if flushes then 1 else 0)
  }

  /** Everything the loop over the maps accumulates. */
  datatype Totals = Totals(streak: map<string, int>, flushed: seq<string>, seen: set<string>, r: ScanResult) {
    function Plus(o: Obs, event: bool, grace: int): Totals {
      var flushes := Flushes(streak, o, event, grace);
      Totals(OneMap(streak, o, event, grace), flushed + if flushes then [o.wwid] else [],
             seen + if o.ours then {o.wwid} else {}, r.Plus(CountsOf(o, flushes)))
    }
  }

  function Fold(t: Totals, seen: seq<Obs>, event: bool, grace: int): Totals
    decreases |seen|
  {
    if seen == [] then t else Fold(t.Plus(seen[0], event, grace), seen[1..], event, grace)
  }

  function CountOurs(seen: seq<Obs>): nat {
    if seen == [] then 0 else (if seen[0].ours then 1 else 0) + CountOurs(seen[1..])
  }
  function CountIdle(seen: seq<Obs>): nat {
    if seen == [] then 0 else (if seen[0].ours && seen[0].idle then 1 else 0) + CountIdle(seen[1..])
  }
  function CountStale(seen: seq<Obs>): nat {
    if seen == [] then 0 else (if Candidate(seen[0]) then 1 else 0) + CountStale(seen[1..])
  }

  function SummaryOf(seen: seq<Obs>, flushed: nat): ScanResult {
    ScanResult(CountOurs(seen), CountIdle(seen), CountStale(seen), flushed)
  }

  lemma {:induction false} FoldIs(t: Totals, seen: seq<Obs>, event: bool, grace: int)
    ensures var flushed := Flushed(t.streak, seen, event, grace);
            Fold(t, seen, event, grace) == Totals(AllMaps(t.streak, seen, event, grace), t.flushed + flushed,
                                                  t.seen + OursIn(seen), t.r.Plus(SummaryOf(seen, |flushed|)))
    decreases |seen|
  {
    if seen != [] {
      FoldIs(t.Plus(seen[0], event, grace), seen[1..], event, grace);
    }
  }

  /** The whole loop, from the streaks before the pass. */
  lemma PassTotals(streak: map<string, int>, seen: seq<Obs>, event: bool, grace: int)
    ensures Fold(Totals(streak, [], {}, ScanResult(0, 0, 0, 0)), seen, event, grace)
         == Totals(AllMaps(streak, seen, event, grace), Flushed(streak, seen, event, grace), OursIn(seen),
                   SummaryOf(seen, |Flushed(streak, seen, event, grace)|))
  {
    var flushed := Flushed(streak, seen, event, grace);
    FoldIs(Totals(streak, [], {}, ScanResult(0, 0, 0, 0)), seen, event, grace);
    FromNothing(flushed, OursIn(seen), SummaryOf(seen, |flushed|));
  }

  lemma FromNothing(flushed: seq<string>, seen: set<string>, r: ScanResult)
    ensures [] + flushed == flushed && {} + seen == seen && ScanResult(0, 0, 0, 0).Plus(r) == r
  {
  }

  class Cleaner {
    const gracePolls: int
    const vendor: string
    var orphanStreak: map<string, int>

    constructor (gracePolls: int, vendor: string)
      ensures this.gracePolls == gracePolls && this.vendor == vendor && orphanStreak == map[]
    {
      this.gracePolls, this.vendor, orphanStreak := gracePolls, vendor, map[];
    }

    function PassOf(err: bool, out: string, trigger: string, host: Host): Pass {
      if err && out == "" then Failed else Scanned(trigger != "poll", ObserveAll(Parse(out), vendor, host))
    }

    /** One cleanup pass; `flushed` lists the maps handed to the full disconnect. */
    method ScanAndClean(err: bool, out: string, trigger: string, host: Host)
      returns (r: ScanResult, flushed: seq<string>)
      modifies this
      ensures orphanStreak == After(old(orphanStreak), PassOf(err, out, trigger, host), gracePolls)
      ensures flushed == FlushedIn(old(orphanStreak), PassOf(err, out, trigger, host), gracePolls)
      ensures r == match PassOf(err, out, trigger, host)
                   case Failed => ScanResult(0, 0, 0, 0)
                   case Scanned(_, seen) => SummaryOf(seen, |flushed|)
      ensures err && out == "" ==> orphanStreak == old(orphanStreak) && flushed == [] && r == ScanResult(0, 0, 0, 0)
      ensures !(err && out == "") ==>
                && (trigger != "poll" ==> FlushesOnEvent(flushed, Parse(out), vendor, host))
                && (trigger == "poll" ==>
                      FlushesOnPoll(flushed, Parse(out), vendor, host, old(orphanStreak), gracePolls))
                && StreaksLeft(orphanStreak, flushed, Parse(out), vendor, host, old(orphanStreak))
                && (r.pure_, r.idle, r.stale) == MapCounts(Parse(out), vendor, host) && r.flushed == |flushed|
    {
      r, flushed := ScanResult(0, 0, 0, 0), [];
      if err && out == "" { return; }
      var event := trigger != "poll";
      var maps := ParseMultipath(out);
      ghost var seen := ObserveAll(maps, vendor, host);
      PassTotals(orphanStreak, seen, event, gracePolls);
      var ids;
      PassDoes(orphanStreak, maps, vendor, host, event, gracePolls);
      MapsCounted(maps, vendor, host);
      r, flushed, ids := ScanAll(maps, event, host);
      ForgetUnseen(ids);
    }

    /** The loop over the parsed maps; `seen` collects the ids that are ours. */
    method ScanAll(maps: seq<MpMap>, event: bool, host: Host)
      returns (r: ScanResult, flushed: seq<string>, seen: set<string>)
      modifies this
      ensures var start := Totals(old(orphanStreak), [], {}, ScanResult(0, 0, 0, 0));
              Totals(orphanStreak, flushed, seen, r) == Fold(start, ObserveAll(maps, vendor, host), event, gracePolls)
    {
      r, flushed, seen := ScanResult(0, 0, 0, 0), [], {};
      ghost var obs := ObserveAll(maps, vendor, host);
      ghost var start := Totals(orphanStreak, flushed, seen, r);
      for i := 0 to |maps|
        invariant Fold(Totals(orphanStreak, flushed, seen, r), obs[i..], event, gracePolls)
               == Fold(start, obs, event, gracePolls)
      {
        ghost var t := Totals(orphanStreak, flushed, seen, r);
        var ours, counts, flushes, o := ScanMap(maps[i], event, host);
        seen := seen + if ours then {maps[i].wwid} else {};
        flushed := flushed + if flushes then [maps[i].wwid] else [];
        r := r.Plus(counts);
        assert Totals(orphanStreak, flushed, seen, r) == t.Plus(o, event, gracePolls);
        assert obs[i..][0] == o && obs[i..][1..] == obs[i + 1..];
      }
    }

    /** Streaks of maps that were not seen are deleted, in any order. */
    method ForgetUnseen(seen: set<string>)
      modifies this
      ensures orphanStreak == Restrict(old(orphanStreak), seen)
    {
      var left := orphanStreak.Keys;
      while left != {}
        invariant left <= old(orphanStreak).Keys
        invariant orphanStreak == map w | w in old(orphanStreak) && (w in left || w in seen) :: old(orphanStreak)[w]
        decreases left
      {
        var w :| w in left;
        left := left - {w};
        if w !in seen { orphanStreak := orphanStreak - {w}; }
      }
    }

    /** The body of the loop: the streak of one map, and whether it is flushed now. */
    method ScanMap(m: MpMap, event: bool, host: Host)
      returns (ours: bool, counts: ScanResult, flushes: bool, ghost o: Obs)
      modifies this
      ensures o == Observe(m, vendor, host)
      ensures ours == o.ours && flushes == Flushes(old(orphanStreak), o, event, gracePolls)
      ensures counts == CountsOf(o, flushes)
      ensures orphanStreak == OneMap(old(orphanStreak), o, event, gracePolls)
    {
      o := Observe(m, vendor, host);
      ours, counts, flushes := false, ScanResult(0, 0, 0, 0), false;
      if !Contains(ToUpper(m.vendor), ToUpper(vendor)) { return; }
      ours := true;
      counts := counts.(pure_ := 1);
      if host.openCount(m.name) != 0 {
        orphanStreak := orphanStreak[m.wwid := 0];
        return;
      }
      counts := counts.(idle := 1);
      var stale, reason := PathsStale(m, host);
      if !stale {
        orphanStreak := orphanStreak[m.wwid := 0];
        return;
      }
      counts := counts.(stale := 1);
      orphanStreak := orphanStreak[m.wwid := Get(orphanStreak, m.wwid) + 1];
      if event || orphanStreak[m.wwid] >= gracePolls {
        counts, flushes := counts.(flushed := 1), true;
        orphanStreak := orphanStreak - {m.wwid};
      }
    }
  }

  // ---- safety of one pass, whatever the host reports ----

  /** Whatever is flushed was ours, idle and stale in this very pass. */
  lemma {:induction false} FlushedOnlyStale(streak: map<string, int>,
          seen: seq<Obs>, event: bool, grace: int, w: string)
    requires w in Flushed(streak, seen, event, grace)
    ensures exists i :: 0 <= i < |seen| && seen[i].wwid == w && Candidate(seen[i])
    decreases |seen|
  {
    if Flushes(streak, seen[0], event, grace) && seen[0].wwid == w {
    } else {
      FlushedOnlyStale(OneMap(streak, seen[0], event, grace), seen[1..], event, grace, w);
      var i :| 0 <= i < |seen[1..]| && seen[1..][i].wwid == w && Candidate(seen[1..][i]);
      assert seen[i + 1] == seen[1..][i];
    }
  }

  /** A map in use, or with a healthy path and no mismatching one, is not flushed, however often it is seen. */
  lemma HandsOff(streak: map<string, int>, maps: seq<MpMap>,
          vendor: string, host: Host, event: bool, grace: int, w: string)
    requires forall i :: 0 <= i < |maps| && maps[i].wwid == w ==>
               || host.openCount(maps[i].name) != 0
               || ((exists dev :: dev in maps[i].paths && Healthy(maps[i], host, dev))
                   && forall dev :: dev in maps[i].paths ==> !Mismatch(maps[i], host, dev))
    ensures w !in Flushed(streak, ObserveAll(maps, vendor, host), event, grace)
  {
    var obs := ObserveAll(maps, vendor, host);
    if w in Flushed(streak, obs, event, grace) {
      FlushedOnlyStale(streak, obs, event, grace, w);
    }
  }

  ghost predicate Bounded(streak: map<string, int>, grace: int) { forall w :: w in streak ==> 0 <= streak[w] < grace }

  lemma {:induction false} AllMapsBounded(streak: map<string, int>, seen: seq<Obs>, event: bool, grace: int)
    requires grace >= 1 && Bounded(streak, grace)
    ensures Bounded(AllMaps(streak, seen, event, grace), grace)
    decreases |seen|
  {
    if seen != [] { AllMapsBounded(OneMap(streak, seen[0], event, grace), seen[1..], event, grace); }
  }

  /** Streaks stay below the grace limit, and only maps just seen have one. */
  lemma StreaksBounded(streak: map<string, int>, p: Pass, grace: int)
    requires grace >= 1 && Bounded(streak, grace)
    ensures Bounded(After(streak, p, grace), grace)
    ensures p.Scanned? ==> After(streak, p, grace).Keys <= OursIn(p.seen)
  {
    if p.Scanned? { AllMapsBounded(streak, p.seen, p.event, grace); }
  }

  // ---- one map over a history of passes ----

  /** What a pass means for one map: nothing (a failed listing), a reset, or one more stale sighting. */
  datatype Sighting = Missed | Reset | StaleSeen(event: bool)

  predicate StaleIn(seen: seq<Obs>, w: string) {
    exists i :: 0 <= i < |seen| && seen[i].wwid == w && Candidate(seen[i])
  }

  function SightingOf(p: Pass, w: string): Sighting {
    if p.Failed? then Missed else if StaleIn(p.seen, w) then StaleSeen(p.event) else Reset
  }

  /** The flush decision on a counter `n`, and the counter afterwards. */
  predicate Fires(n: int, s: Sighting, grace: int) { s.StaleSeen? && (s.event || n + 1 >= grace) }

  function Count(n: int, s: Sighting, grace: int): int {
    if s.Missed? then n else if s.Reset? || Fires(n, s, grace) then 0 else n + 1
  }

  function Sight(o: Obs, event: bool): Sighting { if o.idle && o.stale then StaleSeen(event) else Reset }

  /** What the lines of one pass that show this map mean for it, in order. */
  function Own(seen: seq<Obs>, w: string, event: bool): seq<Sighting> {
    if seen == [] then []
    else (if seen[0].ours && seen[0].wwid == w then [Sight(seen[0], event)] else []) + Own(seen[1..], w, event)
  }

  /** What lines of a successful pass can mean. */
  predicate FromPass(ss: seq<Sighting>, event: bool) {
    forall i :: 0 <= i < |ss| ==> ss[i] == Reset || ss[i] == StaleSeen(event)
  }

  /** A map that is not seen is forgotten, which is a reset. */
  function SightingsIn(p: Pass, w: string): (r: seq<Sighting>)
    ensures |r| >= 1
  {
    if p.Failed? then [Missed] else if Own(p.seen, w, p.event) == [] then [Reset] else Own(p.seen, w, p.event)
  }

  function CountAll(n: int, ss: seq<Sighting>, grace: int): int
    decreases |ss|
  {
    if ss == [] then n else CountAll(Count(n, ss[0], grace), ss[1..], grace)
  }

  predicate FiresSome(n: int, ss: seq<Sighting>, grace: int)
    decreases |ss|
  {
    ss != [] && (Fires(n, ss[0], grace) || FiresSome(Count(n, ss[0], grace), ss[1..], grace))
  }

  /** Within a pass, each line that shows the map counts in its turn, and no other line does. */
  lemma {:induction false} OwnLines(streak: map<string, int>, seen: seq<Obs>, event: bool, grace: int, w: string)
    ensures Get(AllMaps(streak, seen, event, grace), w) == CountAll(Get(streak, w), Own(seen, w, event), grace)
    ensures w in Flushed(streak, seen, event, grace) <==> FiresSome(Get(streak, w), Own(seen, w, event), grace)
    decreases |seen|
  {
    if seen != [] {
      var o := seen[0];
      OwnLines(OneMap(streak, o, event, grace), seen[1..], event, grace, w);
      if o.ours && o.wwid == w {
        assert Own(seen, w, event)[1..] == Own(seen[1..], w, event);
      } else {
        assert [] + Own(seen[1..], w, event) == Own(seen[1..], w, event);
      }
    }
  }

  lemma {:induction false} OwnExactly(seen: seq<Obs>, w: string, event: bool)
    ensures Own(seen, w, event) != [] <==> w in OursIn(seen)
    ensures StaleSeen(event) in Own(seen, w, event) <==> StaleIn(seen, w)
    ensures FromPass(Own(seen, w, event), event)
  {
    if seen != [] {
      OwnExactly(seen[1..], w, event);
      assert seen == [seen[0]] + seen[1..];
      StaleInCons(seen, w);
    }
  }

  lemma StaleInCons(seen: seq<Obs>, w: string)
    requires seen != []
    ensures StaleIn(seen, w) <==> (seen[0].wwid == w && Candidate(seen[0])) || StaleIn(seen[1..], w)
  {
    if StaleIn(seen[1..], w) {
      var i :| 0 <= i < |seen[1..]| && seen[1..][i].wwid == w && Candidate(seen[1..][i]);
      assert seen[i + 1].wwid == w && Candidate(seen[i + 1]);
    }
    if i :| 0 <= i < |seen| && seen[i].wwid == w && Candidate(seen[i]) {
      assert i > 0 ==> seen[1..][i - 1] == seen[i];
    }
  }

  /** The pass, seen from one map: its streak is a counter of its own, over its own sightings only. */
  lemma PassIsCounter(streak: map<string, int>, p: Pass, grace: int, w: string)
    ensures Get(After(streak, p, grace), w) == CountAll(Get(streak, w), SightingsIn(p, w), grace)
    ensures w in FlushedIn(streak, p, grace) <==> FiresSome(Get(streak, w), SightingsIn(p, w), grace)
  {
    var n := Get(streak, w);
    if p.Failed? {
      OneSighting(n, Missed, grace);
    } else {
      OwnLines(streak, p.seen, p.event, grace, w);
      OwnExactly(p.seen, w, p.event);
      OneSighting(n, Reset, grace);
    }
  }

  lemma OneSighting(n: int, s: Sighting, grace: int)
    ensures CountAll(n, [s], grace) == Count(n, s, grace) && (FiresSome(n, [s], grace) <==> Fires(n, s, grace))
  {
    assert [s][1..] == [];
  }

  // ---- when a pass counts as one sighting ----

  /** For every streak and every grace the pass does what one sighting of the map would do. */
  ghost predicate ActsOnce(p: Pass, w: string) {
    forall n: nat, grace: nat :: grace >= 1 ==> ActsAt(p, w, n, grace)
  }

  predicate ActsAt(p: Pass, w: string, n: nat, grace: nat) {
    && CountAll(n, SightingsIn(p, w), grace) == Count(n, SightingOf(p, w), grace)
    && (FiresSome(n, SightingsIn(p, w), grace) <==> Fires(n, SightingOf(p, w), grace))
  }

  lemma {:induction false} EventFold(n: int, ss: seq<Sighting>, grace: int)
    requires ss != [] && FromPass(ss, true)
    ensures CountAll(n, ss, grace) == 0 && (FiresSome(n, ss, grace) <==> StaleSeen(true) in ss)
    decreases |ss|
  {
    assert ss == [ss[0]] + ss[1..];
    if ss[1..] == [] {
      assert CountAll(0, [], grace) == 0;
    } else {
      EventFold(0, ss[1..], grace);
    }
  }

  lemma {:induction false} ResetFold(n: int, ss: seq<Sighting>, grace: int)
    requires ss != [] && forall i :: 0 <= i < |ss| ==> ss[i] == Reset
    ensures CountAll(n, ss, grace) == 0 && !FiresSome(n, ss, grace)
    decreases |ss|
  {
    if ss[1..] != [] { ResetFold(0, ss[1..], grace); }
  }

  /** Far from the grace limit the lines of a poll add up, unless one of them resets. */
  lemma {:induction false} PollFold(n: nat, ss: seq<Sighting>, grace: int)
    requires FromPass(ss, false) && n + |ss| < grace
    ensures if Reset in ss then 0 <= CountAll(n, ss, grace) < |ss| else CountAll(n, ss, grace) == n + |ss|
    decreases |ss|
  {
    if ss != [] {
      assert ss == [ss[0]] + ss[1..];
      PollFold(if ss[0] == Reset then 0 else n + 1, ss[1..], grace);
    }
  }

  /**
   A pass counts as one sighting of a map exactly when it failed, is a detach event, shows the map on at most one
   line, or shows it stale on none.
   */
  lemma OneSightingExactly(p: Pass, w: string)
    ensures ActsOnce(p, w) <==> p.Failed? || p.event || |Own(p.seen, w, p.event)| <= 1 || !StaleIn(p.seen, w)
  {
    if p.Scanned? {
      var own := Own(p.seen, w, p.event);
      OwnExactly(p.seen, w, p.event);
      if |own| <= 1 || p.event || !StaleIn(p.seen, w) {
        forall n: nat, grace: nat | grace >= 1 ensures ActsAt(p, w, n, grace) { OneSightingActs(p, w, n, grace); }
      } else {
        var n, grace := |own|, 2 * |own| + 5;
        PollFold(n, own, grace);
        assert !ActsAt(p, w, n, grace);
      }
    } else {
      forall n: nat, grace: nat | grace >= 1 ensures ActsAt(p, w, n, grace) { OneSighting(n, Missed, grace); }
    }
  }

  lemma OneSightingActs(p: Pass, w: string, n: nat, grace: nat)
    requires p.Scanned? && grace >= 1
    requires |Own(p.seen, w, p.event)| <= 1 || p.event || !StaleIn(p.seen, w)
    ensures ActsAt(p, w, n, grace)
  {
    var own := Own(p.seen, w, p.event);
    OwnExactly(p.seen, w, p.event);
    if |own| <= 1 {
      var s := SightingsIn(p, w)[0];
      assert SightingsIn(p, w) == [s];
      assert own != [] ==> own[0] in own;
      OneSighting(n, s, grace);
    } else if p.event {
      EventFold(n, own, grace);
    } else {
      ResetFold(n, own, grace);
    }
  }

  predicate Distinct(seen: seq<Obs>) { forall i, j :: 0 <= i < j < |seen| ==> seen[i].wwid != seen[j].wwid }

  /** Distinct ids show every map on at most one line. */
  lemma {:induction false} DistinctOnce(seen: seq<Obs>, w: string, event: bool)
    requires Distinct(seen)
    ensures |Own(seen, w, event)| <= 1
    ensures (forall i :: 0 <= i < |seen| ==> seen[i].wwid != w) ==> Own(seen, w, event) == []
  {
    if seen != [] {
      DistinctOnce(seen[1..], w, event);
      if seen[0].wwid == w { assert forall i :: 0 <= i < |seen[1..]| ==> seen[1..][i] == seen[i + 1]; }
    }
  }

  // ---- one map over a history ----

  function StreakAfter(ps: seq<Pass>, n: nat, grace: int): map<string, int>
    requires n <= |ps|
  {
    if n == 0 then map[] else After(StreakAfter(ps, n - 1, grace), ps[n - 1], grace)
  }

  function Counter(h: seq<Sighting>, n: nat, grace: int): int
    requires n <= |h|
  {
    if n == 0 then 0 else Count(Counter(h, n - 1, grace), h[n - 1], grace)
  }

  predicate FiresAt(h: seq<Sighting>, n: nat, grace: int)
    requires n < |h|
  {
    Fires(Counter(h, n, grace), h[n], grace)
  }

  /** Stale sightings from index `lo` up to, not including, `hi`. */
  function StaleCount(h: seq<Sighting>, lo: nat, hi: nat): nat
    requires lo <= hi <= |h|
    decreases hi
  {
    if lo == hi then 0 else StaleCount(h, lo, hi - 1) + if h[hi - 1].StaleSeen? then 1 else 0
  }

  /**
   The history specification: sighting `n` of a map asks for a flush when the map is stale there and either the pass
   is a detach event, or it was stale in at least `grace` sightings up to now, with no reset and no flush in between.
   Failed passes neither count nor reset.
   */
  ghost predicate FlushDue(h: seq<Sighting>, n: nat, grace: int)
    requires n < |h|
    decreases n
  {
    && h[n].StaleSeen?
    && (h[n].event || exists j :: 0 <= j <= n && StaleSince(h, j, n, grace) && StaleCount(h, j, n + 1) >= grace)
  }

  ghost predicate StaleSince(h: seq<Sighting>, j: nat, n: nat, grace: int)
    requires j <= n < |h|
    decreases n, 0
  {
    (forall i :: j <= i <= n ==> !h[i].Reset?) && forall i :: j <= i < n ==> !FlushDue(h, i, grace)
  }

  lemma {:induction false} StaleCountMono(h: seq<Sighting>, j: nat, k: nat, n: nat)
    requires j <= k <= n <= |h|
    ensures StaleCount(h, k, n) <= StaleCount(h, j, n)
    decreases n - k
  {
    if k < n { StaleCountMono(h, j, k, n - 1); }
  }

  /** Where the current streak began. */
  lemma {:induction false} StreakStart(h: seq<Sighting>, n: nat, grace: int) returns (j: nat)
    requires n <= |h|
    ensures j <= n && Counter(h, n, grace) == StaleCount(h, j, n)
    ensures forall i :: j <= i < n ==> !h[i].Reset? && !FiresAt(h, i, grace)
    ensures j > 0 ==> h[j - 1].Reset? || FiresAt(h, j - 1, grace)
  {
    if n == 0 {
      j := 0;
    } else {
      j := StreakStart(h, n - 1, grace);
      if h[n - 1].Reset? || FiresAt(h, n - 1, grace) { j := n; }
    }
  }

  /** The counter decides exactly what the history specification asks for. */
  lemma {:induction false} CounterRefinesHistory(h: seq<Sighting>, n: nat, grace: int)
    requires n < |h|
    ensures FiresAt(h, n, grace) <==> FlushDue(h, n, grace)
  {
    forall i | 0 <= i < n ensures FiresAt(h, i, grace) <==> FlushDue(h, i, grace) {
      CounterRefinesHistory(h, i, grace);
    }
    var j := StreakStart(h, n, grace);
    if h[n].StaleSeen? && !h[n].event {
      assert StaleCount(h, j, n + 1) == Counter(h, n, grace) + 1;
      assert StaleSince(h, j, n, grace);
      forall k | 0 <= k <= n && StaleSince(h, k, n, grace)
        ensures StaleCount(h, k, n + 1) <= StaleCount(h, j, n + 1)
      {
        assert k >= j;
        StaleCountMono(h, j, k, n + 1);
      }
    }
  }

  /** The history of one map over the first `n` passes, line by line. */
  function History(ps: seq<Pass>, n: nat, w: string): seq<Sighting>
    requires n <= |ps|
  {
    if n == 0 then [] else History(ps, n - 1, w) + SightingsIn(ps[n - 1], w)
  }

  lemma {:induction false} CounterPrefix(h: seq<Sighting>, more: seq<Sighting>, n: nat, grace: int)
    requires n <= |h|
    ensures Counter(h + more, n, grace) == Counter(h, n, grace)
    ensures FlushCount(h + more, n, grace) == FlushCount(h, n, grace)
  {
    if n > 0 {
      CounterPrefix(h, more, n - 1, grace);
      assert (h + more)[n - 1] == h[n - 1];
    }
  }

  predicate FiresBehind(h: seq<Sighting>, n: nat, grace: int) { exists i :: n <= i < |h| && FiresAt(h, i, grace) }

  /** A pass extends the history by its sightings, one after the other. */
  lemma {:induction false} CounterExtends(h: seq<Sighting>, ss: seq<Sighting>, grace: int)
    ensures Counter(h + ss, |h| + |ss|, grace) == CountAll(Counter(h, |h|, grace), ss, grace)
    ensures FiresSome(Counter(h, |h|, grace), ss, grace) <==> FiresBehind(h + ss, |h|, grace)
    decreases |ss|
  {
    if ss == [] {
      assert h + ss == h;
    } else {
      var h1 := h + [ss[0]];
      assert h + ss == h1 + ss[1..];
      CounterExtends(h1, ss[1..], grace);
      CounterPrefix(h, [ss[0]], |h|, grace);
      CounterPrefix(h, ss, |h|, grace);
      assert h1[|h|] == ss[0] == (h + ss)[|h|];
      assert FiresAt(h + ss, |h|, grace) <==> Fires(Counter(h, |h|, grace), ss[0], grace);
    }
  }

  lemma StreakNext(streak: map<string, int>, p: Pass, h: seq<Sighting>, grace: int, w: string)
    requires Get(streak, w) == Counter(h, |h|, grace)
    ensures var next := h + SightingsIn(p, w); Get(After(streak, p, grace), w) == Counter(next, |next|, grace)
  {
    PassIsCounter(streak, p, grace, w);
    CounterExtends(h, SightingsIn(p, w), grace);
  }

  lemma {:induction false} StreakIsCounter(ps: seq<Pass>, n: nat, grace: int, w: string)
    requires n <= |ps|
    ensures Get(StreakAfter(ps, n, grace), w) == Counter(History(ps, n, w), |History(ps, n, w)|, grace)
  {
    if n > 0 {
      StreakIsCounter(ps, n - 1, grace, w);
      StreakNext(StreakAfter(ps, n - 1, grace), ps[n - 1], History(ps, n - 1, w), grace, w);
    }
  }

  /** From index `n` on, some sighting asks for a flush. */
  ghost predicate DueBehind(h: seq<Sighting>, n: nat, grace: int) { exists i :: n <= i < |h| && FlushDue(h, i, grace) }

  /** Over every history of passes: a map is flushed in a pass exactly when one of its lines there is due. */
  lemma FlushedExactlyWhenDue(ps: seq<Pass>, n: nat, grace: int, w: string)
    requires n < |ps|
    ensures w in FlushedIn(StreakAfter(ps, n, grace), ps[n], grace)
       <==> DueBehind(History(ps, n + 1, w), |History(ps, n, w)|, grace)
  {
    var h, ss := History(ps, n, w), SightingsIn(ps[n], w);
    StreakIsCounter(ps, n, grace, w);
    PassIsCounter(StreakAfter(ps, n, grace), ps[n], grace, w);
    CounterExtends(h, ss, grace);
    DueExactly(h + ss, |h|, grace);
  }

  lemma DueExactly(h: seq<Sighting>, n: nat, grace: int)
    ensures FiresBehind(h, n, grace) <==> DueBehind(h, n, grace)
  {
    forall i | n <= i < |h| ensures FiresAt(h, i, grace) <==> FlushDue(h, i, grace) {
      CounterRefinesHistory(h, i, grace);
    }
  }

  // ---- how often ----

  function FlushCount(h: seq<Sighting>, n: nat, grace: int): nat
    requires n <= |h|
  {
    if n == 0 then 0 else FlushCount(h, n - 1, grace) + if FiresAt(h, n - 1, grace) then 1 else 0
  }

  predicate AllStale(h: seq<Sighting>) { forall i :: 0 <= i < |h| ==> h[i].StaleSeen? }

  predicate PollOnly(h: seq<Sighting>) { forall i :: 0 <= i < |h| && h[i].StaleSeen? ==> !h[i].event }

  lemma {:induction false} FlushBudget(h: seq<Sighting>, n: nat, grace: int)
    requires n <= |h| && grace >= 1 && PollOnly(h)
    ensures 0 <= Counter(h, n, grace) < grace
    ensures FlushCount(h, n, grace) * grace + Counter(h, n, grace) <= StaleCount(h, 0, n) <= n
    ensures AllStale(h[..n]) ==> FlushCount(h, n, grace) * grace + Counter(h, n, grace) == n
  {
    if n > 0 {
      FlushBudget(h, n - 1, grace);
      assert AllStale(h[..n]) ==> AllStale(h[..n - 1]) && h[..n][n - 1].StaleSeen?;
      OneMore(FlushCount(h, n - 1, grace), grace);
    }
  }

  lemma OneMore(f: nat, g: int)
    ensures (f + 1) * g == f * g + g
  {
  }

  lemma Quotient(n: nat, f: nat, g: nat, c: nat)
    requires g >= 1 && c < g && f * g + c <= n
    ensures f <= n / g
    ensures f * g + c == n ==> f == n / g
  {
    var left := n - f * g;
    assert n == g * (f + left / g) + left % g;
    DivModUnique(n, g, f + left / g, left % g);
    if f * g + c == n { DivModUnique(n, g, f, c); }
  }

  /** In how many of the first `n` passes the map is flushed. */
  function FlushPasses(ps: seq<Pass>, n: nat, grace: int, w: string): nat
    requires n <= |ps|
  {
    if n == 0 then 0
    else FlushPasses(ps, n - 1, grace, w)
         + if w in FlushedIn(StreakAfter(ps, n - 1, grace), ps[n - 1], grace) then 1 else 0
  }

  predicate Polls(ps: seq<Pass>) { forall i :: 0 <= i < |ps| && ps[i].Scanned? ==> !ps[i].event }

  /** Every pass shows the map on at most one line. */
  predicate Single(ps: seq<Pass>, w: string) { forall i :: 0 <= i < |ps| ==> |SightingsIn(ps[i], w)| == 1 }

  predicate StaleThroughout(ps: seq<Pass>, w: string) {
    forall i :: 0 <= i < |ps| ==> ps[i].Scanned? && StaleIn(ps[i].seen, w)
  }

  /** What one pass of polls adds: a flush spends a whole grace of the counter. */
  lemma {:induction false} PassBudget(c: int, ss: seq<Sighting>, grace: int)
    requires 0 <= c < grace && PollOnly(ss)
    ensures 0 <= CountAll(c, ss, grace) < grace
    ensures (if FiresSome(c, ss, grace) then grace else 0) + CountAll(c, ss, grace) <= c + |ss|
    ensures |ss| == 1 && ss[0].StaleSeen? ==>
              (if FiresSome(c, ss, grace) then grace else 0) + CountAll(c, ss, grace) == c + 1
    decreases |ss|
  {
    if ss != [] { PassBudget(Count(c, ss[0], grace), ss[1..], grace); }
  }

  /** Flushing passes, the counter and the lines of one map. */
  datatype Tally = Tally(flushes: nat, counter: int, lines: nat)

  function Next(t: Tally, ss: seq<Sighting>, grace: int): Tally {
    Tally(t.flushes + if FiresSome(t.counter, ss, grace) then 1 else 0, CountAll(t.counter, ss, grace),
          t.lines + |ss|)
  }

  function TallyAfter(ps: seq<Pass>, n: nat, grace: int, w: string): Tally
    requires n <= |ps|
  {
    if n == 0 then Tally(0, 0, 0) else Next(TallyAfter(ps, n - 1, grace, w), SightingsIn(ps[n - 1], w), grace)
  }

  /** The same, read off the streaks and the history. */
  function TallyOf(ps: seq<Pass>, n: nat, grace: int, w: string): Tally
    requires n <= |ps|
  {
    Tally(FlushPasses(ps, n, grace, w), Get(StreakAfter(ps, n, grace), w), |History(ps, n, w)|)
  }

  lemma PassTallied(ps: seq<Pass>, n: nat, grace: int, w: string)
    requires 0 < n <= |ps|
    ensures TallyOf(ps, n, grace, w) == Next(TallyOf(ps, n - 1, grace, w), SightingsIn(ps[n - 1], w), grace)
  {
    PassIsCounter(StreakAfter(ps, n - 1, grace), ps[n - 1], grace, w);
  }

  lemma TallyNext(ps: seq<Pass>, n: nat, grace: int, w: string, t: Tally)
    requires 0 < n <= |ps| && t == TallyAfter(ps, n - 1, grace, w)
    ensures TallyAfter(ps, n, grace, w) == Next(t, SightingsIn(ps[n - 1], w), grace)
  {
  }

  lemma {:induction false} TallyIs(ps: seq<Pass>, n: nat, grace: int, w: string)
    requires n <= |ps|
    ensures TallyAfter(ps, n, grace, w) == TallyOf(ps, n, grace, w)
  {
    if n > 0 {
      TallyIs(ps, n - 1, grace, w);
      TallyNext(ps, n, grace, w, TallyOf(ps, n - 1, grace, w));
      PassTallied(ps, n, grace, w);
    }
  }

  lemma SightingsFromPass(p: Pass, w: string)
    requires p.Scanned?
    ensures FromPass(SightingsIn(p, w), p.event)
    ensures StaleIn(p.seen, w) && |SightingsIn(p, w)| == 1 ==> SightingsIn(p, w)[0] == StaleSeen(p.event)
  {
    OwnExactly(p.seen, w, p.event);
    if StaleIn(p.seen, w) && |SightingsIn(p, w)| == 1 {
      var i :| 0 <= i < |Own(p.seen, w, p.event)| && Own(p.seen, w, p.event)[i] == StaleSeen(p.event);
      assert i == 0;
    }
  }

  lemma PollSightings(p: Pass, w: string)
    requires p.Scanned? ==> !p.event
    ensures PollOnly(SightingsIn(p, w))
  {
    if p.Scanned? { SightingsFromPass(p, w); }
  }

  /** Within the budget, or, for one stale line a pass, on it. */
  predicate WithinBudget(t: Tally, grace: int) {
    0 <= t.counter < grace && t.flushes * grace + t.counter <= t.lines
  }

  predicate OnBudget(t: Tally, grace: int) { t.flushes * grace + t.counter == t.lines }

  lemma NextBudget(t: Tally, ss: seq<Sighting>, grace: int)
    requires WithinBudget(t, grace) && PollOnly(ss)
    ensures WithinBudget(Next(t, ss, grace), grace)
    ensures OnBudget(t, grace) && |ss| == 1 && ss[0].StaleSeen? ==> OnBudget(Next(t, ss, grace), grace)
  {
    PassBudget(t.counter, ss, grace);
    assert (t.flushes + 1) * grace == t.flushes * grace + grace;
  }

  lemma {:induction false} PassesBudget(ps: seq<Pass>, n: nat, grace: int, w: string)
    requires n <= |ps| && grace >= 1 && Polls(ps)
    ensures WithinBudget(TallyAfter(ps, n, grace, w), grace)
    ensures Single(ps, w) ==> TallyAfter(ps, n, grace, w).lines == n
    ensures Single(ps, w) && StaleThroughout(ps, w) ==> OnBudget(TallyAfter(ps, n, grace, w), grace)
  {
    if n > 0 {
      PassesBudget(ps, n - 1, grace, w);
      PollSightings(ps[n - 1], w);
      NextBudget(TallyAfter(ps, n - 1, grace, w), SightingsIn(ps[n - 1], w), grace);
      if Single(ps, w) && StaleThroughout(ps, w) { SightingsFromPass(ps[n - 1], w); }
    }
  }

  /**
   By polling alone a map is flushed in at most as many passes as its lines allow, one in every `grace`; with one line
   a pass, in at most |ps| / grace passes, and in exactly so many if it is stale throughout.
   */
  lemma PollRate(ps: seq<Pass>, grace: int, w: string)
    requires grace >= 1 && Polls(ps)
    ensures FlushPasses(ps, |ps|, grace, w) <= |History(ps, |ps|, w)| / grace
    ensures Single(ps, w) ==> FlushPasses(ps, |ps|, grace, w) <= |ps| / grace
    ensures Single(ps, w) && StaleThroughout(ps, w) ==> FlushPasses(ps, |ps|, grace, w) == |ps| / grace
  {
    var t := TallyAfter(ps, |ps|, grace, w);
    TallyIs(ps, |ps|, grace, w);
    PassesBudget(ps, |ps|, grace, w);
    Quotient(t.lines, t.flushes, grace, t.counter);
  }

  // ---- one pass in terms of its listing and the host's answers ----

  predicate SameLetter(c: char, d: char) {
    c == d || ('a' <= c <= 'z' && d as int == c as int - 32) || ('a' <= d <= 'z' && c as int == d as int - 32)
  }

  /** `part` occurs in `text` when the case of letters is ignored. */
  ghost predicate OccursIn(part: string, text: string) {
    exists i :: 0 <= i <= |text| - |part| && OccursAt(part, text, i)
  }

  predicate OccursAt(part: string, text: string, i: nat)
    requires i + |part| <= |text|
  {
    forall j :: 0 <= j < |part| ==> SameLetter(text[i + j], part[j])
  }

  lemma UpperSame(c: char, d: char)
    ensures UpperChar(c) == UpperChar(d) <==> SameLetter(c, d)
  {
  }

  predicate FoundAt(s: string, sub: string, i: nat)
    requires i + |sub| <= |s|
  {
    s[i..i + |sub|] == sub
  }

  lemma {:induction false} ContainsSomewhere(s: string, sub: string)
    ensures Contains(s, sub) <==> exists i :: 0 <= i <= |s| - |sub| && FoundAt(s, sub, i)
  {
    if s != "" { ContainsSomewhere(s[1..], sub); }
    if sub <= s {
      assert FoundAt(s, sub, 0);
    } else if s != "" && Contains(s[1..], sub) {
      var i :| 0 <= i <= |s[1..]| - |sub| && FoundAt(s[1..], sub, i);
      assert FoundAt(s, sub, i + 1);
    }
    if i :| 0 <= i <= |s| - |sub| && FoundAt(s, sub, i) {
      if i > 0 { assert FoundAt(s[1..], sub, i - 1); }
    }
  }

  lemma OccursExactly(part: string, text: string)
    ensures Contains(ToUpper(text), ToUpper(part)) <==> OccursIn(part, text)
  {
    var s, sub := ToUpper(text), ToUpper(part);
    ContainsSomewhere(s, sub);
    forall i | 0 <= i <= |text| - |part| ensures FoundAt(s, sub, i) <==> OccursAt(part, text, i) {
      FoundOccurs(part, text, i);
    }
  }

  lemma FoundOccurs(part: string, text: string, i: nat)
    requires i + |part| <= |text|
    ensures FoundAt(ToUpper(text), ToUpper(part), i) <==> OccursAt(part, text, i)
  {
    var s, sub := ToUpper(text), ToUpper(part);
    forall j | 0 <= j < |part| ensures s[i..i + |sub|][j] == sub[j] <==> SameLetter(text[i + j], part[j]) {
      UpperSame(text[i + j], part[j]);
    }
  }

  /** The lines of a listing that show the vendor's map with this id, in order. */
  ghost function LinesOf(ms: seq<MpMap>, vendor: string, w: string): seq<MpMap> {
    if ms == [] then []
    else (if OccursIn(vendor, ms[0].vendor) && ms[0].wwid == w then [ms[0]] else []) + LinesOf(ms[1..], vendor, w)
  }

  /** A map that nobody has open and whose paths are stale. */
  ghost predicate Orphan(m: MpMap, host: Host) { host.openCount(m.name) == 0 && Stale(m, host) }

  /**
   Some stretch of orphan lines, begun behind a line that is none or at the start of the listing, is as long as the
   grace; at the start the streak of the passes before counts in.
   */
  ghost predicate GraceReached(ls: seq<MpMap>, host: Host, streak: int, grace: int) {
    exists j, k :: 0 <= j < k <= |ls| && ReachedBy(ls, host, streak, grace, j, k)
  }

  ghost predicate ReachedBy(ls: seq<MpMap>, host: Host, streak: int, grace: int, j: nat, k: nat)
    requires j < k <= |ls|
  {
    && (j == 0 || !Orphan(ls[j - 1], host)) && (forall i :: j <= i < k ==> Orphan(ls[i], host))
    && k - j + (if j == 0 then streak else 0) >= grace
  }

  /** How many orphan lines the listing ends with; the streak before counts in if there is no other line. */
  ghost function StreakOf(ls: seq<MpMap>, host: Host, streak: int): int {
    if ls == [] then streak
    else if Orphan(ls[|ls| - 1], host) then StreakOf(ls[..|ls| - 1], host, streak) + 1
    else 0
  }

  /** How many of the maps are of the vendor, how many of these nobody has open, and how many are orphans. */
  ghost function MapCounts(ms: seq<MpMap>, vendor: string, host: Host): (nat, nat, nat) {
    if ms == [] then (0, 0, 0)
    else
      var (a, b, c) := MapCounts(ms[1..], vendor, host);
      if !OccursIn(vendor, ms[0].vendor) then (a, b, c)
      else (a + 1, b + (if host.openCount(ms[0].name) == 0 then 1 else 0), c + if Orphan(ms[0], host) then 1 else 0)
  }

  lemma {:induction false} MapsCounted(ms: seq<MpMap>, vendor: string, host: Host)
    ensures var obs := ObserveAll(ms, vendor, host);
            MapCounts(ms, vendor, host) == (CountOurs(obs), CountIdle(obs), CountStale(obs))
  {
    if ms != [] {
      MapsCounted(ms[1..], vendor, host);
      OccursExactly(vendor, ms[0].vendor);
      ObserveCons(ms, vendor, host);
    }
  }

  /** The lines as sightings. */
  ghost function SightingsOf(ls: seq<MpMap>, host: Host, event: bool): seq<Sighting> {
    seq(|ls|, i requires 0 <= i < |ls| => if Orphan(ls[i], host) then StaleSeen(event) else Reset)
  }

  lemma SightingsCons(m: MpMap, ls: seq<MpMap>, host: Host, event: bool)
    ensures SightingsOf([m] + ls, host, event)
         == [if Orphan(m, host) then StaleSeen(event) else Reset] + SightingsOf(ls, host, event)
  {
  }

  lemma ObserveCons(ms: seq<MpMap>, vendor: string, host: Host)
    requires ms != []
    ensures ObserveAll(ms, vendor, host)[0] == Observe(ms[0], vendor, host)
    ensures ObserveAll(ms, vendor, host)[1..] == ObserveAll(ms[1..], vendor, host)
  {
  }

  lemma {:induction false} OwnAreLines(ms: seq<MpMap>, vendor: string, host: Host, event: bool, w: string)
    ensures Own(ObserveAll(ms, vendor, host), w, event) == SightingsOf(LinesOf(ms, vendor, w), host, event)
  {
    if ms != [] {
      OwnAreLines(ms[1..], vendor, host, event, w);
      OccursExactly(vendor, ms[0].vendor);
      ObserveCons(ms, vendor, host);
      SightingsCons(ms[0], LinesOf(ms[1..], vendor, w), host, event);
    }
  }

  lemma {:induction false} EventFires(ls: seq<MpMap>, host: Host, streak: int, grace: int)
    ensures FiresSome(streak, SightingsOf(ls, host, true), grace) <==> exists i :: 0 <= i < |ls| && Orphan(ls[i], host)
    decreases |ls|
  {
    if ls != [] {
      var ss := SightingsOf(ls, host, true);
      assert ss[1..] == SightingsOf(ls[1..], host, true);
      EventFires(ls[1..], host, Count(streak, ss[0], grace), grace);
      assert forall i :: 0 < i < |ls| ==> ls[i] == ls[1..][i - 1];
    }
  }

  lemma ReachedShift(ls: seq<MpMap>, host: Host, s: int, t: int, grace: int, j: nat, k: nat)
    requires 1 <= j < k < |ls|
    ensures ReachedBy(ls[1..], host, s, grace, j, k) <==> ReachedBy(ls, host, t, grace, j + 1, k + 1)
  {
    var rest := ls[1..];
    assert rest[j - 1] == ls[j];
    if ReachedBy(rest, host, s, grace, j, k) {
      forall i | j + 1 <= i < k + 1 ensures Orphan(ls[i], host) { assert rest[i - 1] == ls[i]; }
    }
    if ReachedBy(ls, host, t, grace, j + 1, k + 1) {
      forall i | j <= i < k ensures Orphan(rest[i], host) { assert rest[i] == ls[i + 1]; }
    }
  }

  /** Behind a line that is no orphan the count starts anew. */
  lemma ReachedBehind(ls: seq<MpMap>, host: Host, streak: int, grace: int)
    requires ls != [] && !Orphan(ls[0], host)
    ensures GraceReached(ls[1..], host, 0, grace) <==> GraceReached(ls, host, streak, grace)
  {
    var rest := ls[1..];
    if GraceReached(rest, host, 0, grace) {
      var j, k :| 0 <= j < k <= |rest| && ReachedBy(rest, host, 0, grace, j, k);
      if j > 0 { ReachedShift(ls, host, 0, streak, grace, j, k); }
      assert forall i :: 1 <= i < |ls| ==> ls[i] == rest[i - 1];
      assert ReachedBy(ls, host, streak, grace, j + 1, k + 1);
    }
    if GraceReached(ls, host, streak, grace) {
      var j, k :| 0 <= j < k <= |ls| && ReachedBy(ls, host, streak, grace, j, k);
      assert j > 0;
      if j > 1 { ReachedShift(ls, host, 0, streak, grace, j - 1, k - 1); }
      assert forall i :: 1 <= i < |ls| ==> ls[i] == rest[i - 1];
      assert ReachedBy(rest, host, 0, grace, j - 1, k - 1);
    }
  }

  /** An orphan line that does not reach the grace lengthens the streak by one. */
  lemma ReachedAlong(ls: seq<MpMap>, host: Host, streak: int, grace: int)
    requires ls != [] && Orphan(ls[0], host) && streak + 1 < grace
    ensures GraceReached(ls[1..], host, streak + 1, grace) <==> GraceReached(ls, host, streak, grace)
  {
    var rest := ls[1..];
    assert forall i :: 1 <= i < |ls| ==> ls[i] == rest[i - 1];
    if GraceReached(rest, host, streak + 1, grace) {
      var j, k :| 0 <= j < k <= |rest| && ReachedBy(rest, host, streak + 1, grace, j, k);
      if j > 0 {
        ReachedShift(ls, host, streak + 1, streak, grace, j, k);
        assert ReachedBy(ls, host, streak, grace, j + 1, k + 1);
      } else {
        assert ReachedBy(ls, host, streak, grace, 0, k + 1);
      }
    }
    if GraceReached(ls, host, streak, grace) {
      var j, k :| 0 <= j < k <= |ls| && ReachedBy(ls, host, streak, grace, j, k);
      if j > 0 {
        assert j > 1;
        ReachedShift(ls, host, streak + 1, streak, grace, j - 1, k - 1);
        assert ReachedBy(rest, host, streak + 1, grace, j - 1, k - 1);
      } else {
        assert ReachedBy(rest, host, streak + 1, grace, 0, k - 1);
      }
    }
  }

  lemma {:induction false} PollFires(ls: seq<MpMap>, host: Host, streak: int, grace: int)
    ensures FiresSome(streak, SightingsOf(ls, host, false), grace) <==> GraceReached(ls, host, streak, grace)
    decreases |ls|
  {
    if ls != [] {
      var ss := SightingsOf(ls, host, false);
      var n := Count(streak, ss[0], grace);
      assert ss[1..] == SightingsOf(ls[1..], host, false);
      PollFires(ls[1..], host, n, grace);
      if !Orphan(ls[0], host) {
        ReachedBehind(ls, host, streak, grace);
      } else if streak + 1 >= grace {
        assert ReachedBy(ls, host, streak, grace, 0, 1);
      } else {
        ReachedAlong(ls, host, streak, grace);
      }
    }
  }

  lemma {:induction false} LastSighting(n: int, ss: seq<Sighting>, s: Sighting, grace: int)
    ensures CountAll(n, ss + [s], grace) == Count(CountAll(n, ss, grace), s, grace)
    ensures FiresSome(n, ss + [s], grace) <==> FiresSome(n, ss, grace) || Fires(CountAll(n, ss, grace), s, grace)
    decreases |ss|
  {
    if ss == [] {
      assert [] + [s] == [s];
      OneSighting(n, s, grace);
    } else {
      assert (ss + [s])[1..] == ss[1..] + [s];
      LastSighting(Count(n, ss[0], grace), ss[1..], s, grace);
    }
  }

  lemma {:induction false} UnflushedCounts(ls: seq<MpMap>, host: Host, event: bool, streak: int, grace: int)
    requires !FiresSome(streak, SightingsOf(ls, host, event), grace)
    ensures CountAll(streak, SightingsOf(ls, host, event), grace) == StreakOf(ls, host, streak)
  {
    if ls != [] {
      var n := |ls| - 1;
      var ss := SightingsOf(ls[..n], host, event);
      var last := if Orphan(ls[n], host) then StaleSeen(event) else Reset;
      assert SightingsOf(ls, host, event) == ss + [last];
      LastSighting(streak, ss, last, grace);
      UnflushedCounts(ls[..n], host, event, streak, grace);
    }
  }

  /** What a pass over the maps `ms` flushes, and the streak it leaves, for the map `w`. */
  lemma PassOnListing(streak: map<string, int>, ms: seq<MpMap>,
          vendor: string, host: Host, event: bool, grace: int, w: string)
    ensures var ls, n := LinesOf(ms, vendor, w), Get(streak, w);
            var p := Scanned(event, ObserveAll(ms, vendor, host));
            && (w in FlushedIn(streak, p, grace) <==>
                  if event then exists i :: 0 <= i < |ls| && Orphan(ls[i], host) else GraceReached(ls, host, n, grace))
            && (w !in FlushedIn(streak, p, grace) ==>
                  Get(After(streak, p, grace), w) == if ls == [] then 0 else StreakOf(ls, host, n))
  {
    var ls, n := LinesOf(ms, vendor, w), Get(streak, w);
    PassIsCounter(streak, Scanned(event, ObserveAll(ms, vendor, host)), grace, w);
    OwnAreLines(ms, vendor, host, event, w);
    OneSighting(n, Reset, grace);
    if event { EventFires(ls, host, n, grace); } else { PollFires(ls, host, n, grace); }
    if !FiresSome(n, SightingsOf(ls, host, event), grace) { UnflushedCounts(ls, host, event, n, grace); }
  }

  /** On a detach event exactly the maps with an orphan line are flushed. */
  ghost predicate FlushesOnEvent(flushed: seq<string>, ms: seq<MpMap>, vendor: string, host: Host) {
    forall w :: w in flushed <==> exists m :: m in LinesOf(ms, vendor, w) && Orphan(m, host)
  }

  /** On a poll exactly those that have reached the grace. */
  ghost predicate FlushesOnPoll(flushed: seq<string>, ms: seq<MpMap>, vendor: string, host: Host,
          streak: map<string, int>, grace: int)
  {
    forall w :: w in flushed <==> GraceReached(LinesOf(ms, vendor, w), host, Get(streak, w), grace)
  }

  /** The streak of a map that was not flushed, 0 when the listing does not show it. */
  ghost predicate StreaksLeft(after: map<string, int>, flushed: seq<string>,
          ms: seq<MpMap>, vendor: string, host: Host, streak: map<string, int>)
  {
    forall w :: w !in flushed ==>
      var ls := LinesOf(ms, vendor, w);
      Get(after, w) == if ls == [] then 0 else StreakOf(ls, host, Get(streak, w))
  }

  lemma PassDoes(streak: map<string, int>, ms: seq<MpMap>, vendor: string, host: Host, event: bool, grace: int)
    ensures var p := Scanned(event, ObserveAll(ms, vendor, host));
            && (event ==> FlushesOnEvent(FlushedIn(streak, p, grace), ms, vendor, host))
            && (!event ==> FlushesOnPoll(FlushedIn(streak, p, grace), ms, vendor, host, streak, grace))
            && StreaksLeft(After(streak, p, grace), FlushedIn(streak, p, grace), ms, vendor, host, streak)
  {
    forall w { PassOnListing(streak, ms, vendor, host, event, grace, w); }
  }

  /** No poll flushes a map before its streak and its lines in the listing together reach the grace. */
  lemma NotBeforeGrace(ls: seq<MpMap>, host: Host, streak: int, grace: int)
    requires GraceReached(ls, host, streak, grace) && streak >= 0
    ensures streak + |ls| >= grace
  {
    var j, k :| 0 <= j < k <= |ls| && ReachedBy(ls, host, streak, grace, j, k);
  }

  /** A map on one line is flushed by a poll exactly when it is an orphan and one more sighting reaches the grace. */
  lemma OnOneLine(m: MpMap, host: Host, streak: int, grace: int)
    ensures GraceReached([m], host, streak, grace) <==> Orphan(m, host) && streak + 1 >= grace
    ensures StreakOf([m], host, streak) == if Orphan(m, host) then streak + 1 else 0
  {
    assert ReachedBy([m], host, streak, grace, 0, 1) <==> Orphan([m][0], host) && streak + 1 >= grace;
    assert StreakOf([m][..0], host, streak) == streak;
  }

  /** Ids repeated within one listing count twice: one poll can then exhaust a grace of two. */
  lemma RepeatedIdCountsTwice(o: Obs)
    requires Candidate(o)
    ensures o.wwid in Flushed(map[], [o, o], false, 2)
    ensures !ActsOnce(Scanned(false, [o, o]), o.wwid)
  {
    assert [o, o][1..] == [o];
    var s1 := OneMap(map[], o, false, 2);
    assert Get(s1, o.wwid) == 1;
    assert Flushes(s1, o, false, 2);
    assert [o][1..] == [];
    assert Own([o], o.wwid, false) == [StaleSeen(false)];
    assert Own([o, o], o.wwid, false) == [StaleSeen(false), StaleSeen(false)];
    OneSightingExactly(Scanned(false, [o, o]), o.wwid);
    assert [o, o][0] == o;
  }
}
