/** What `byArrayHost` holds after any run, for any configuration. */
module Learning {
  import opened GoStrings
  import opened Options
  import opened QuotedText
  import opened Config
  import opened Resolve
  import opened FlashArray
  import opened Protocol

  /** One call of learnRealmHost: the name, and the resolution the map order gave it. */
  datatype Lesson = Lesson(name: string, pick: Option<HostMapping>)

  function LearnAll(learned: map<string, string>, ls: seq<Lesson>): map<string, string>
    decreases |ls|
  {
    if ls == [] then learned else LearnAll(Learn(learned, ls[0].name, ls[0].pick), ls[1..])
  }

  /** The lesson teaches px's name for array host `k`. */
  predicate Teaches(l: Lesson, k: string) {
    l.pick.Some? && l.pick.value.arrayHost == k && IsRealmHost(l.name) && AfterRealm(l.name) != k
  }

  /** The last name taught for `k`, looking back from the end of the run. */
  function LastTaught(ls: seq<Lesson>, k: string): Option<string>
    decreases |ls|
  {
    if ls == [] then None
    else
      var l := ls[|ls| - 1];
      if Teaches(l, k) then Some(l.name) else LastTaught(ls[..|ls| - 1], k)
  }

  function Entry(learned: map<string, string>, k: string): Option<string> {
    if k in learned then Some(learned[k]) else None
  }

  lemma {:induction false} LearnAllAppend(learned: map<string, string>, ls: seq<Lesson>, l: Lesson)
    ensures LearnAll(learned, ls + [l]) == Learn(LearnAll(learned, ls), l.name, l.pick)
    decreases |ls|
  {
    if ls == [] {
      assert ls + [l] == [l];
    } else {
      assert (ls + [l])[1..] == ls[1..] + [l];
      LearnAllAppend(Learn(learned, ls[0].name, ls[0].pick), ls[1..], l);
    }
  }

  /** At every point of a run the map holds, for each array host, the name taught last, and nothing else. */
  lemma {:induction false} HoldsLastTaught(ls: seq<Lesson>, k: string)
    ensures Entry(LearnAll(map[], ls), k) == LastTaught(ls, k)
    decreases |ls|
  {
    if ls != [] {
      var n := |ls| - 1;
      assert ls == ls[..n] + [ls[n]];
      LearnAllAppend(map[], ls[..n], ls[n]);
      HoldsLastTaught(ls[..n], k);
    }
  }

  /** A known array host stays known, whatever the run goes on to do. */
  lemma {:induction false} NeverForgotten(learned: map<string, string>, ls: seq<Lesson>)
    ensures learned.Keys <= LearnAll(learned, ls).Keys
    decreases |ls|
  {
    if ls != [] { NeverForgotten(Learn(learned, ls[0].name, ls[0].pick), ls[1..]); }
  }

  /** Each entry is a name that resolves to its array host and is not the double-prefixed form. */
  ghost predicate LearnedOk(m: NodeMap, learned: map<string, string>) {
    forall k :: k in learned ==>
      && IsRealmHost(learned[k]) && AfterRealm(learned[k]) != k
      && exists n :: n in m && m[n].arrayHost == k && Matches(m[n], AfterRealm(learned[k]))
  }

  lemma {:induction false} EntriesResolve(m: NodeMap, learned: map<string, string>, ls: seq<Lesson>)
    requires LearnedOk(m, learned)
    requires forall i :: 0 <= i < |ls| ==> IsResolution(m, ls[i].name, ls[i].pick)
    ensures LearnedOk(m, LearnAll(learned, ls))
    decreases |ls|
  {
    if ls != [] {
      var l := ls[0];
      assert IsResolution(m, l.name, l.pick);
      var next := Learn(learned, l.name, l.pick);
      forall k | k in next
        ensures IsRealmHost(next[k]) && AfterRealm(next[k]) != k
             && exists n :: n in m && m[n].arrayHost == k && Matches(m[n], AfterRealm(next[k]))
      {
        if l.pick.Some? && k == l.pick.value.arrayHost && next[k] == l.name && !(k in learned && learned[k] == l.name) {
          assert m[l.pick.value.node].arrayHost == k;
        }
      }
      EntriesResolve(m, next, ls[1..]);
    }
  }

  /** With an unambiguous configuration every resolution of an entry is its array host. */
  lemma EntriesResolveBack(m: NodeMap, learned: map<string, string>, k: string, r: Option<HostMapping>)
    requires ByNode(m) && Unambiguous(m) && LearnedOk(m, learned) && k in learned && IsResolution(m, learned[k], r)
    ensures r.Some? && r.value.arrayHost == k
  {
    var n :| n in m && m[n].arrayHost == k && Matches(m[n], AfterRealm(learned[k]));
    UniqueMatch(m, n, r.value.node, AfterRealm(learned[k]));
  }

  lemma ConnectionLearns(m: NodeMap, shim: Shim, s: ArrayState, session: bool, c: Call)
    requires PicksOk(m, c)
    ensures ConnectionStep(shim, s, session, c).0.learned == Learn(shim.learned, c.hostName, c.relearn)
  {
    if c.pick.None? && IsRealmHost(c.hostName) {
      assert c.relearn.None?;
    }
  }

  /** Every /connections request is one lesson, taken before any call reaches the array. */
  lemma StepLearns(m: NodeMap, shim: Shim, s: ArrayState, session: bool, ids: Ids, c: Call)
    requires PicksOk(m, c)
    ensures HandleStep(shim, s, session, ids, c).0.learned == Learn(shim.learned, c.hostName, c.relearn)
  {
    ConnectionLearns(m, shim, s, session, c);
    assert HandleStep(shim, s, session, ids, c).0 == ConnectionStep(shim, s, session, c).0;
  }

  lemma RequestTeaches(m: NodeMap, shim: Shim, s: ArrayState, session: bool, ids: Ids, c: Call)
    requires PicksOk(m, c)
    ensures HandleStep(shim, s, session, ids, c).0.learned == Learn(shim.learned, c.hostName, c.relearn)
    ensures ByNode(m) && Unambiguous(m) && c.pick.Some? && AfterRealm(c.hostName) != c.pick.value.arrayHost ==>
              Entry(HandleStep(shim, s, session, ids, c).0.learned, c.pick.value.arrayHost) == Some(c.hostName)
  {
    StepLearns(m, shim, s, session, ids, c);
    if ByNode(m) && Unambiguous(m) { DeterministicExactly(m); }
  }

  /** px's own note `x` is the array's connection `c` under the learned name. */
  predicate ShownAs(learned: map<string, string>, c: Conn, x: Conn) {
    x.volume == c.volume && x.host == Entry(learned, c.host).Or(c.host)
  }

  /**
   What px sees of a volume-filtered listing is exactly the array's listing under the learned names: it
   equals px's own bookkeeping `xs` if and only if each array host was last learned under the name px
   has for that connection.
   */
  lemma ListingExactly(learned: map<string, string>, cs: seq<Conn>, xs: seq<Conn>)
    requires NamesFree(cs) && NamesFree(xs) && Apart(cs, learned) && Exchangeable(learned)
    ensures MapText(learned, Render(cs)) == Render(xs)
       <==> |xs| == |cs| && forall i :: 0 <= i < |cs| ==> ShownAs(learned, cs[i], xs[i])
  {
    MapBackRender(cs, learned);
    var rs := RenameHosts(cs, learned);
    if Render(rs) == Render(xs) { RenderInjective(rs, xs); }
    if |xs| == |cs| && forall i :: 0 <= i < |cs| ==> ShownAs(learned, cs[i], xs[i]) {
      assert forall i :: 0 <= i < |cs| ==> rs[i] == xs[i];
      assert rs == xs;
    }
  }

  /**
   What px sees of a listing filtered by its name `name` for array host `k` is every connection on `k`, under that
   name: it equals px's own bookkeeping `xs` if and only if px made each of them under the name it asks with.
   */
  lemma HostListingExactly(cs: seq<Conn>, k: string, name: string, xs: seq<Conn>)
    requires NamesFree(cs) && NamesFree(xs) && Free(k, QUOTE) && Free(name, QUOTE) && k !in STRUCTURE
    requires forall i :: 0 <= i < |cs| ==> cs[i].host == k && cs[i].volume != k
    ensures ReplaceAll(Render(cs), Quoted(k), Quoted(name)) == Render(xs)
       <==> |xs| == |cs| && forall i :: 0 <= i < |cs| ==> xs[i] == Conn(name, cs[i].volume)
  {
    var m := map[k := name];
    var rs := RenameHosts(cs, m);
    OneName(Render(cs), k, name);
    MapBackRender(cs, m);
    assert forall i :: 0 <= i < |cs| ==> rs[i] == Conn(name, cs[i].volume);
    if Render(rs) == Render(xs) { RenderInjective(rs, xs); }
    if |xs| == |cs| && forall i :: 0 <= i < |cs| ==> xs[i] == Conn(name, cs[i].volume) { assert rs == xs; }
  }

  /** Two realms on one array host: a GET under one realm's name shows it the other realm's volume as its own. */
  lemma OtherRealmShown(k: string, first: string, second: string, volume: string)
    requires Free(k, QUOTE) && Free(first, QUOTE) && Free(second, QUOTE) && Free(volume, QUOTE)
    requires k !in STRUCTURE && volume != k && first != second
    ensures var answer := ReplaceAll(Render([Conn(k, volume)]), Quoted(k), Quoted(first));
            answer == Render([Conn(first, volume)]) && answer != Render([Conn(second, volume)])
  {
    HostListingExactly([Conn(k, volume)], k, first, [Conn(first, volume)]);
    HostListingExactly([Conn(k, volume)], k, first, [Conn(second, volume)]);
    assert [Conn(first, volume)][0] != [Conn(second, volume)][0];
  }

  /** Two names of px on one array host: listings show the later one for connections made under the earlier. */
  lemma LaterNameWins(h: HostMapping, first: string, second: string, volume: string)
    requires IsRealmHost(first) && IsRealmHost(second) && first != second
    requires AfterRealm(first) != h.arrayHost && AfterRealm(second) != h.arrayHost
    requires Free(first, QUOTE) && Free(second, QUOTE) && Free(h.arrayHost, QUOTE) && Free(volume, QUOTE)
    requires h.arrayHost !in STRUCTURE && h.arrayHost != volume && !IsRealmHost(h.arrayHost)
    ensures var learned := LearnAll(map[], [Lesson(first, Some(h)), Lesson(second, Some(h))]);
            MapText(learned, Render([Conn(h.arrayHost, volume)]))
              == Render([Conn(second, volume)]) != Render([Conn(first, volume)])
  {
    var ls := [Lesson(first, Some(h)), Lesson(second, Some(h))];
    assert ls[1..] == [ls[1]] && ls[1..][1..] == [];
    var learned := LearnAll(map[], ls);
    var once := Learn(map[], first, Some(h));
    assert learned == LearnAll(once, [ls[1]]) == LearnAll(Learn(once, second, Some(h)), []);
    assert learned == map[h.arrayHost := second];
    ListingExactly(learned, [Conn(h.arrayHost, volume)], [Conn(second, volume)]);
    ListingExactly(learned, [Conn(h.arrayHost, volume)], [Conn(first, volume)]);
  }

  /** Under the double-prefixed name nothing is learned, and a fresh shim's listing shows the array host itself. */
  lemma DoublePrefixLeaks(h: HostMapping, realm: string, volume: string)
    requires Free(realm, ':') && Free(h.arrayHost, QUOTE) && Free(volume, QUOTE)
    ensures var learned := LearnAll(map[], [Lesson(realm + "::" + h.arrayHost, Some(h))]);
            MapText(learned, Render([Conn(h.arrayHost, volume)])) == Render([Conn(h.arrayHost, volume)])
  {
    FirstSeparator(realm, h.arrayHost);
    var ls := [Lesson(realm + "::" + h.arrayHost, Some(h))];
    assert ls[1..] == [];
    ListingExactly(map[], [Conn(h.arrayHost, volume)], [Conn(h.arrayHost, volume)]);
  }
}
