/**
 GET/POST/PATCH /hosts: injecting the array host's initiators into the realm hosts px lists, faking the
 PATCH that would add them, and synthesizing the double-prefixed host.
 */
module Hosts {
  import opened GoStrings
  import opened Options
  import opened Config
  import opened Resolve
  import opened Learning

  datatype Json =
    | Null | Bool(b: bool) | Num(n: int) | Str(s: string) | Arr(items: seq<Json>) | Obj(fields: map<string, Json>)

  function StrArr(vals: seq<string>): (r: Json)
    ensures r.Arr? && |r.items| == |vals|
  {
    Arr(seq(|vals|, i requires 0 <= i < |vals| => Str(vals[i])))
  }

  /** Missing, not a list, or an empty list. */
  predicate EmptyField(m: map<string, Json>, f: string) { f !in m || !m[f].Arr? || m[f].items == [] }

  function InjectFields(m: map<string, Json>, ins: seq<Initiator>): map<string, Json>
    decreases |ins|
  {
    if ins == [] then m
    else InjectFields(if EmptyField(m, ins[0].field) then m[ins[0].field := StrArr(ins[0].vals)] else m, ins[1..])
  }

  function NameOf(item: Json): string {
    if item.Obj? && "name" in item.fields && item.fields["name"].Str? then item.fields["name"].s else ""
  }

  function InjectItem(item: Json, pick: Option<HostMapping>): Json {
    if item.Obj? && pick.Some? then Obj(InjectFields(item.fields, InitiatorsOf(pick.value))) else item
  }

  function InjectItems(items: seq<Json>, picks: seq<Option<HostMapping>>): (r: seq<Json>)
    requires |picks| == |items|
    ensures |r| == |items|
  {
    seq(|items|, i requires 0 <= i < |items| => InjectItem(items[i], picks[i]))
  }

  /** The body decodes: an object whose items are objects or null. Any other body is passed on as it is. */
  predicate Decodes(body: Json) {
    && body.Obj? && "items" in body.fields && body.fields["items"].Arr?
    && forall i :: 0 <= i < |body.fields["items"].items| ==>
         body.fields["items"].items[i].Obj? || body.fields["items"].items[i].Null?
  }

  function ItemsOf(body: Json): seq<Json> { if Decodes(body) then body.fields["items"].items else [] }

  function InjectBody(body: Json, picks: seq<Option<HostMapping>>): Json
    requires |picks| == |ItemsOf(body)|
  {
    if Decodes(body) then Obj(body.fields["items" := Arr(InjectItems(ItemsOf(body), picks))]) else body
  }

  predicate PicksFit(m: NodeMap, items: seq<Json>, picks: seq<Option<HostMapping>>) {
    |picks| == |items| && forall i :: 0 <= i < |items| ==> IsResolution(m, NameOf(items[i]), picks[i])
  }

  /** One lesson per listed item, in order; an item that does not resolve teaches nothing. */
  function Lessons(items: seq<Json>, relearns: seq<Option<HostMapping>>): (r: seq<Lesson>)
    requires |relearns| == |items|
    ensures |r| == |items|
  {
    seq(|items|, i requires 0 <= i < |items| => Lesson(NameOf(items[i]), relearns[i]))
  }

  // ---- what injection means for one item ----

  /** The values of the first initiator entry for field `f`. */
  function FieldVals(ins: seq<Initiator>, f: string): Option<seq<string>> {
    if ins == [] then None else if ins[0].field == f then Some(ins[0].vals) else FieldVals(ins[1..], f)
  }

  predicate AllConfigured(ins: seq<Initiator>) { forall i :: 0 <= i < |ins| ==> ins[i].vals != [] }

  /** Field by field: an empty configured field is filled with its values, every other field stays. */
  lemma {:induction false} InjectedField(m: map<string, Json>, ins: seq<Initiator>, f: string)
    requires AllConfigured(ins)
    ensures f in InjectFields(m, ins) <==> f in m || FieldVals(ins, f).Some?
    ensures FieldVals(ins, f).Some? && EmptyField(m, f) ==> InjectFields(m, ins)[f] == StrArr(FieldVals(ins, f).value)
    ensures f in m && !(FieldVals(ins, f).Some? && EmptyField(m, f)) ==> InjectFields(m, ins)[f] == m[f]
    decreases |ins|
  {
    if ins != [] {
      assert ins[0].vals != [];
      var m1 := if EmptyField(m, ins[0].field) then m[ins[0].field := StrArr(ins[0].vals)] else m;
      InjectedField(m1, ins[1..], f);
    }
  }

  lemma {:induction false} ConfiguredVals(ins: seq<Initiator>)
    ensures AllConfigured(Configured(ins))
    ensures forall i :: 0 <= i < |Configured(ins)| ==> Configured(ins)[i] in ins
  {
    if ins != [] { ConfiguredVals(ins[1..]); }
  }

  lemma {:induction false} FirstEntry(ins: seq<Initiator>, in_: Initiator)
    requires in_ in ins && forall j :: j in ins && j.field == in_.field ==> j == in_
    ensures FieldVals(ins, in_.field) == Some(in_.vals)
  {
    if ins[0] != in_ {
      assert ins == [ins[0]] + ins[1..];
      FirstEntry(ins[1..], in_);
    }
  }

  /** Three transports, each at most once, none empty, and never the host's name. */
  lemma Transports(h: HostMapping)
    ensures AllConfigured(InitiatorsOf(h)) && FieldVals(InitiatorsOf(h), "name") == None
    ensures forall in_ :: in_ in InitiatorsOf(h) ==> FieldVals(InitiatorsOf(h), in_.field) == Some(in_.vals)
    ensures forall in_ :: in_ in InitiatorsOf(h) <==> in_ in AllThree(h) && in_.vals != []
  {
    var all := AllThree(h);
    ConfiguredVals(all);
    var ins := InitiatorsOf(h);
    forall in_ | in_ in ins ensures FieldVals(ins, in_.field) == Some(in_.vals) { FirstEntry(ins, in_); }
    NoEntry(ins, "name");
    forall in_ | in_ in all && in_.vals != [] ensures in_ in ins { ConfiguredKeeps(all, in_); }
  }

  function AllThree(h: HostMapping): seq<Initiator> {
    [Initiator("iqns", IqnsOf(h)), Initiator("wwns", Csv(h.wwns)), Initiator("nqns", Csv(h.nqns))]
  }

  lemma {:induction false} NoEntry(ins: seq<Initiator>, f: string)
    requires forall i :: 0 <= i < |ins| ==> ins[i].field != f
    ensures FieldVals(ins, f) == None
  {
    if ins != [] { NoEntry(ins[1..], f); }
  }

  lemma {:induction false} ConfiguredKeeps(ins: seq<Initiator>, in_: Initiator)
    requires in_ in ins && in_.vals != []
    ensures in_ in Configured(ins)
  {
    if ins[0] != in_ {
      assert ins == [ins[0]] + ins[1..];
      ConfiguredKeeps(ins[1..], in_);
    }
  }

  /** The plural field wins whenever it lists anything; the legacy one counts only when it does not. With neither,
      there is no iSCSI entry. */
  lemma LegacyOnlyWhenUnset(h: HostMapping, es: seq<Entry>, ls: seq<Entry>)
    requires |es| >= 1 && EntriesOk(es) && h.iqns == Join(PrintedEntries(es), ',')
    requires |ls| >= 1 && EntriesOk(ls) && h.legacyIqn == Join(PrintedEntries(ls), ',')
    ensures FieldVals(InitiatorsOf(h), "iqns") ==
              if NonEmpty(Values(es)) != [] then Some(NonEmpty(Values(es)))
              else if NonEmpty(Values(ls)) != [] then Some(NonEmpty(Values(ls)))
              else None
  {
    SplitUndoesJoin(es);
    SplitUndoesJoin(ls);
    Transports(h);
    if IqnsOf(h) == [] {
      NoEntry(InitiatorsOf(h), "iqns");
    } else {
      assert AllThree(h)[0] == Initiator("iqns", IqnsOf(h));
    }
  }

  lemma InjectKeepsName(item: Json, pick: Option<HostMapping>)
    ensures NameOf(InjectItem(item, pick)) == NameOf(item)
  {
    if item.Obj? && pick.Some? {
      Transports(pick.value);
      InjectedField(item.fields, InitiatorsOf(pick.value), "name");
    }
  }

  lemma InjectTwice(m: map<string, Json>, h: HostMapping)
    ensures InjectFields(InjectFields(m, InitiatorsOf(h)), InitiatorsOf(h)) == InjectFields(m, InitiatorsOf(h))
  {
    var ins := InitiatorsOf(h);
    Transports(h);
    var once := InjectFields(m, ins);
    var twice := InjectFields(once, ins);
    forall f ensures (f in twice <==> f in once) && (f in once ==> twice[f] == once[f]) {
      InjectedField(m, ins, f);
      InjectedField(once, ins, f);
      if FieldVals(ins, f).Some? { FieldValsConfigured(ins, f); }
    }
    assert twice.Keys == once.Keys;
  }

  lemma {:induction false} FieldValsConfigured(ins: seq<Initiator>, f: string)
    requires AllConfigured(ins) && FieldVals(ins, f).Some?
    ensures FieldVals(ins, f).value != []
  {
    if ins[0].field != f { FieldValsConfigured(ins[1..], f); }
  }

  /** Injection is idempotent, and the injected body gets the same resolutions as the original. */
  lemma InjectIdempotent(m: NodeMap, body: Json, picks: seq<Option<HostMapping>>)
    requires PicksFit(m, ItemsOf(body), picks)
    ensures PicksFit(m, ItemsOf(InjectBody(body, picks)), picks)
    ensures InjectBody(InjectBody(body, picks), picks) == InjectBody(body, picks)
  {
    if Decodes(body) {
      var once := InjectItems(ItemsOf(body), picks);
      var b1 := InjectBody(body, picks);
      assert ItemsOf(b1) == once;
      forall i | 0 <= i < |once|
        ensures NameOf(once[i]) == NameOf(ItemsOf(body)[i]) && InjectItem(once[i], picks[i]) == once[i]
      {
        InjectKeepsName(ItemsOf(body)[i], picks[i]);
        if ItemsOf(body)[i].Obj? && picks[i].Some? { InjectTwice(ItemsOf(body)[i].fields, picks[i].value); }
      }
      assert InjectItems(once, picks) == once;
      assert b1.fields["items" := Arr(once)] == b1.fields;
    }
  }

  /** The frame: only empty configured fields of resolving items change. */
  lemma InjectFrame(body: Json, picks: seq<Option<HostMapping>>, i: nat, f: string)
    requires Decodes(body) && |picks| == |ItemsOf(body)| && i < |ItemsOf(body)|
    ensures var out := InjectBody(body, picks);
            && Decodes(out) && |ItemsOf(out)| == |ItemsOf(body)|
            && (forall k :: k in body.fields && k != "items" ==> k in out.fields && out.fields[k] == body.fields[k])
            && out.fields.Keys == body.fields.Keys
            && (picks[i].None? || ItemsOf(body)[i].Null? ==> ItemsOf(out)[i] == ItemsOf(body)[i])
            && (ItemsOf(body)[i].Obj? && picks[i].Some? ==>
                  var old_, new_ := ItemsOf(body)[i].fields, ItemsOf(out)[i].fields;
                  var v := FieldVals(InitiatorsOf(picks[i].value), f);
                  && (v.Some? && EmptyField(old_, f) ==> f in new_ && new_[f] == StrArr(v.value))
                  && (!(v.Some? && EmptyField(old_, f)) ==>
                        (f in new_ <==> f in old_) && (f in old_ ==> new_[f] == old_[f])))
  {
    var out := InjectBody(body, picks);
    assert ItemsOf(out) == InjectItems(ItemsOf(body), picks);
    if ItemsOf(body)[i].Obj? && picks[i].Some? {
      Transports(picks[i].value);
      InjectedField(ItemsOf(body)[i].fields, InitiatorsOf(picks[i].value), f);
    }
  }

  // ---- runs ----

  datatype HostRec = HostRec(iqns: seq<string>, wwns: seq<string>, nqns: seq<string>)

  const EMPTY_HOST := HostRec([], [], [])

  /** What the array stores under each host name. */
  type HostTable = map<string, HostRec>

  function HostItem(name: string, r: HostRec): Json {
    Obj(map["name" := Str(name), "iqns" := StrArr(r.iqns), "wwns" := StrArr(r.wwns), "nqns" := StrArr(r.nqns)])
  }

  function ItemList(t: HostTable, sel: seq<string>): (r: seq<Json>)
    requires forall i :: 0 <= i < |sel| ==> sel[i] in t
    ensures |r| == |sel|
  {
    seq(|sel|, i requires 0 <= i < |sel| => HostItem(sel[i], t[sel[i]]))
  }

  function Listing(items: seq<Json>): Json { Obj(map["items" := Arr(items)]) }

  datatype Reply = Reply(status: int, body: Json)

  const NO_MATCH := Obj(map["errors" := Arr([Obj(map["message" := Str("No matching hosts found.")])])])
  const EMPTY_LISTING :=
    Obj(map["continuation_token" := Null, "items" := Arr([]), "more_items_remaining" := Bool(false),
            "total_item_count" := Null])

  /**
   What px asks. For a listing the array chooses: `sel` are the hosts it finds for the filter, and
   `pick`/`picks` are the resolutions the shim's map order gives.
   */
  datatype HostCall =
    | Create(name: string)
    | Patch(name: string, adds: HostRec)
    | List(names: string, sel: seq<string>, pick: Option<HostMapping>, picks: seq<Option<HostMapping>>)

  predicate AddsSomething(adds: HostRec) { adds != EMPTY_HOST }

  /** The faked PATCH answer echoes the transports px asked to add. */
  function Echo(name: string, adds: HostRec): Json {
    var m0 := map["name" := Str(name)];
    var m1 := if adds.iqns != [] then m0["iqns" := StrArr(adds.iqns)] else m0;
    var m2 := if adds.wwns != [] then m1["wwns" := StrArr(adds.wwns)] else m1;
    var m3 := if adds.nqns != [] then m2["nqns" := StrArr(adds.nqns)] else m2;
    Listing([Obj(m3)])
  }

  function Extend(r: HostRec, adds: HostRec): HostRec {
    HostRec(r.iqns + adds.iqns, r.wwns + adds.wwns, r.nqns + adds.nqns)
  }

  /** getHostSynth answers itself: one double-prefixed name, without wildcard or list. */
  predicate Synthesizes(names: string, pick: Option<HostMapping>) {
    && names != "" && Free(names, '*') && Free(names, ',')
    && pick.Some? && IsRealmHost(names) && AfterRealm(names) == pick.value.arrayHost
  }

  function SetFields(m: map<string, Json>, ins: seq<Initiator>): map<string, Json>
    decreases |ins|
  {
    if ins == [] then m else SetFields(m[ins[0].field := StrArr(ins[0].vals)], ins[1..])
  }

  function BareItem(names: string): map<string, Json> {
    map["name" := Str(names), "connection_count" := Num(1), "host_group" := Obj(map["name" := Null])]
  }

  function SynthItem(names: string, h: HostMapping): Json { Obj(SetFields(BareItem(names), InitiatorsOf(h))) }

  /** Intercept, the array, and ModifyHostsResponse. */
  function HostStep(t: HostTable, c: HostCall): (HostTable, Reply)
    requires c.List? ==> |c.picks| == |c.sel| && forall i :: 0 <= i < |c.sel| ==> c.sel[i] in t
  {
    match c
    case Create(name) => (t[name := EMPTY_HOST], Reply(200, Listing([HostItem(name, EMPTY_HOST)])))
    case Patch(name, adds) =>
      if IsRealmHost(name) && AddsSomething(adds) then (t, Reply(200, Echo(name, adds)))
      else if name in t then
        var r := Extend(t[name], adds);
        (t[name := r], Reply(200, Listing([HostItem(name, r)])))
      else (t, Reply(400, NO_MATCH))
    case List(names, sel, pick, picks) =>
      if Synthesizes(names, pick) then (t, Reply(200, Listing([SynthItem(names, pick.value)])))
      else if sel == [] && names != "" then
        (t, if Free(names, '*') then Reply(400, NO_MATCH) else Reply(200, EMPTY_LISTING))
      else
        var body := Listing(ItemList(t, sel));
        assert ItemsOf(body) == ItemList(t, sel);
        (t, Reply(200, InjectBody(body, picks)))
  }

  predicate CallFits(m: NodeMap, t: HostTable, c: HostCall) {
    c.List? ==>
      && |c.picks| == |c.sel|
      && (forall i :: 0 <= i < |c.sel| ==> c.sel[i] in t && IsResolution(m, c.sel[i], c.picks[i]))
      && IsResolution(m, c.names, c.pick)
  }

  ghost predicate RunFits(m: NodeMap, t: HostTable, cs: seq<HostCall>)
    decreases |cs|
  {
    cs == [] || (CallFits(m, t, cs[0]) && RunFits(m, HostStep(t, cs[0]).0, cs[1..]))
  }

  /** On the array itself the realm hosts own nothing. */
  ghost predicate RealmHostsEmpty(t: HostTable) { forall n :: n in t && IsRealmHost(n) ==> t[n] == EMPTY_HOST }

  predicate HoldsField(m: map<string, Json>, in_: Initiator) { in_.field in m && m[in_.field] == StrArr(in_.vals) }

  /** The item shows every configured transport of `h` in full. */
  predicate Shows(item: Json, h: HostMapping) {
    item.Obj? && forall in_ :: in_ in InitiatorsOf(h) ==> HoldsField(item.fields, in_)
  }

  /** The value of a transport in what px asked to add. */
  function AddsOf(adds: HostRec, f: string): seq<string> {
    if f == "iqns" then adds.iqns else if f == "wwns" then adds.wwns else if f == "nqns" then adds.nqns else []
  }

  /** The item bears the name, shows every transport px asked to add, and nothing else. */
  predicate Echoes(item: Json, name: string, adds: HostRec) {
    && item.Obj? && NameOf(item) == name
    && (forall f :: f in item.fields && f != "name" ==> HoldsField(item.fields, Initiator(f, AddsOf(adds, f))))
    && (forall f :: f in item.fields && f != "name" ==> AddsOf(adds, f) != [])
    && forall f :: f in ["iqns", "wwns", "nqns"] && AddsOf(adds, f) != [] ==> f in item.fields
  }

  /** A listing is refused only when a name without a wildcard finds nothing. */
  predicate NotFound(c: HostCall) {
    c.List? && !Synthesizes(c.names, c.pick) && c.sel == [] && c.names != "" && Free(c.names, '*')
  }

  /** What px may rely on: the initiators it asks to add are echoed, and what a listing shows. */
  ghost predicate GoodReply(c: HostCall, r: Reply) {
    && (c.Patch? && IsRealmHost(c.name) && AddsSomething(c.adds) ==>
          r.status == 200 && |ItemsOf(r.body)| == 1 && Echoes(ItemsOf(r.body)[0], c.name, c.adds))
    && (c.List? ==> r.status == if NotFound(c) then 400 else 200)
    && (c.List? && !NotFound(c) ==> GoodListing(c, r.body))
  }

  ghost predicate GoodListing(c: HostCall, body: Json)
    requires c.List?
  {
    && Decodes(body)
    && (Synthesizes(c.names, c.pick) ==>
          && |ItemsOf(body)| == 1
          && NameOf(ItemsOf(body)[0]) == c.names && Shows(ItemsOf(body)[0], c.pick.value))
    && (!Synthesizes(c.names, c.pick) ==> |ItemsOf(body)| == |c.sel| == |c.picks|)
    && (!Synthesizes(c.names, c.pick) ==> forall i :: 0 <= i < |c.sel| && c.picks[i].Some? ==>
          NameOf(ItemsOf(body)[i]) == c.sel[i] && Shows(ItemsOf(body)[i], c.picks[i].value))
  }

  predicate DistinctFields(ins: seq<Initiator>) {
    forall i, j :: 0 <= i < |ins| && 0 <= j < |ins| && i != j ==> ins[i].field != ins[j].field
  }

  lemma {:induction false} SetField(m: map<string, Json>, ins: seq<Initiator>, f: string)
    requires DistinctFields(ins)
    ensures forall i :: 0 <= i < |ins| ==> HoldsField(SetFields(m, ins), ins[i])
    ensures f in m && (forall i :: 0 <= i < |ins| ==> ins[i].field != f) ==>
              f in SetFields(m, ins) && SetFields(m, ins)[f] == m[f]
    decreases |ins|
  {
    if ins != [] {
      var m1 := m[ins[0].field := StrArr(ins[0].vals)];
      SetField(m1, ins[1..], ins[0].field);
      SetField(m1, ins[1..], f);
      forall i | 0 <= i < |ins|
        ensures HoldsField(SetFields(m, ins), ins[i])
      {
        if i > 0 { assert ins[i] == ins[1..][i - 1]; }
      }
    }
  }

  lemma {:induction false} ConfiguredDistinct(ins: seq<Initiator>)
    requires DistinctFields(ins)
    ensures DistinctFields(Configured(ins))
  {
    if ins != [] {
      ConfiguredDistinct(ins[1..]);
      ConfiguredVals(ins[1..]);
      var r := Configured(ins);
      var rest := Configured(ins[1..]);
      if ins[0].vals != [] {
        forall j | 0 <= j < |rest| ensures rest[j].field != ins[0].field {
          assert rest[j] in ins[1..];
          var k :| 0 <= k < |ins[1..]| && ins[1..][k] == rest[j];
          assert ins[k + 1] == rest[j];
        }
        assert r == [ins[0]] + rest;
      }
    }
  }

  lemma SynthShows(names: string, h: HostMapping)
    ensures Shows(SynthItem(names, h), h) && NameOf(SynthItem(names, h)) == names
  {
    ConfiguredDistinct(AllThree(h));
    ConfiguredVals(AllThree(h));
    assert InitiatorsOf(h) == Configured(AllThree(h));
    SetField(BareItem(names), InitiatorsOf(h), "name");
  }

  lemma EmptyItemShows(name: string, h: HostMapping)
    ensures Shows(InjectItem(HostItem(name, EMPTY_HOST), Some(h)), h)
    ensures NameOf(InjectItem(HostItem(name, EMPTY_HOST), Some(h))) == name
  {
    Transports(h);
    InjectKeepsName(HostItem(name, EMPTY_HOST), Some(h));
    var m := HostItem(name, EMPTY_HOST).fields;
    forall in_ | in_ in InitiatorsOf(h)
      ensures in_.field in InjectFields(m, InitiatorsOf(h))
      ensures InjectFields(m, InitiatorsOf(h))[in_.field] == StrArr(in_.vals)
    {
      assert in_.field == "iqns" || in_.field == "wwns" || in_.field == "nqns";
      InjectedField(m, InitiatorsOf(h), in_.field);
    }
  }

  lemma ListingShows(m: NodeMap, t: HostTable, sel: seq<string>, picks: seq<Option<HostMapping>>)
    requires RealmHostsEmpty(t) && |picks| == |sel|
    requires forall i :: 0 <= i < |sel| ==> sel[i] in t && IsResolution(m, sel[i], picks[i])
    ensures var out := InjectBody(Listing(ItemList(t, sel)), picks);
            && Decodes(out) && |ItemsOf(out)| == |sel|
            && forall i :: 0 <= i < |sel| && picks[i].Some? ==>
                 NameOf(ItemsOf(out)[i]) == sel[i] && Shows(ItemsOf(out)[i], picks[i].value)
  {
    var body := Listing(ItemList(t, sel));
    assert ItemsOf(body) == ItemList(t, sel);
    var out := InjectBody(body, picks);
    assert ItemsOf(out) == InjectItems(ItemList(t, sel), picks);
    forall i | 0 <= i < |sel| && picks[i].Some?
      ensures NameOf(ItemsOf(out)[i]) == sel[i] && Shows(ItemsOf(out)[i], picks[i].value)
    {
      assert IsResolution(m, sel[i], picks[i]);
      EmptyItemShows(sel[i], picks[i].value);
    }
  }

  lemma EchoTells(name: string, adds: HostRec)
    ensures |ItemsOf(Echo(name, adds))| == 1 && Echoes(ItemsOf(Echo(name, adds))[0], name, adds)
  {
    var body := Echo(name, adds);
    assert Decodes(body);
    var m := ItemsOf(body)[0].fields;
    assert m.Keys == {"name"} + (if adds.iqns != [] then {"iqns"} else {}) + (if adds.wwns != [] then {"wwns"} else {})
                     + if adds.nqns != [] then {"nqns"} else {};
    assert "name" != "iqns" && "name" != "wwns" && "name" != "nqns";
  }

  lemma HostStepGood(m: NodeMap, t: HostTable, c: HostCall)
    requires CallFits(m, t, c) && RealmHostsEmpty(t)
    ensures RealmHostsEmpty(HostStep(t, c).0) && GoodReply(c, HostStep(t, c).1)
  {
    match c
    case Create(name) =>
    case Patch(name, adds) =>
      assert name in t && IsRealmHost(name) && !AddsSomething(adds) ==> Extend(t[name], adds) == EMPTY_HOST;
      EchoTells(name, adds);
    case List(names, sel, pick, picks) =>
      if Synthesizes(names, pick) {
        SynthShows(names, pick.value);
      } else if !(sel == [] && names != "") {
        ListingShows(m, t, sel, picks);
      }
  }

  /** All replies of a run. */
  ghost predicate RunGood(m: NodeMap, t: HostTable, cs: seq<HostCall>)
    requires RunFits(m, t, cs)
    decreases |cs|
  {
    cs != [] ==> GoodReply(cs[0], HostStep(t, cs[0]).1) && RunGood(m, HostStep(t, cs[0]).0, cs[1..])
  }

  function TableAfter(m: NodeMap, t: HostTable, cs: seq<HostCall>): HostTable
    requires RunFits(m, t, cs)
    decreases |cs|
  {
    if cs == [] then t else TableAfter(m, HostStep(t, cs[0]).0, cs[1..])
  }

  /**
   Over every run the realm hosts stay empty on the array, while every listing px gets shows each mapped
   realm host with all its configured transports, exactly as the synthesized double-prefixed host shows them.
   */
  lemma {:induction false} HostRunGood(m: NodeMap, t: HostTable, cs: seq<HostCall>)
    requires RealmHostsEmpty(t) && RunFits(m, t, cs)
    ensures RunGood(m, t, cs) && RealmHostsEmpty(TableAfter(m, t, cs))
    decreases |cs|
  {
    if cs != [] {
      HostStepGood(m, t, cs[0]);
      HostRunGood(m, HostStep(t, cs[0]).0, cs[1..]);
    }
  }
}
