/**
 Any number of /connections requests at once: learning, the cache check, the grant call, the store, the call on the
 array and the mapping back of a listing are separate steps, taken in any order. Each request takes effect at the
 moment its call on the array does, and px gets the plain array's answer of that moment.
 */
module Linear {
  import opened GoStrings
  import opened Options
  import opened Resolve
  import opened ArraySession
  import opened FlashArray
  import opened ArrayIdentity
  import opened Learning
  import opened Protocol
  import opened Query
  import opened Refinement

  /**
   How far a request is. `Back` holds the answer of a forwarded listing and the names known when the array gave it;
   `Done` holds what px gets.
   */
  datatype Pc =
    | Start
    | Check
    | Ask
    | Store
    | CallHost
    | Forward
    | Back(a: Answer, known: set<string>)
    | Done(out: Answer)

  /** One request; `at_` is its place in the order of effects, once it has taken effect. */
  datatype Job = Job(c: Call, ids: Ids, pc: Pc, at_: Option<nat>)

  /** A request that has taken effect, and how its call ended. */
  datatype Effected = Effected(id: nat, c: Call, fate: Link)

  datatype Sys = Sys(jobs: map<nat, Job>, shim: Shim, fa: ArrayState, order: seq<Effected>)

  /**
   `Tell` maps a listing back. Ranging over the learned names is no snapshot: it meets `used`. `Teach` is one name
   learned from an item of a GET /hosts in between.
   */
  datatype Action =
    | Arrive(id: nat, c: Call, ids: Ids)
    | Step(id: nat)
    | Tell(id: nat, used: set<string>)
    | Teach(l: Lesson)

  function HostOf(c: Call): string { if c.pick.Some? then c.pick.value.arrayHost else "" }

  function Put(y: Sys, id: nat, pc: Pc): Sys
    requires id in y.jobs
  {
    y.(jobs := y.jobs[id := y.jobs[id].(pc := pc)])
  }

  /** The request takes effect now. */
  function Effect(y: Sys, id: nat, pc: Pc, fate: Link): Sys
    requires id in y.jobs
  {
    var job := y.jobs[id];
    y.(jobs := y.jobs[id := job.(pc := pc, at_ := Some(|y.order|))], order := y.order + [Effected(id, job.c, fate)])
  }

  function Seen(learned: map<string, string>, used: set<string>): map<string, string> {
    map k | k in learned && k in used :: learned[k]
  }

  /** px's name for a host it has a mapping for is learned; any other request is forwarded. */
  function Starting(y: Sys, id: nat): Sys
    requires id in y.jobs
  {
    var c := y.jobs[id].c;
    if c.hostName == "" || !IsRealmHost(c.hostName) || c.pick.None? then Put(y, id, Forward)
    else
      Put(y, id, if c.verb == Post then Check else CallHost).(
        shim := y.shim.(learned := Learn(y.shim.learned, c.hostName, c.relearn)))
  }

  /** The cache check. */
  function Checked(shim: Shim, c: Call): Pc {
    var host, realm := HostOf(c), RealmOf(c.hostName);
    if host == "" || realm == "" || GrantKey(host, realm) in shim.granted then CallHost else Ask
  }

  function Checking(y: Sys, id: nat): Sys
    requires id in y.jobs
  {
    Put(y, id, Checked(y.shim, y.jobs[id].c))
  }

  /** The grant call; a refused or lost one ends the request without an effect. */
  function Asking(y: Sys, id: nat): Sys
    requires id in y.jobs
  {
    var c := y.jobs[id].c;
    var (s, a) := Outcome(y.fa, Serve(y.fa, Grant(HostOf(c), RealmOf(c.hostName))), c.grantLink);
    if a.Some? && GrantAccepted(a.value) then Put(y, id, Store).(fa := s)
    else Effect(y, id, Done(GRANT_FAILED), LostBefore).(fa := s)
  }

  function Storing(y: Sys, id: nat): Sys
    requires id in y.jobs
  {
    var c := y.jobs[id].c;
    Put(y, id, CallHost).(
      shim := y.shim.(granted := y.shim.granted + {GrantKey(HostOf(c), RealmOf(c.hostName))}))
  }

  /** The connection call, answered under px's name. */
  function Calling(y: Sys, id: nat): Sys
    requires id in y.jobs
  {
    var c, k := y.jobs[id].c, HostOf(y.jobs[id].c);
    var (s, a) := Outcome(y.fa, Serve(y.fa, Connections(c.verb, k, c.volumeName)), c.link);
    Effect(y, id, Done(if a.None? then CALL_FAILED else Translate(c, k, a.value)), c.link).(fa := s)
  }

  /** The request goes on to the array with its query rewritten. */
  function Forwarding(y: Sys, id: nat): Sys
    requires id in y.jobs
  {
    var c := y.jobs[id].c;
    var q := Forwarded(y.jobs[id].ids.asked, c.fqdn, c.hostName, c.volumeName);
    var (s, a) := Outcome(y.fa, Serve(y.fa, Connections(c.verb, q.host, q.volume)), c.link);
    Effect(y, id, if a.None? then Done(UPSTREAM_FAILED) else Back(a.value, y.shim.learned.Keys), c.link).(fa := s)
  }

  /** The answer of a forwarded request on its way back, under the names met. */
  function ToldBack(c: Call, ids: Ids, a: Answer, names: map<string, string>): Answer {
    var body := IdentText(ids.told, c.fqdn, a.body);
    Answer(a.status, if c.verb == Get then MapText(names, body) else body)
  }

  /** The answer is mapped back under the names met on the way through the learned ones. */
  function Telling(y: Sys, id: nat, used: set<string>): Sys
    requires id in y.jobs && y.jobs[id].pc.Back?
  {
    var job := y.jobs[id];
    Put(y, id, Done(ToldBack(job.c, job.ids, job.pc.a, Seen(y.shim.learned, used))))
  }

  function StepOf(y: Sys, id: nat): (z: Sys)
    requires id in y.jobs
    ensures z.jobs.Keys == y.jobs.Keys
  {
    match y.jobs[id].pc
    case Start => Starting(y, id)
    case Check => Checking(y, id)
    case Ask => Asking(y, id)
    case Store => Storing(y, id)
    case CallHost => Calling(y, id)
    case Forward => Forwarding(y, id)
    case _ => y
  }

  /** One step of the system; a step that is not possible changes nothing. */
  function Next(y: Sys, a: Action): Sys {
    match a
    case Arrive(id, c, ids) => if id in y.jobs then y else y.(jobs := y.jobs[id := Job(c, ids, Start, None)])
    case Step(id) => if id in y.jobs then StepOf(y, id) else y
    case Tell(id, used) =>
      if id in y.jobs && y.jobs[id].pc.Back? && y.jobs[id].pc.known <= used <= y.shim.learned.Keys then
        Telling(y, id, used)
      else y
    case Teach(l) => y.(shim := y.shim.(learned := Learn(y.shim.learned, l.name, l.pick)))
  }

  function Run(y: Sys, acts: seq<Action>): Sys
    decreases |acts|
  {
    if acts == [] then y else Run(Next(y, acts[0]), acts[1..])
  }

  // ---- one request alone ----

  predicate Over(pc: Pc) { pc.Done? || pc.Back? }

  function Rank(pc: Pc): nat {
    match pc
    case Start => 4
    case Check => 3
    case Ask => 2
    case Store => 1
    case _ => 0
  }

  lemma StepRanks(y: Sys, id: nat)
    requires id in y.jobs && !Over(y.jobs[id].pc)
    ensures var pc := StepOf(y, id).jobs[id].pc; Over(pc) || Rank(pc) < Rank(y.jobs[id].pc)
  {
  }

  /** All steps of one request up to its answer, and no one else's between them. */
  ghost function Alone(y: Sys, id: nat): (z: Sys)
    requires id in y.jobs
    ensures id in z.jobs && Over(z.jobs[id].pc)
    decreases if Over(y.jobs[id].pc) then 0 else Rank(y.jobs[id].pc) + 1
  {
    if Over(y.jobs[id].pc) then y else StepRanks(y, id); Alone(StepOf(y, id), id)
  }

  /** The shim, the array and how far the request is. */
  function Stand(y: Sys, id: nat): (Shim, ArrayState, Pc)
    requires id in y.jobs
  {
    (y.shim, y.fa, y.jobs[id].pc)
  }

  function Called(shim: Shim, s: ArrayState, c: Call): (Shim, ArrayState, Pc) {
    var (t, a) := Outcome(s, Serve(s, Connections(c.verb, HostOf(c), c.volumeName)), c.link);
    (shim, t, Done(if a.None? then CALL_FAILED else Translate(c, HostOf(c), a.value)))
  }

  function GrantedCalled(shim: Shim, s: ArrayState, c: Call): (Shim, ArrayState, Pc) {
    var (granted, t, ok) := GrantStep(shim.granted, s, HostOf(c), RealmOf(c.hostName), c.grantLink);
    if ok then Called(shim.(granted := granted), t, c) else (shim.(granted := granted), t, Done(GRANT_FAILED))
  }

  lemma AloneNext(y: Sys, z: Sys, id: nat)
    requires id in y.jobs && !Over(y.jobs[id].pc) && z == StepOf(y, id)
    ensures Alone(y, id) == if Over(z.jobs[id].pc) then z else Alone(z, id)
  {
  }

  lemma CallStands(y: Sys, id: nat)
    requires id in y.jobs
    ensures Stand(Calling(y, id), id) == Called(y.shim, y.fa, y.jobs[id].c)
  {
  }

  lemma CallAlone(y: Sys, id: nat)
    requires id in y.jobs && y.jobs[id].pc == CallHost
    ensures Stand(Alone(y, id), id) == Called(y.shim, y.fa, y.jobs[id].c)
  {
    AloneNext(y, Calling(y, id), id);
    CallStands(y, id);
  }

  /** What the grant call and its answer leave, when the cache has no such grant. */
  function GrantAsked(shim: Shim, s: ArrayState, c: Call): (Shim, ArrayState, Pc) {
    var (t, a) := Outcome(s, Serve(s, Grant(HostOf(c), RealmOf(c.hostName))), c.grantLink);
    if a.Some? && GrantAccepted(a.value) then
      Called(shim.(granted := shim.granted + {GrantKey(HostOf(c), RealmOf(c.hostName))}), t, c)
    else (shim, t, Done(GRANT_FAILED))
  }

  lemma AskStands(y: Sys, id: nat)
    requires id in y.jobs
    ensures var z := Asking(y, id);
            GrantAsked(y.shim, y.fa, y.jobs[id].c) ==
              if z.jobs[id].pc == Store then var x := Storing(z, id); Called(x.shim, x.fa, x.jobs[id].c)
              else Stand(z, id)
    ensures Asking(y, id).jobs[id].pc.Store? || Asking(y, id).jobs[id].pc.Done?
  {
  }

  lemma AskAlone(y: Sys, id: nat)
    requires id in y.jobs && y.jobs[id].pc == Ask
    ensures Stand(Alone(y, id), id) == GrantAsked(y.shim, y.fa, y.jobs[id].c)
  {
    var z := Asking(y, id);
    AloneNext(y, z, id);
    AskStands(y, id);
    if z.jobs[id].pc == Store {
      AloneNext(z, Storing(z, id), id);
      CallAlone(Storing(z, id), id);
    }
  }

  /** The cache check decides whether the grant call is made. */
  lemma GrantParts(shim: Shim, s: ArrayState, c: Call)
    ensures GrantedCalled(shim, s, c) == if Checked(shim, c) == Ask then GrantAsked(shim, s, c) else Called(shim, s, c)
  {
    assert shim.(granted := shim.granted) == shim;
  }

  lemma CheckAlone(y: Sys, id: nat)
    requires id in y.jobs && y.jobs[id].pc == Check
    ensures Stand(Alone(y, id), id) == GrantedCalled(y.shim, y.fa, y.jobs[id].c)
  {
    var z := Checking(y, id);
    AloneNext(y, z, id);
    GrantParts(y.shim, y.fa, y.jobs[id].c);
    if z.jobs[id].pc == Ask { AskAlone(z, id); } else { CallAlone(z, id); }
  }

  /** The intercepted request, in the parts that its steps are. */
  lemma ConnectionParts(shim: Shim, s: ArrayState, c: Call)
    requires c.hostName != "" && IsRealmHost(c.hostName) && c.pick.Some?
    ensures var (shim', s', a) := ConnectionStep(shim, s, true, c);
            var learned := shim.(learned := Learn(shim.learned, c.hostName, c.relearn));
            a.Some? && (shim', s', Done(a.value)) ==
              if c.verb == Post then GrantedCalled(learned, s, c) else Called(learned, s, c)
  {
    assert forall x: Shim :: x.(granted := x.granted) == x;
  }

  /** A call on the array host, taken alone, leaves the shim and the array as the sequential handler does. */
  lemma HostAlone(y: Sys, id: nat)
    requires id in y.jobs && y.jobs[id].pc == Start
    requires var c := y.jobs[id].c; c.hostName != "" && IsRealmHost(c.hostName) && c.pick.Some?
    ensures var (shim, s, a) := ConnectionStep(y.shim, y.fa, true, y.jobs[id].c);
            a.Some? && Stand(Alone(y, id), id) == (shim, s, Done(a.value))
  {
    var z := Starting(y, id);
    AloneNext(y, z, id);
    ConnectionParts(y.shim, y.fa, y.jobs[id].c);
    if z.jobs[id].pc == Check { CheckAlone(z, id); } else { CallAlone(z, id); }
  }

  /** A forwarded request whose answer is mapped back under every learned name. */
  function Passed(shim: Shim, s: ArrayState, ids: Ids, c: Call): (Shim, ArrayState, Pc) {
    var (t, a) := ForwardStep(shim.learned, s, ids, c);
    (shim, t, Done(a))
  }

  lemma PassedParts(shim: Shim, s: ArrayState, ids: Ids, c: Call)
    requires c.hostName == "" || !IsRealmHost(c.hostName) || c.pick.None?
    ensures var (shim', s', a) := HandleStep(shim, s, true, ids, c);
            Passed(shim, s, ids, c) == (shim', s', Done(a))
  {
  }

  /** The answer told under every learned name. */
  function Told(y: Sys, id: nat): Sys { Next(y, Tell(id, y.shim.learned.Keys)) }

  lemma PassStands(y: Sys, id: nat)
    requires id in y.jobs
    ensures var z := Forwarding(y, id);
            && Over(z.jobs[id].pc) && id in Told(z, id).jobs
            && Stand(Told(z, id), id) == Passed(y.shim, y.fa, y.jobs[id].ids, y.jobs[id].c)
  {
    assert Seen(y.shim.learned, y.shim.learned.Keys) == y.shim.learned;
  }

  lemma PassAlone(y: Sys, id: nat)
    requires id in y.jobs && y.jobs[id].pc == Forward
    ensures id in Told(Alone(y, id), id).jobs
    ensures Stand(Told(Alone(y, id), id), id) == Passed(y.shim, y.fa, y.jobs[id].ids, y.jobs[id].c)
  {
    var z := Forwarding(y, id);
    PassStands(y, id);
    AloneNext(y, z, id);
    assert Alone(y, id) == z;
  }

  lemma ForwardAlone(y: Sys, id: nat)
    requires id in y.jobs && y.jobs[id].pc == Start
    requires var c := y.jobs[id].c; c.hostName == "" || !IsRealmHost(c.hostName) || c.pick.None?
    ensures id in Told(Alone(y, id), id).jobs
    ensures Stand(Told(Alone(y, id), id), id) == Passed(y.shim, y.fa, y.jobs[id].ids, y.jobs[id].c)
  {
    AloneNext(y, Starting(y, id), id);
    PassAlone(Starting(y, id), id);
  }

  lemma InterceptedParts(shim: Shim, s: ArrayState, ids: Ids, c: Call)
    ensures var (shim', s', a) := ConnectionStep(shim, s, true, c);
            a.Some? ==> HandleStep(shim, s, true, ids, c) == (shim', s', a.value)
  {
  }

  lemma ToldAlready(y: Sys, id: nat)
    requires id in y.jobs && y.jobs[id].pc.Done?
    ensures Told(y, id) == y
  {
  }

  /**
   Taken without another request's step in between, the steps are the handler: they leave the shim, the array and
   px's answer exactly as `HandleStep` does.
   */
  lemma AloneIsHandled(y: Sys, id: nat)
    requires id in y.jobs && y.jobs[id].pc == Start
    ensures var (shim, s, a) := HandleStep(y.shim, y.fa, true, y.jobs[id].ids, y.jobs[id].c);
            id in Told(Alone(y, id), id).jobs && Stand(Told(Alone(y, id), id), id) == (shim, s, Done(a))
  {
    var c := y.jobs[id].c;
    if c.hostName == "" || !IsRealmHost(c.hostName) || c.pick.None? {
      ForwardAlone(y, id);
      PassedParts(y.shim, y.fa, y.jobs[id].ids, c);
    } else {
      HostAlone(y, id);
      InterceptedParts(y.shim, y.fa, y.jobs[id].ids, c);
      ToldAlready(Alone(y, id), id);
    }
  }

  // ---- the plain array, one effect after the other ----

  function PlainNext(p: seq<Conn>, e: Effected): (seq<Conn>, Option<Answer>) {
    Outcome(p, PlainServe(p, e.c.verb, e.c.hostName, e.c.volumeName), e.fate)
  }

  function PlainState(p0: seq<Conn>, es: seq<Effected>): seq<Conn> {
    if es == [] then p0 else PlainNext(PlainState(p0, es[..|es| - 1]), es[|es| - 1]).0
  }

  function PlainAnswer(p0: seq<Conn>, es: seq<Effected>, i: nat): Answer
    requires i < |es|
  {
    Said(PlainNext(PlainState(p0, es[..i]), es[i]).1)
  }

  // ---- what every step keeps ----

  datatype World = World(m: NodeMap, naming: Naming, ident: Option<Identity>, p0: seq<Conn>)

  /** Names px has, and among them the known ones. */
  ghost predicate NamesFrom(naming: Naming, known: set<string>, names: map<string, string>) {
    known <= names.Keys && forall k :: k in names ==> k in naming && names[k] == naming[k]
  }

  /** The answer is right under any names the mapping back meets, if it meets those known when the array gave it. */
  ghost predicate ToldRight(w: World, c: Call, ids: Ids, a: Answer, known: set<string>, b: Answer) {
    forall names: map<string, string> :: NamesFrom(w.naming, known, names) ==> Agree(ToldBack(c, ids, a, names), b)
  }

  /** A request that has not taken effect: what is in place for its next step. */
  ghost predicate Pending(w: World, keys: set<string>, grants: set<(string, string)>, job: Job) {
    var c, k := job.c, HostOf(job.c);
    match job.pc
    case Start => true
    case Check => c.hostName != "" && c.verb == Post && k in keys
    case Ask => c.hostName != "" && c.verb == Post && k in keys
    case Store => c.hostName != "" && c.verb == Post && k in keys && (k, RealmOf(c.hostName)) in grants
    case CallHost => c.hostName != "" && k in keys && (c.verb == Post ==> (k, RealmOf(c.hostName)) in grants)
    case Forward => c.hostName == ""
    case _ => false
  }

  /** A request that has taken effect: its answer is the plain array's of that moment, unless it is misread. */
  ghost predicate Answered(w: World, order: seq<Effected>, id: nat, job: Job, i: nat) {
    && i < |order| && order[i].id == id && order[i].c == job.c
    && match job.pc
       case Back(a, known) => job.c.verb == Get && ToldRight(w, job.c, job.ids, a, known, PlainAnswer(w.p0, order, i))
       case Done(a) => Agree(a, PlainAnswer(w.p0, order, i)) <==> !(Misread(job.c) && order[i].fate == Served)
       case _ => false
  }

  ghost predicate JobOk(w: World, keys: set<string>,
          grants: set<(string, string)>, order: seq<Effected>, id: nat, job: Job)
  {
    && CallOk(w.m, w.naming, w.ident, job.c) && KnownAs(w.ident, job.ids)
    && match job.at_
       case None => Pending(w, keys, grants, job)
       case Some(i) => Answered(w, order, id, job, i)
  }

  ghost predicate Ready(w: World) { NamingOk(w.m, w.naming) && IdentOk(w.ident, w.naming) }

  ghost predicate JobsOk(w: World, keys: set<string>,
          grants: set<(string, string)>, order: seq<Effected>, jobs: map<nat, Job>)
  {
    forall id :: id in jobs ==> JobOk(w, keys, grants, order, id, jobs[id])
  }

  /** Every effect belongs to the one request that has its place. */
  ghost predicate OrderOk(order: seq<Effected>, jobs: map<nat, Job>) {
    forall i :: 0 <= i < |order| ==> order[i].id in jobs && jobs[order[i].id].at_ == Some(i)
  }

  ghost predicate Inv(w: World, y: Sys) {
    && Related(w.naming, w.ident, y.shim, y.fa, PlainState(w.p0, y.order))
    && JobsOk(w, y.shim.learned.Keys, y.fa.grants, y.order, y.jobs)
    && OrderOk(y.order, y.jobs)
  }

  lemma AnswerStays(p0: seq<Conn>, es: seq<Effected>, more: seq<Effected>, i: nat)
    requires i < |es|
    ensures PlainAnswer(p0, es + more, i) == PlainAnswer(p0, es, i)
  {
    assert (es + more)[..i] == es[..i];
  }

  lemma OneMore(p0: seq<Conn>, es: seq<Effected>, e: Effected)
    ensures PlainState(p0, es + [e]) == PlainNext(PlainState(p0, es), e).0
    ensures PlainAnswer(p0, es + [e], |es|) == Said(PlainNext(PlainState(p0, es), e).1)
  {
    assert (es + [e])[..|es|] == es;
  }

  /** Other requests keep what they rely on: names and grants only grow, and effects are only added. */
  lemma JobStays(w: World, keys: set<string>, grants: set<(string, string)>, order: seq<Effected>, id: nat, job: Job,
          keys': set<string>, grants': set<(string, string)>, more: seq<Effected>)
    requires JobOk(w, keys, grants, order, id, job) && keys <= keys' && grants <= grants'
    ensures JobOk(w, keys', grants', order + more, id, job)
  {
    if job.at_.Some? { AnswerStays(w.p0, order, more, job.at_.value); }
  }

  lemma JobsMoved(w: World, y: Sys, id: nat, job: Job, keys: set<string>,
          grants: set<(string, string)>, more: seq<Effected>)
    requires JobsOk(w, y.shim.learned.Keys, y.fa.grants, y.order, y.jobs) && id in y.jobs
    requires y.shim.learned.Keys <= keys && y.fa.grants <= grants
    requires JobOk(w, keys, grants, y.order + more, id, job)
    ensures JobsOk(w, keys, grants, y.order + more, y.jobs[id := job])
  {
    var jobs, order := y.jobs[id := job], y.order + more;
    forall j | j in jobs ensures JobOk(w, keys, grants, order, j, jobs[j]) {
      if j != id { JobStays(w, y.shim.learned.Keys, y.fa.grants, y.order, j, y.jobs[j], keys, grants, more); }
    }
  }

  lemma OrderMoved(order: seq<Effected>, jobs: map<nat, Job>, id: nat, job: Job, more: seq<Effected>)
    requires OrderOk(order, jobs) && id in jobs && Placed(order, jobs[id], id, job, more)
    ensures OrderOk(order + more, jobs[id := job])
  {
    forall i | 0 <= i < |order + more|
      ensures (order + more)[i].id in jobs && jobs[id := job][(order + more)[i].id].at_ == Some(i)
    {
      assert i < |order| ==> (order + more)[i] == order[i];
    }
  }

  /** A request keeps its place, or takes the next one. */
  ghost predicate Placed(order: seq<Effected>, old_: Job, id: nat, job: Job, more: seq<Effected>) {
    || (more == [] && job.at_ == old_.at_)
    || (|more| == 1 && more[0].id == id && job.at_ == Some(|order|) && old_.at_ == None)
  }

  /** A step of one request, when its own new record and the shared state are in order. */
  lemma Moved(w: World, y: Sys, id: nat, job: Job, shim: Shim, s: ArrayState, more: seq<Effected>)
    requires Inv(w, y) && id in y.jobs
    requires y.shim.learned.Keys <= shim.learned.Keys && y.fa.grants <= s.grants
    requires Related(w.naming, w.ident, shim, s, PlainState(w.p0, y.order + more))
    requires JobOk(w, shim.learned.Keys, s.grants, y.order + more, id, job)
    requires Placed(y.order, y.jobs[id], id, job, more)
    ensures Inv(w, Sys(y.jobs[id := job], shim, s, y.order + more))
  {
    JobsMoved(w, y, id, job, shim.learned.Keys, s.grants, more);
    OrderMoved(y.order, y.jobs, id, job, more);
  }

  /** A step without an effect. */
  lemma MovedOn(w: World, y: Sys, id: nat, pc: Pc, shim: Shim, s: ArrayState)
    requires Inv(w, y) && id in y.jobs && y.jobs[id].at_ == None
    requires y.shim.learned.Keys <= shim.learned.Keys && y.fa.grants <= s.grants
    requires Related(w.naming, w.ident, shim, s, PlainState(w.p0, y.order))
    requires Pending(w, shim.learned.Keys, s.grants, y.jobs[id].(pc := pc))
    ensures Inv(w, Put(y, id, pc).(shim := shim, fa := s))
  {
    assert y.order + [] == y.order;
    assert JobOk(w, y.shim.learned.Keys, y.fa.grants, y.order, id, y.jobs[id]);
    Moved(w, y, id, y.jobs[id].(pc := pc), shim, s, []);
  }

  /** A step that takes effect. */
  lemma TookEffect(w: World, y: Sys, id: nat, pc: Pc, fate: Link, s: ArrayState)
    requires Inv(w, y) && id in y.jobs && y.jobs[id].at_ == None && y.fa.grants <= s.grants
    requires Related(w.naming, w.ident, y.shim, s,
               PlainNext(PlainState(w.p0, y.order), Effected(id, y.jobs[id].c, fate)).0)
    requires var c := y.jobs[id].c;
             var b := Said(PlainNext(PlainState(w.p0, y.order), Effected(id, c, fate)).1);
             match pc
             case Back(a, known) => c.verb == Get && ToldRight(w, c, y.jobs[id].ids, a, known, b)
             case Done(a) => Agree(a, b) <==> !(Misread(c) && fate == Served)
             case _ => false
    ensures Inv(w, Effect(y, id, pc, fate).(fa := s))
  {
    var e := Effected(id, y.jobs[id].c, fate);
    OneMore(w.p0, y.order, e);
    assert JobOk(w, y.shim.learned.Keys, y.fa.grants, y.order, id, y.jobs[id]);
    var job := y.jobs[id].(pc := pc, at_ := Some(|y.order|));
    assert Answered(w, y.order + [e], id, job, |y.order|);
    Moved(w, y, id, job, y.shim, s, [e]);
  }

  // ---- the steps ----

  lemma StartKeeps(w: World, y: Sys, id: nat)
    requires Ready(w) && Inv(w, y) && id in y.jobs && y.jobs[id].pc == Start
    ensures Inv(w, Starting(y, id))
  {
    var c := y.jobs[id].c;
    assert JobOk(w, y.shim.learned.Keys, y.fa.grants, y.order, id, y.jobs[id]);
    if c.hostName == "" {
      MovedOn(w, y, id, Forward, y.shim, y.fa);
    } else {
      var k := c.pick.value.arrayHost;
      PxNameIsRealmHost(w.m, w.naming, k);
      LearnsItsName(w.m, w.naming, w.ident, y.shim.learned, c);
      RelatedLearned(w.naming, w.ident, y.shim, y.fa, PlainState(w.p0, y.order), k);
      var shim := Shim(y.shim.learned[k := c.hostName], y.shim.granted);
      MovedOn(w, y, id, if c.verb == Post then Check else CallHost, shim, y.fa);
    }
  }

  lemma CachedIsHeld(granted: set<string>, grants: set<(string, string)>, host: string, realm: string)
    requires GrantsHeld(granted, grants) && Free(host, NUL) && GrantKey(host, realm) in granted
    ensures (host, realm) in grants
  {
  }

  lemma CheckedRight(w: World, shim: Shim, s: ArrayState, job: Job)
    requires Ready(w) && CallOk(w.m, w.naming, w.ident, job.c) && GrantsHeld(shim.granted, s.grants)
    requires job.pc == Check && Pending(w, shim.learned.Keys, s.grants, job)
    ensures Pending(w, shim.learned.Keys, s.grants, job.(pc := Checked(shim, job.c)))
  {
    var k, realm := HostOf(job.c), RealmOf(job.c.hostName);
    PxNameIsRealmHost(w.m, w.naming, k);
    if GrantKey(k, realm) in shim.granted { CachedIsHeld(shim.granted, s.grants, k, realm); }
  }

  lemma CheckKeeps(w: World, y: Sys, id: nat)
    requires Ready(w) && Inv(w, y) && id in y.jobs && y.jobs[id].pc == Check
    ensures Inv(w, Checking(y, id))
  {
    assert JobOk(w, y.shim.learned.Keys, y.fa.grants, y.order, id, y.jobs[id]);
    CheckedRight(w, y.shim, y.fa, y.jobs[id]);
    MovedOn(w, y, id, Checked(y.shim, y.jobs[id].c), y.shim, y.fa);
  }

  /** The grant call: the array gains at most this grant, and an accepted answer means it is held. */
  lemma GrantCallHolds(s: ArrayState, host: string, realm: string, link: Link)
    requires host in s.hosts && realm in s.realms
    ensures var (t, a) := Outcome(s, Serve(s, Grant(host, realm)), link);
            && t == s.(grants := t.grants) && s.grants <= t.grants <= s.grants + {(host, realm)}
            && (a.Some? && GrantAccepted(a.value) ==> (host, realm) in t.grants)
  {
    assert UNAUTHORIZED.status == 401;
  }

  /** A grant for px's own realm on one of px's hosts keeps the relation. */
  lemma GrantedKeeps(naming: Naming, ident: Option<Identity>, shim: Shim, s: ArrayState, p: seq<Conn>, k: string,
          grants: set<(string, string)>)
    requires Related(naming, ident, shim, s, p) && k in naming
    requires s.grants <= grants <= s.grants + {(k, RealmOf(naming[k]))}
    ensures Related(naming, ident, shim, s.(grants := grants), p)
  {
    var t := s.(grants := grants);
    forall i | 0 <= i < |t.conns| ensures ConnOk(naming, ident, shim.learned, t.conns[i]) {
      assert ConnOk(naming, ident, shim.learned, s.conns[i]);
    }
  }

  lemma AskedRight(w: World, shim: Shim, s: ArrayState, p: seq<Conn>, job: Job)
    requires Ready(w) && CallOk(w.m, w.naming, w.ident, job.c) && Related(w.naming, w.ident, shim, s, p)
    requires job.pc == Ask && Pending(w, shim.learned.Keys, s.grants, job)
    ensures var (t, a) := Outcome(s, Serve(s, Grant(HostOf(job.c), RealmOf(job.c.hostName))), job.c.grantLink);
            && s.grants <= t.grants && Related(w.naming, w.ident, shim, t, p)
            && (a.Some? && GrantAccepted(a.value) ==>
                  Pending(w, shim.learned.Keys, t.grants, job.(pc := Store)))
  {
    var k, realm := HostOf(job.c), RealmOf(job.c.hostName);
    GrantCallHolds(s, k, realm, job.c.grantLink);
    GrantedKeeps(w.naming, w.ident, shim, s, p, k, Outcome(s, Serve(s, Grant(k, realm)), job.c.grantLink).0.grants);
  }

  lemma NotCarriedOut(p: seq<Conn>, id: nat, c: Call)
    ensures PlainNext(p, Effected(id, c, LostBefore)) == (p, None) && Agree(GRANT_FAILED, Said(None))
  {
  }

  lemma AskKeeps(w: World, y: Sys, id: nat)
    requires Ready(w) && Inv(w, y) && id in y.jobs && y.jobs[id].pc == Ask
    ensures Inv(w, Asking(y, id))
  {
    var c := y.jobs[id].c;
    assert JobOk(w, y.shim.learned.Keys, y.fa.grants, y.order, id, y.jobs[id]);
    AskedRight(w, y.shim, y.fa, PlainState(w.p0, y.order), y.jobs[id]);
    var (s, a) := Outcome(y.fa, Serve(y.fa, Grant(HostOf(c), RealmOf(c.hostName))), c.grantLink);
    if a.Some? && GrantAccepted(a.value) {
      MovedOn(w, y, id, Store, y.shim, s);
    } else {
      NotCarriedOut(PlainState(w.p0, y.order), id, c);
      TookEffect(w, y, id, Done(GRANT_FAILED), LostBefore, s);
    }
  }

  lemma StoredKeeps(naming: Naming, ident: Option<Identity>, shim: Shim,
          s: ArrayState, p: seq<Conn>, k: string, realm: string)
    requires Related(naming, ident, shim, s, p) && Free(k, NUL) && (k, realm) in s.grants
    ensures Related(naming, ident, shim.(granted := shim.granted + {GrantKey(k, realm)}), s, p)
  {
    var granted := shim.granted + {GrantKey(k, realm)};
    forall h, r | Free(h, NUL) && GrantKey(h, r) in granted ensures (h, r) in s.grants {
      if GrantKey(h, r) !in shim.granted { KeyInjective(h, r, k, realm); }
    }
  }

  lemma StoreKeeps(w: World, y: Sys, id: nat)
    requires Ready(w) && Inv(w, y) && id in y.jobs && y.jobs[id].pc == Store
    ensures Inv(w, Storing(y, id))
  {
    var k, realm := HostOf(y.jobs[id].c), RealmOf(y.jobs[id].c.hostName);
    assert JobOk(w, y.shim.learned.Keys, y.fa.grants, y.order, id, y.jobs[id]);
    PxNameIsRealmHost(w.m, w.naming, k);
    StoredKeeps(w.naming, w.ident, y.shim, y.fa, PlainState(w.p0, y.order), k, realm);
    MovedOn(w, y, id, CallHost, y.shim.(granted := y.shim.granted + {GrantKey(k, realm)}), y.fa);
  }

  lemma ConnectionsGrantNothing(s: ArrayState, verb: Verb, host: string, volume: string, link: Link)
    ensures Outcome(s, Serve(s, Connections(verb, host, volume)), link).0.grants == s.grants
  {
  }

  /** The connection call with the name learned and the grant held, and the plain array's step at the same moment. */
  lemma CalledRight(w: World, shim: Shim, s: ArrayState, p: seq<Conn>, id: nat, c: Call)
    requires Ready(w) && CallOk(w.m, w.naming, w.ident, c) && Related(w.naming, w.ident, shim, s, p)
    requires c.hostName != "" && HostOf(c) in shim.learned
    requires c.verb == Post ==> (HostOf(c), RealmOf(c.hostName)) in s.grants
    ensures var (t, a) := Outcome(s, Serve(s, Connections(c.verb, HostOf(c), c.volumeName)), c.link);
            var (q, b) := PlainNext(p, Effected(id, c, c.link));
            && Related(w.naming, w.ident, shim, t, q)
            && (Agree(if a.None? then CALL_FAILED else Translate(c, HostOf(c), a.value), Said(b)) <==>
                  !(Misread(c) && c.link == Served))
  {
    var k := HostOf(c);
    HostCallRefines(w.m, w.naming, w.ident, shim, s, p, c);
    OutcomeRefines(w.naming, w.ident, shim, s, p, c, k, Serve(s, Connections(c.verb, k, c.volumeName)),
      PlainServe(p, c.verb, c.hostName, c.volumeName));
  }

  lemma CallKeeps(w: World, y: Sys, id: nat)
    requires Ready(w) && Inv(w, y) && id in y.jobs && y.jobs[id].pc == CallHost
    ensures Inv(w, Calling(y, id))
  {
    var c, k := y.jobs[id].c, HostOf(y.jobs[id].c);
    assert JobOk(w, y.shim.learned.Keys, y.fa.grants, y.order, id, y.jobs[id]);
    CalledRight(w, y.shim, y.fa, PlainState(w.p0, y.order), id, c);
    ConnectionsGrantNothing(y.fa, c.verb, k, c.volumeName, c.link);
    var (s, a) := Outcome(y.fa, Serve(y.fa, Connections(c.verb, k, c.volumeName)), c.link);
    TookEffect(w, y, id, Done(if a.None? then CALL_FAILED else Translate(c, k, a.value)), c.link, s);
  }

  lemma MoreNames(naming: Naming, ident: Option<Identity>, shim: Shim,
          s: ArrayState, p: seq<Conn>, names: map<string, string>)
    requires Related(naming, ident, shim, s, p) && shim.learned.Keys <= names.Keys
    requires forall k :: k in names ==> k in naming && names[k] == naming[k]
    ensures Related(naming, ident, shim.(learned := names), s, p)
  {
    forall i | 0 <= i < |s.conns| ensures ConnOk(naming, ident, names, s.conns[i]) {
      assert ConnOk(naming, ident, shim.learned, s.conns[i]);
    }
  }

  /** A listing may be mapped back later: under any names that hold those known when the array gave it. */
  lemma ListToldRight(w: World, shim: Shim, s: ArrayState, p: seq<Conn>, c: Call, ids: Ids)
    requires Ready(w) && CallOk(w.m, w.naming, w.ident, c) && KnownAs(w.ident, ids) && c.hostName == ""
    requires Related(w.naming, w.ident, shim, s, p)
    ensures ToldRight(w, c, ids, Serve(s, Connections(Get, "", c.volumeName)).1, shim.learned.Keys,
              PlainServe(p, Get, "", c.volumeName).1)
  {
    var a := Serve(s, Connections(Get, "", c.volumeName)).1;
    forall names: map<string, string> | NamesFrom(w.naming, shim.learned.Keys, names)
      ensures Agree(ToldBack(c, ids, a, names), PlainServe(p, Get, "", c.volumeName).1)
    {
      MoreNames(w.naming, w.ident, shim, s, p, names);
      ListRefines(w.m, w.naming, w.ident, ids.told, shim.(learned := names), s, p, c);
    }
  }

  lemma ForwardsClean(w: World, c: Call, ids: Ids)
    requires CallOk(w.m, w.naming, w.ident, c) && KnownAs(w.ident, ids) && c.hostName == ""
    ensures Forwarded(ids.asked, c.fqdn, c.hostName, c.volumeName) == Asked("", c.volumeName) && c.verb == Get
  {
    CleanForwards(ids.asked, c.fqdn, "", c.volumeName);
  }

  /** How a listing's call can end, on the array and on the plain one. */
  lemma ListingEnds(s: ArrayState, p: seq<Conn>, id: nat, c: Call)
    requires c.hostName == "" && c.verb == Get
    ensures var (t, a) := Outcome(s, Serve(s, Connections(Get, "", c.volumeName)), c.link);
            var (p', b) := PlainNext(p, Effected(id, c, c.link));
            && t == s && p' == p
            && match c.link
               case Served => a == Some(Serve(s, Connections(Get, "", c.volumeName)).1)
                              && b == Some(PlainServe(p, Get, "", c.volumeName).1)
               case Refused => a == b == Some(UNAUTHORIZED)
               case _ => a == b == None
  {
  }

  lemma RefusedToldRight(w: World, c: Call, ids: Ids, known: set<string>)
    ensures ToldRight(w, c, ids, UNAUTHORIZED, known, UNAUTHORIZED)
  {
  }

  /** A listing, however its call ended, and the plain array's step at the same moment. */
  lemma ListedRight(w: World, shim: Shim, s: ArrayState, p: seq<Conn>, id: nat, c: Call, ids: Ids)
    requires Ready(w) && CallOk(w.m, w.naming, w.ident, c) && KnownAs(w.ident, ids)
    requires c.hostName == "" && c.verb == Get && Related(w.naming, w.ident, shim, s, p)
    ensures var (t, a) := Outcome(s, Serve(s, Connections(Get, "", c.volumeName)), c.link);
            var (p', b) := PlainNext(p, Effected(id, c, c.link));
            && t == s && p' == p && a.Some? == b.Some?
            && (a.Some? ==> ToldRight(w, c, ids, a.value, shim.learned.Keys, b.value))
  {
    ListingEnds(s, p, id, c);
    ListToldRight(w, shim, s, p, c, ids);
    RefusedToldRight(w, c, ids, shim.learned.Keys);
  }

  lemma ForwardKeeps(w: World, y: Sys, id: nat)
    requires Ready(w) && Inv(w, y) && id in y.jobs && y.jobs[id].pc == Forward
    ensures Inv(w, Forwarding(y, id))
  {
    var c, ids := y.jobs[id].c, y.jobs[id].ids;
    assert JobOk(w, y.shim.learned.Keys, y.fa.grants, y.order, id, y.jobs[id]);
    ForwardsClean(w, c, ids);
    ListedRight(w, y.shim, y.fa, PlainState(w.p0, y.order), id, c, ids);
    var a := Outcome(y.fa, Serve(y.fa, Connections(Get, "", c.volumeName)), c.link).1;
    TookEffect(w, y, id, if a.None? then Done(UPSTREAM_FAILED) else Back(a.value, y.shim.learned.Keys), c.link, y.fa);
  }

  lemma ToldOk(w: World, y: Sys, id: nat, used: set<string>)
    requires id in y.jobs && JobOk(w, y.shim.learned.Keys, y.fa.grants, y.order, id, y.jobs[id])
    requires forall k :: k in y.shim.learned ==> k in w.naming && y.shim.learned[k] == w.naming[k]
    requires y.jobs[id].pc.Back? && y.jobs[id].pc.known <= used <= y.shim.learned.Keys
    ensures JobOk(w, y.shim.learned.Keys, y.fa.grants, y.order, id, Telling(y, id, used).jobs[id])
  {
    var job, names := y.jobs[id], Seen(y.shim.learned, used);
    assert names.Keys == used;
    assert NamesFrom(w.naming, job.pc.known, names);
    assert !Misread(job.c);
  }

  lemma TellKeeps(w: World, y: Sys, id: nat, used: set<string>)
    requires Ready(w) && Inv(w, y) && id in y.jobs && y.jobs[id].pc.Back?
    requires y.jobs[id].pc.known <= used <= y.shim.learned.Keys
    ensures Inv(w, Telling(y, id, used))
  {
    ToldOk(w, y, id, used);
    assert y.order + [] == y.order;
    Moved(w, y, id, Telling(y, id, used).jobs[id], y.shim, y.fa, []);
  }

  ghost predicate ActionOk(w: World, a: Action) {
    match a
    case Arrive(_, c, ids) => CallOk(w.m, w.naming, w.ident, c) && KnownAs(w.ident, ids)
    case Teach(l) => LessonOk(w.m, w.naming, l)
    case _ => true
  }

  lemma StepKeeps(w: World, y: Sys, id: nat)
    requires Ready(w) && Inv(w, y) && id in y.jobs
    ensures Inv(w, StepOf(y, id))
  {
    match y.jobs[id].pc
    case Start => StartKeeps(w, y, id);
    case Check => CheckKeeps(w, y, id);
    case Ask => AskKeeps(w, y, id);
    case Store => StoreKeeps(w, y, id);
    case CallHost => CallKeeps(w, y, id);
    case Forward => ForwardKeeps(w, y, id);
    case _ =>
  }

  lemma ArriveKeeps(w: World, y: Sys, id: nat, c: Call, ids: Ids)
    requires Inv(w, y) && id !in y.jobs && CallOk(w.m, w.naming, w.ident, c) && KnownAs(w.ident, ids)
    ensures Inv(w, y.(jobs := y.jobs[id := Job(c, ids, Start, None)]))
  {
    assert JobOk(w, y.shim.learned.Keys, y.fa.grants, y.order, id, Job(c, ids, Start, None));
  }

  lemma TeachKeeps(w: World, y: Sys, l: Lesson)
    requires Inv(w, y) && LessonOk(w.m, w.naming, l)
    ensures Inv(w, y.(shim := y.shim.(learned := Learn(y.shim.learned, l.name, l.pick))))
  {
    var keys := Learn(y.shim.learned, l.name, l.pick).Keys;
    LessonKeeps(w.m, w.naming, w.ident, y.shim, y.fa, PlainState(w.p0, y.order), l);
    assert y.order + [] == y.order;
    forall id | id in y.jobs ensures JobOk(w, keys, y.fa.grants, y.order, id, y.jobs[id]) {
      JobStays(w, y.shim.learned.Keys, y.fa.grants, y.order, id, y.jobs[id], keys, y.fa.grants, []);
    }
  }

  lemma NextKeeps(w: World, y: Sys, a: Action)
    requires Ready(w) && Inv(w, y) && ActionOk(w, a)
    ensures Inv(w, Next(y, a))
  {
    match a
    case Arrive(id, c, ids) => if id !in y.jobs { ArriveKeeps(w, y, id, c, ids); }
    case Step(id) => if id in y.jobs { StepKeeps(w, y, id); }
    case Tell(id, used) =>
      if id in y.jobs && y.jobs[id].pc.Back? && y.jobs[id].pc.known <= used <= y.shim.learned.Keys {
        TellKeeps(w, y, id, used);
      }
    case Teach(l) => TeachKeeps(w, y, l);
  }

  /** Effects are only added behind the others. */
  lemma OrderGrows(y: Sys, a: Action)
    ensures y.order <= Next(y, a).order
  {
  }

  /** The request has exactly one place among the effects, and its answer is the plain array's there. */
  ghost predicate AnsweredOnce(w: World, y: Sys, id: nat)
    requires id in y.jobs && y.jobs[id].pc.Done?
  {
    var job := y.jobs[id];
    && job.at_.Some? && job.at_.value < |y.order| && y.order[job.at_.value].id == id
    && (forall i :: 0 <= i < |y.order| && y.order[i].id == id ==> i == job.at_.value)
    && (Agree(job.pc.out, PlainAnswer(w.p0, y.order, job.at_.value)) <==>
          !(Misread(job.c) && y.order[job.at_.value].fate == Served))
  }

  lemma AnswersOnce(w: World, y: Sys, id: nat)
    requires JobsOk(w, y.shim.learned.Keys, y.fa.grants, y.order, y.jobs) && OrderOk(y.order, y.jobs)
    requires id in y.jobs && y.jobs[id].pc.Done?
    ensures AnsweredOnce(w, y, id)
  {
    assert JobOk(w, y.shim.learned.Keys, y.fa.grants, y.order, id, y.jobs[id]);
  }

  /**
   Linearizability, in every interleaving: each answer px gets is the plain array's answer at the one place the
   request has in the order of effects, unless it is a misread refusal; the real connections are the image of the
   plain ones after all effects so far; and effects are only ever added behind the others.
   */
  lemma {:induction false} Linearizable(w: World, y: Sys, acts: seq<Action>)
    requires Ready(w) && Inv(w, y) && forall i :: 0 <= i < |acts| ==> ActionOk(w, acts[i])
    ensures var z := Run(y, acts);
            && Inv(w, z) && y.order <= z.order
            && PlainState(w.p0, z.order) == RenameHosts(z.fa.conns, w.naming)
            && forall id :: id in z.jobs && z.jobs[id].pc.Done? ==> AnsweredOnce(w, z, id)
    decreases |acts|
  {
    if acts == [] {
      forall id | id in y.jobs && y.jobs[id].pc.Done? ensures AnsweredOnce(w, y, id) { AnswersOnce(w, y, id); }
    } else {
      NextKeeps(w, y, acts[0]);
      OrderGrows(y, acts[0]);
      Linearizable(w, Next(y, acts[0]), acts[1..]);
    }
  }

  /** An effect of a request with a place comes before every effect of a request that has none yet. */
  ghost predicate Before(order: seq<Effected>, first: nat, second: nat) {
    forall i, j :: 0 <= i < |order| && 0 <= j < |order| && order[i].id == first && order[j].id == second ==> i < j
  }

  lemma LaterBehind(y: Sys, z: Sys, first: nat, second: nat)
    requires OrderOk(y.order, y.jobs) && OrderOk(z.order, z.jobs) && y.order <= z.order
    requires first in y.jobs && second !in y.jobs
    requires y.jobs[first].at_.Some? && y.jobs[first].at_.value < |y.order|
    requires y.order[y.jobs[first].at_.value].id == first
    ensures Before(z.order, first, second)
  {
    var n := y.jobs[first].at_.value;
    assert z.order[n] == y.order[n];
    assert forall j :: 0 <= j < |y.order| ==> z.order[j] == y.order[j] && z.order[j].id != second;
    assert forall i :: 0 <= i < |z.order| && z.order[i].id == first ==> z.jobs[first].at_ == Some(i);
    assert z.jobs[first].at_ == Some(n);
  }

  /** Real time: a request that was answered before another arrived takes effect before it. */
  lemma RealTime(w: World, y: Sys, acts: seq<Action>, first: nat, second: nat)
    requires Ready(w) && Inv(w, y) && forall i :: 0 <= i < |acts| ==> ActionOk(w, acts[i])
    requires first in y.jobs && y.jobs[first].pc.Done? && second !in y.jobs
    ensures Before(Run(y, acts).order, first, second)
  {
    Linearizable(w, y, acts);
    AnswersOnce(w, y, first);
    LaterBehind(y, Run(y, acts), first, second);
  }

  /** From the start, with connections of others only, there is nothing to keep yet. */
  lemma StartsRight(w: World, s: ArrayState)
    requires Untouched(w.naming, w.ident, s) && w.p0 == s.conns
    ensures Inv(w, Sys(map[], Shim(map[], {}), s, []))
  {
    UntouchedRelated(w.naming, w.ident, s);
  }
}
