/**
 Concurrent calls of the array session: looking at the token, logging in, storing the token, reading it and sending
 the request are separate steps, taken in any order, while sessions expire and the network loses messages.
 */
module SessionRace {
  import opened ArraySession

  /** `again` tells the second attempt, after the first send was rejected. */
  datatype Pc =
    | Look
    | Enter(again: bool)
    | Keep(token: nat, again: bool)
    | Read(again: bool)
    | Send(token: nat, again: bool)
    | Done(link: Link)

  /**
   One call: its sends, the last session it opened itself, and how many tokens had been stored when it stored its
   own and when it read one.
   */
  datatype Caller = Caller(pc: Pc, sends: nat, own: nat, kept: nat, seen: nat)

  /** `stores` are the tokens written to the shared field so far, `executed` the calls the array carried out. */
  datatype Sys = Sys(auth: nat, live: set<nat>, next: nat, callers: map<nat, Caller>, stores: seq<nat>,
                     executed: multiset<nat>)

  datatype Action = Arrive(id: nat) | Expire(kept: set<nat>) | Step(id: nat, arrives: bool, answered: bool)

  const START := Sys(0, {}, 1, map[], [], multiset{})

  function Put(y: Sys, id: nat, c: Caller): Sys { y.(callers := y.callers[id := c]) }

  function Login(y: Sys, id: nat, c: Caller, again: bool, arrives: bool, answered: bool): Sys {
    if !arrives then Put(y, id, c.(pc := Done(LostBefore)))
    else
      var open := y.(live := y.live + {y.next}, next := y.next + 1);
      Put(open, id, if answered then c.(pc := Keep(y.next, again), own := y.next) else c.(pc := Done(LostBefore)))
  }

  function Sending(y: Sys, id: nat, c: Caller, token: nat, again: bool, arrives: bool, answered: bool): Sys {
    var sent := c.(sends := c.sends + 1);
    if !arrives then Put(y, id, sent.(pc := Done(LostBefore)))
    else if token !in y.live then Put(y, id, sent.(pc := if again then Done(Refused) else Enter(true)))
    else Put(y, id, sent.(pc := Done(if answered then Served else LostAfter))).(executed := y.executed + multiset{id})
  }

  function StepOf(y: Sys, id: nat, arrives: bool, answered: bool): Sys
    requires id in y.callers
  {
    var c := y.callers[id];
    match c.pc
    case Look => Put(y, id, c.(pc := if y.auth == 0 then Enter(false) else Read(false)))
    case Enter(again) => Login(y, id, c, again, arrives, answered)
    case Keep(t, again) =>
      Put(y, id, c.(pc := Read(again), kept := |y.stores| + 1)).(auth := t, stores := y.stores + [t])
    case Read(again) => Put(y, id, c.(pc := Send(y.auth, again), seen := |y.stores|))
    case Send(t, again) => Sending(y, id, c, t, again, arrives, answered)
    case Done(_) => y
  }

  function Next(y: Sys, a: Action): Sys {
    match a
    case Arrive(id) => if id in y.callers then y else Put(y, id, Caller(Look, 0, 0, 0, 0))
    case Expire(kept) => y.(live := y.live * kept)
    case Step(id, arrives, answered) => if id in y.callers then StepOf(y, id, arrives, answered) else y
  }

  function Run(y: Sys, acts: seq<Action>): Sys
    decreases |acts|
  {
    if acts == [] then y else Run(Next(y, acts[0]), acts[1..])
  }

  // ---- what every step keeps ----

  predicate Again(pc: Pc) { (pc.Enter? || pc.Keep? || pc.Read? || pc.Send?) && pc.again }

  /** At most two sends, the second only after a rejection. */
  predicate SendsOk(c: Caller) {
    if c.pc.Done? then
      && c.sends <= 2
      && (c.pc.link == Refused ==> c.sends == 2)
      && (c.pc.link != LostBefore ==> c.sends >= 1)
    else c.sends == if Again(c.pc) then 1 else 0
  }

  predicate Ran(c: Caller) { c.pc == Done(Served) || c.pc == Done(LostAfter) }

  /** Whose token the call stored and read. */
  predicate TokensOk(stores: seq<nat>, live: set<nat>, next: nat, c: Caller) {
    && c.own < next
    && match c.pc
       case Keep(t, _) => t == c.own > 0 && t !in stores
       case Read(again) => again ==> 0 < c.kept <= |stores| && stores[c.kept - 1] == c.own
       case Send(t, again) =>
         again ==> 0 < c.kept <= c.seen <= |stores| && stores[c.kept - 1] == c.own && stores[c.seen - 1] == t
       case Done(link) =>
         link == Refused ==>
           0 < c.kept <= c.seen <= |stores| && stores[c.kept - 1] == c.own && stores[c.seen - 1] !in live
       case _ => true
  }

  predicate StoresOk(stores: seq<nat>, auth: nat, next: nat) {
    && (forall i :: 0 <= i < |stores| ==> 0 < stores[i] < next)
    && (forall i, j :: 0 <= i < j < |stores| ==> stores[i] != stores[j])
    && auth == if stores == [] then 0 else stores[|stores| - 1]
  }

  predicate CallerOk(y: Sys, id: nat, c: Caller) {
    SendsOk(c) && TokensOk(y.stores, y.live, y.next, c) && y.executed[id] == if Ran(c) then 1 else 0
  }

  /** No two calls hold the same token of their own. */
  predicate OwnDiffer(callers: map<nat, Caller>) {
    forall i, j :: i in callers && j in callers && i != j && callers[i].own > 0 ==> callers[i].own != callers[j].own
  }

  ghost predicate Inv(y: Sys) {
    && y.next > 0 && (forall t :: t in y.live ==> t < y.next)
    && StoresOk(y.stores, y.auth, y.next) && OwnDiffer(y.callers)
    && (forall id :: id in y.callers ==> CallerOk(y, id, y.callers[id]))
    && (forall id :: id !in y.callers ==> y.executed[id] == 0)
  }

  /** Tokens only grow, dead ones stay dead, and stores are only added. */
  predicate Onward(y: Sys, z: Sys) {
    && y.next <= z.next && y.stores <= z.stores
    && (forall t :: t in z.live && t < y.next ==> t in y.live)
  }

  lemma CallerStays(y: Sys, z: Sys, id: nat, c: Caller)
    requires CallerOk(y, id, c) && Onward(y, z) && z.executed[id] == y.executed[id]
    requires StoresOk(y.stores, y.auth, y.next) && (c.pc.Keep? ==> c.own !in z.stores)
    ensures CallerOk(z, id, c)
  {
  }

  /** A step of one call, when its own new record is in order. */
  lemma Moved(y: Sys, z: Sys, id: nat, c: Caller)
    requires Inv(y) && id in y.callers && z.callers == y.callers[id := c] && Onward(y, z) && z.next > 0
    requires StoresOk(z.stores, z.auth, z.next) && (forall t :: t in z.live ==> t < z.next)
    requires forall j :: j != id ==> z.executed[j] == y.executed[j]
    requires c.own == y.callers[id].own || c.own == y.next
    requires z.stores == y.stores || (y.callers[id].own > 0 && z.stores == y.stores + [y.callers[id].own])
    requires CallerOk(z, id, c)
    ensures Inv(z)
  {
    forall j | j in z.callers ensures CallerOk(z, j, z.callers[j]) {
      if j != id {
        assert CallerOk(y, j, y.callers[j]);
        CallerStays(y, z, j, y.callers[j]);
      }
    }
    OwnsDiffer(y, id, c);
  }

  lemma OwnsDiffer(y: Sys, id: nat, c: Caller)
    requires Inv(y) && id in y.callers && (c.own == y.callers[id].own || c.own == y.next)
    ensures OwnDiffer(y.callers[id := c])
  {
    forall j | j in y.callers ensures y.callers[j].own < y.next { assert CallerOk(y, j, y.callers[j]); }
  }

  lemma LoginKeeps(y: Sys, id: nat, again: bool, arrives: bool, answered: bool)
    requires Inv(y) && id in y.callers && y.callers[id].pc == Enter(again)
    ensures Inv(Login(y, id, y.callers[id], again, arrives, answered))
  {
    var z := Login(y, id, y.callers[id], again, arrives, answered);
    assert CallerOk(y, id, y.callers[id]);
    Moved(y, z, id, z.callers[id]);
  }

  lemma KeepKeeps(y: Sys, id: nat)
    requires Inv(y) && id in y.callers && y.callers[id].pc.Keep?
    ensures Inv(StepOf(y, id, true, true))
  {
    var z := StepOf(y, id, true, true);
    assert CallerOk(y, id, y.callers[id]);
    Moved(y, z, id, z.callers[id]);
  }

  lemma SendKeeps(y: Sys, id: nat, token: nat, again: bool, arrives: bool, answered: bool)
    requires Inv(y) && id in y.callers && y.callers[id].pc == Send(token, again)
    ensures Inv(Sending(y, id, y.callers[id], token, again, arrives, answered))
  {
    var z := Sending(y, id, y.callers[id], token, again, arrives, answered);
    assert CallerOk(y, id, y.callers[id]);
    Moved(y, z, id, z.callers[id]);
  }

  lemma StepKeeps(y: Sys, id: nat, arrives: bool, answered: bool)
    requires Inv(y) && id in y.callers
    ensures Inv(StepOf(y, id, arrives, answered))
  {
    match y.callers[id].pc
    case Enter(again) => LoginKeeps(y, id, again, arrives, answered);
    case Keep(_, _) => KeepKeeps(y, id);
    case Send(t, again) => SendKeeps(y, id, t, again, arrives, answered);
    case Done(_) =>
    case _ =>
      var z := StepOf(y, id, arrives, answered);
      assert CallerOk(y, id, y.callers[id]);
      Moved(y, z, id, z.callers[id]);
  }

  lemma ExpireKeeps(y: Sys, kept: set<nat>)
    requires Inv(y)
    ensures Inv(Next(y, Expire(kept)))
  {
    forall id | id in y.callers ensures CallerOk(Next(y, Expire(kept)), id, y.callers[id]) {
      assert CallerOk(y, id, y.callers[id]);
    }
  }

  lemma NextKeeps(y: Sys, a: Action)
    requires Inv(y)
    ensures Inv(Next(y, a))
  {
    match a
    case Arrive(id) =>
      forall j | j in y.callers ensures CallerOk(Next(y, a), j, y.callers[j]) { assert CallerOk(y, j, y.callers[j]); }
    case Expire(kept) => ExpireKeeps(y, kept);
    case Step(id, arrives, answered) => if id in y.callers { StepKeeps(y, id, arrives, answered); }
  }

  /**
   In every interleaving the array carries a call out at most once, and exactly once if and only if the call was
   answered or its answer was lost; no call sends more than twice; and a call is refused only after two sends, the
   second with a token that is dead and that was stored no earlier than the one the call had fetched for itself.
   */
  lemma {:induction false} AtMostOnce(acts: seq<Action>)
    ensures var y := Run(START, acts);
            forall id :: id in y.callers ==>
              var c := y.callers[id];
              && c.sends <= 2 && y.executed[id] <= 1
              && (y.executed[id] == 1 <==> c.pc == Done(Served) || c.pc == Done(LostAfter))
              && (c.pc == Done(Refused) ==> c.sends == 2 && RefusedBy(y, c))
  {
    RunKeeps(START, acts);
    var y := Run(START, acts);
    forall id | id in y.callers ensures CallerOk(y, id, y.callers[id]) {}
  }

  predicate RefusedBy(y: Sys, c: Caller) {
    0 < c.kept <= c.seen <= |y.stores| && y.stores[c.kept - 1] == c.own && y.stores[c.seen - 1] !in y.live
  }

  lemma {:induction false} RunKeeps(y: Sys, acts: seq<Action>)
    requires Inv(y)
    ensures Inv(Run(y, acts))
    decreases |acts|
  {
    if acts == [] {
    } else {
      NextKeeps(y, acts[0]);
      RunKeeps(Next(y, acts[0]), acts[1..]);
    }
  }

  /**
   The second send goes out under the session the call has just opened if and only if no other call stored a token
   between its own store and its read.
   */
  lemma OwnSessionExactly(acts: seq<Action>, id: nat)
    requires id in Run(START, acts).callers
    ensures var c := Run(START, acts).callers[id];
            c.pc.Send? && c.pc.again ==> (c.pc.token == c.own <==> c.seen == c.kept)
  {
    RunKeeps(START, acts);
    var y := Run(START, acts);
    assert CallerOk(y, id, y.callers[id]);
  }

  /** So a call that is refused while its own new session lives has met a token that another call stored. */
  lemma RefusedBeside(acts: seq<Action>, id: nat)
    requires id in Run(START, acts).callers
    ensures var y := Run(START, acts);
            var c := y.callers[id];
            c.pc == Done(Refused) && c.own in y.live ==> c.seen > c.kept
  {
    RunKeeps(START, acts);
    var y := Run(START, acts);
    assert CallerOk(y, id, y.callers[id]);
  }

  // ---- it happens ----

  ghost predicate Reachable(y: Sys) { exists acts :: Run(START, acts) == y }

  lemma {:induction false} RunOneMore(y: Sys, acts: seq<Action>, a: Action)
    ensures Run(y, acts + [a]) == Next(Run(y, acts), a)
    decreases |acts|
  {
    if acts == [] {
      assert [a][1..] == [];
    } else {
      assert (acts + [a])[1..] == acts[1..] + [a];
      RunOneMore(Next(y, acts[0]), acts[1..], a);
    }
  }

  lemma ReachNext(y: Sys, a: Action)
    requires Reachable(y)
    ensures Reachable(Next(y, a))
  {
    var acts :| Run(START, acts) == y;
    RunOneMore(START, acts, a);
  }

  /** A step in which every message gets through. */
  lemma Goes(y: Sys, id: nat)
    requires Reachable(y)
    ensures Reachable(Next(y, Step(id, true, true)))
  {
    ReachNext(y, Step(id, true, true));
  }

  function Go(y: Sys, id: nat): Sys { Next(y, Step(id, true, true)) }

  /** Both calls find no token, and call 1 opens session 1 without storing its token yet. */
  lemma BothEnter() returns (y: Sys)
    ensures Reachable(y)
    ensures y == Sys(0, {1}, 2, map[1 := Caller(Keep(1, false), 0, 1, 0, 0), 2 := Caller(Enter(false), 0, 0, 0, 0)],
                     [], multiset{})
  {
    assert Run(START, []) == START;
    y := START;
    ReachNext(y, Arrive(1));
    y := Next(y, Arrive(1));
    ReachNext(y, Arrive(2));
    y := Next(y, Arrive(2));
    Goes(y, 1);
    y := Go(y, 1);
    Goes(y, 2);
    y := Go(y, 2);
    Goes(y, 1);
    y := Go(y, 1);
  }

  /** Call 2 opens session 2 and stores its token. */
  lemma StoredSecond() returns (y: Sys)
    ensures Reachable(y)
    ensures y == Sys(2, {1, 2}, 3, map[1 := Caller(Keep(1, false), 0, 1, 0, 0), 2 := Caller(Read(false), 0, 2, 1, 0)],
                     [2], multiset{})
  {
    y := BothEnter();
    Goes(y, 2);
    y := Go(y, 2);
    Goes(y, 2);
    y := Go(y, 2);
  }

  /** Every session expires before call 2 sends. */
  lemma RejectedOnce() returns (y: Sys)
    ensures Reachable(y)
    ensures y == Sys(2, {}, 3, map[1 := Caller(Keep(1, false), 0, 1, 0, 0), 2 := Caller(Enter(true), 1, 2, 1, 1)],
                     [2], multiset{})
  {
    y := StoredSecond();
    Goes(y, 2);
    y := Go(y, 2);
    ReachNext(y, Expire({}));
    y := Next(y, Expire({}));
    Goes(y, 2);
    y := Go(y, 2);
  }

  /** Call 2 opens and stores session 3, and then call 1 stores its dead token over it. */
  lemma StoredOver() returns (y: Sys)
    ensures Reachable(y)
    ensures y == Sys(1, {3}, 4, map[1 := Caller(Read(false), 0, 1, 3, 0), 2 := Caller(Read(true), 1, 3, 2, 1)],
                     [2, 3, 1], multiset{})
  {
    y := RejectedOnce();
    Goes(y, 2);
    y := Go(y, 2);
    Goes(y, 2);
    y := Go(y, 2);
    Goes(y, 1);
    y := Go(y, 1);
  }

  /** A call is refused although the session it opened for its second send is alive: another stored a dead token. */
  lemma RefusedBesideHappens() returns (y: Sys, id: nat)
    ensures Reachable(y) && id in y.callers
    ensures y.callers[id].pc == Done(Refused) && y.callers[id].own in y.live
  {
    y := StoredOver();
    id := 2;
    Goes(y, 2);
    y := Go(y, 2);
    Goes(y, 2);
    y := Go(y, 2);
  }
}
