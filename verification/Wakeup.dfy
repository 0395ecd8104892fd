/**
 The cleaner's wakeup: the watcher pokes a channel of capacity one on every detach of this node and drops
 the poke when one is already pending; the main loop takes pokes and ticks in any order.
 */
module Wakeup {

  /** Where the main loop stands. `Settling` is the pause between taking a poke and starting its scan. */
  datatype Loop = Selecting | Settling | EventScan | PollScan

  /**
   `token` is the channel. The rest is bookkeeping: how many detaches there were, how many at the last
   time a poke was taken, how many when the last event scan started, how many event scans started, and the
   triggers the scans were started with.
   */
  datatype State = State(token: bool, loop: Loop, detaches: nat, taken: nat, covered: nat, eventScans: nat,
                         scans: seq<string>)

  const START := State(false, Selecting, 0, 0, 0, 0, [])

  datatype Step =
    | Event(kind: string, node: string) // one decoded watch event
    | Tick | TakePoke | StartEventScan | EndScan

  /** DELETED, for this node; an agent without a node name listens to every node. */
  predicate Pokes(nodeName: string, kind: string, node: string) {
    kind == "DELETED" && (nodeName == "" || node == nodeName)
  }

  /** One step; a step that is not possible changes nothing. */
  function Next(nodeName: string, y: State, s: Step): State {
    match s
    case Event(kind, node) =>
      if Pokes(nodeName, kind, node) then y.(token := true, detaches := y.detaches + 1) else y
    case Tick => if y.loop == Selecting then y.(loop := PollScan, scans := y.scans + ["poll"]) else y
    case TakePoke =>
      if y.loop == Selecting && y.token then y.(token := false, loop := Settling, taken := y.detaches) else y
    case StartEventScan =>
      if y.loop != Settling then y
      else y.(loop := EventScan, covered := y.detaches, eventScans := y.eventScans + 1,
              scans := y.scans + ["volumeattachment-delete"])
    case EndScan => if y.loop == EventScan || y.loop == PollScan then y.(loop := Selecting) else y
  }

  function Run(nodeName: string, y: State, ss: seq<Step>): State
    decreases |ss|
  {
    if ss == [] then y else Run(nodeName, Next(nodeName, y, ss[0]), ss[1..])
  }

  ghost predicate Inv(y: State) {
    && y.covered <= y.detaches && y.taken <= y.detaches
    && (y.token <==> y.taken < y.detaches)
    && (y.covered < y.taken ==> y.loop == Settling)
    && y.eventScans + (if y.loop == Settling then 1 else 0) <= y.taken
  }

  /**
   In every interleaving: a poke is pending exactly when a detach arrived after the last one was taken;
   a detach no event scan has started after is either pending or about to be scanned; and there are no
   more event scans than detaches.
   */
  lemma {:induction false} NoLostDetach(nodeName: string, y: State, ss: seq<Step>)
    requires Inv(y)
    ensures var z := Run(nodeName, y, ss);
            && Inv(z)
            && (z.covered < z.detaches ==> z.token || z.loop == Settling)
            && (z.loop == Selecting && !z.token ==> z.covered == z.detaches)
            && z.eventScans <= z.detaches
    decreases |ss|
  {
    if ss != [] {
      NoLostDetach(nodeName, Next(nodeName, y, ss[0]), ss[1..]);
    }
  }

  /** How many of the steps are detaches of this node. */
  function Detaches(nodeName: string, ss: seq<Step>): nat {
    if ss == [] then 0
    else
      var mine := ss[0].Event? && ss[0].kind == "DELETED" && (nodeName == "" || ss[0].node == nodeName);
      (if mine then 1 else 0) + Detaches(nodeName, ss[1..])
  }

  lemma {:induction false} DetachesCounted(nodeName: string, y: State, ss: seq<Step>)
    ensures Run(nodeName, y, ss).detaches == y.detaches + Detaches(nodeName, ss)
    decreases |ss|
  {
    if ss != [] { DetachesCounted(nodeName, Next(nodeName, y, ss[0]), ss[1..]); }
  }

  /**
   From the start: whenever the loop selects and nothing is pending, an event scan has started after every detach of
   this node so far, and there were at most as many event scans as detaches.
   */
  lemma FromStart(nodeName: string, ss: seq<Step>)
    ensures var z := Run(nodeName, START, ss);
            && (z.loop == Selecting && !z.token ==> z.covered == Detaches(nodeName, ss))
            && z.eventScans <= Detaches(nodeName, ss)
  {
    assert Inv(START);
    NoLostDetach(nodeName, START, ss);
    DetachesCounted(nodeName, START, ss);
  }

  /** The steps that can happen: any watch event, and for the main loop whatever `select` may choose. */
  predicate Possible(y: State, s: Step) {
    || s.Event?
    || match y.loop
       case Selecting => s == Tick || (s == TakePoke && y.token)
       case Settling => s == StartEventScan
       case _ => s == EndScan
  }

  predicate Follows(nodeName: string, y: State, ss: seq<Step>)
    decreases |ss|
  {
    ss != [] ==> Possible(y, ss[0]) && Follows(nodeName, Next(nodeName, y, ss[0]), ss[1..])
  }

  function Scans(scans: seq<string>, trigger: string): nat {
    if scans == [] then 0
    else
      var n := |scans| - 1;
      Scans(scans[..n], trigger) + if scans[n] == trigger then 1 else 0
  }

  lemma ScanAdded(scans: seq<string>, one: string, trigger: string)
    ensures Scans(scans + [one], trigger) == Scans(scans, trigger) + if one == trigger then 1 else 0
  {
    assert (scans + [one])[..|scans|] == scans;
  }

  /** The scans a state has counted: those for detaches, and all others for "poll". */
  ghost predicate Told(y: State) {
    && Scans(y.scans, "volumeattachment-delete") == y.eventScans
    && |y.scans| == Scans(y.scans, "poll") + y.eventScans
  }

  lemma StepTold(nodeName: string, y: State, s: Step)
    requires Told(y) && Possible(y, s)
    ensures Told(Next(nodeName, y, s))
    ensures Scans(Next(nodeName, y, s).scans, "poll") == Scans(y.scans, "poll") + if s == Tick then 1 else 0
  {
    var event := "volumeattachment-delete";
    assert |"poll"| != |event|;
    ScanAdded(y.scans, "poll", "poll");
    ScanAdded(y.scans, "poll", event);
    ScanAdded(y.scans, event, "poll");
    ScanAdded(y.scans, event, event);
  }

  /** Every tick the loop takes starts a scan for "poll"; the scans for "volumeattachment-delete" are those that cover
      detaches; and there are no others. */
  lemma {:induction false} ScansTold(nodeName: string, y: State, ss: seq<Step>)
    requires Follows(nodeName, y, ss) && Told(y)
    ensures Told(Run(nodeName, y, ss))
    ensures Scans(Run(nodeName, y, ss).scans, "poll") == Scans(y.scans, "poll") + Ticks(ss)
    decreases |ss|
  {
    if ss != [] {
      StepTold(nodeName, y, ss[0]);
      ScansTold(nodeName, Next(nodeName, y, ss[0]), ss[1..]);
    }
  }

  function LoopSteps(ss: seq<Step>): nat {
    if ss == [] then 0 else (if ss[0].Event? then 0 else 1) + LoopSteps(ss[1..])
  }

  function Ticks(ss: seq<Step>): nat { if ss == [] then 0 else (if ss[0] == Tick then 1 else 0) + Ticks(ss[1..]) }

  /** How many steps other than a tick and its scan the main loop is away from the scan that covers detach `d`. */
  function Distance(y: State, d: nat): nat {
    if d <= y.covered then 0
    else match y.loop
         case Settling => 1
         case Selecting => 2
         case _ => 3
  }

  lemma StepCloser(nodeName: string, y: State, s: Step, d: nat)
    requires Inv(y) && d <= y.detaches && Possible(y, s)
    ensures var z := Next(nodeName, y, s);
            && Inv(z) && d <= z.detaches
            && (d <= y.covered ==> d <= z.covered)
            && (d > y.covered && s.Event? ==> Distance(z, d) == Distance(y, d))
            && (d > y.covered && s == Tick ==> Distance(z, d) == Distance(y, d) + 1)
            && (d > y.covered && !s.Event? && s != Tick ==> Distance(z, d) == Distance(y, d) - 1)
  {
  }

  /**
   Whatever `select` chooses: every tick it takes puts off the scan of a detach by one poll scan and by nothing else,
   so the scan starts within three steps of the main loop and two more for each tick.
   */
  lemma {:induction false} ScannedInTime(nodeName: string, y: State, ss: seq<Step>, d: nat)
    requires Inv(y) && d <= y.detaches && Follows(nodeName, y, ss)
    ensures d <= y.covered || LoopSteps(ss) >= Distance(y, d) + 2 * Ticks(ss) ==> d <= Run(nodeName, y, ss).covered
    ensures Distance(y, d) <= 3
    decreases |ss|
  {
    if ss != [] {
      StepCloser(nodeName, y, ss[0], d);
      ScannedInTime(nodeName, Next(nodeName, y, ss[0]), ss[1..], d);
    }
  }
}
