/** cmd/pxstress: one pool's lifecycle, and the bookkeeping that decides whether a volume lost its data. */
module Stress {
  import opened Options
  import opened GoStrings
  import opened Arith

  // ---- the keys ----

  function Digit(n: nat): char requires n < 10 { '0' + n as char }
  function Dec(n: nat): string { if n < 10 then [Digit(n)] else Dec(n / 10) + [Digit(n % 10)] }

  function NsName(prefix: string, idx: nat): string { prefix + "-" + Dec(idx) }
  function Key(prefix: string, idx: nat, ord: nat): string {
    NsName(prefix, idx) + "-ord" + Dec(ord) + "-" + Dec(ord * 7 + idx * 100 + 1)
  }

  /** What `etcdGet` makes of a stored value: etcdctl prints it with a newline, the harness trims the output. */
  function ReadBack(stored: string): string { TrimSpace(stored + "\n") }

  lemma {:induction false} DecDigits(n: nat)
    ensures Dec(n) != "" && forall i :: 0 <= i < |Dec(n)| ==> IsDigit(Dec(n)[i])
  {
    if n >= 10 { DecDigits(n / 10); }
  }

  lemma {:induction false} DecInjective(m: nat, n: nat)
    requires Dec(m) == Dec(n)
    ensures m == n
  {
    DecDigits(m / 10);
    DecDigits(n / 10);
    var s, t := Dec(m), Dec(n);
    assert s[|s| - 1] == Digit(m % 10) && t[|t| - 1] == Digit(n % 10);
    if m >= 10 && n >= 10 {
      assert Dec(m / 10) == s[..|s| - 1] == t[..|t| - 1] == Dec(n / 10);
      DecInjective(m / 10, n / 10);
    }
  }

  /** A key without its namespace prefix, as the fields its dashes separate. */
  function KeyFields(idx: nat, ord: nat): seq<string> {
    [Dec(idx), "ord" + Dec(ord), Dec(ord * 7 + idx * 100 + 1)]
  }

  lemma KeyIsJoined(prefix: string, idx: nat, ord: nat)
    ensures Key(prefix, idx, ord) == prefix + "-" + Join(KeyFields(idx, ord), '-')
    ensures AllFree(KeyFields(idx, ord), '-')
  {
    var n := ord * 7 + idx * 100 + 1;
    DecDigits(idx);
    DecDigits(ord);
    DecDigits(n);
    JoinThree(prefix, Dec(idx), Dec(ord), Dec(n));
  }

  lemma JoinThree(p: string, a: string, b: string, n: string)
    ensures p + "-" + a + "-ord" + b + "-" + n == p + "-" + Join([a, "ord" + b, n], '-')
  {
    var f := [a, "ord" + b, n];
    assert f[1..][1..] == [n];
    assert Join(f[1..], '-') == f[1] + "-" + n;
    assert Join(f, '-') == a + "-" + Join(f[1..], '-');
    assert "-ord" == "-" + "ord";
  }

  /** No two instances of a run, in one pool or in two, share a key. */
  lemma KeyInjective(prefix: string, i: nat, ord: nat, j: nat, other: nat)
    requires Key(prefix, i, ord) == Key(prefix, j, other)
    ensures i == j && ord == other
  {
    KeyIsJoined(prefix, i, ord);
    KeyIsJoined(prefix, j, other);
    var head := prefix + "-";
    assert Join(KeyFields(i, ord), '-') == Key(prefix, i, ord)[|head|..];
    assert Join(KeyFields(j, other), '-') == Key(prefix, j, other)[|head|..];
    JoinInjective(KeyFields(i, ord), KeyFields(j, other), '-');
    assert Dec(i) == KeyFields(i, ord)[0] == KeyFields(j, other)[0] == Dec(j);
    assert Dec(ord) == KeyFields(i, ord)[1][3..] == KeyFields(j, other)[1][3..] == Dec(other);
    DecInjective(i, j);
    DecInjective(ord, other);
  }

  lemma {:induction false} TrimLeftKeepsEnd(s: string)
    requires s != "" && !IsSpace(s[|s| - 1])
    ensures TrimLeft(s) != "" && !IsSpace(TrimLeft(s)[0]) && !IsSpace(TrimLeft(s)[|TrimLeft(s)| - 1])
    ensures TrimLeft(s + "\n") == TrimLeft(s) + "\n"
  {
    assert (s + "\n")[1..] == s[1..] + "\n";
    if IsSpace(s[0]) { TrimLeftKeepsEnd(s[1..]); }
  }

  lemma ReadBackTrims(s: string)
    requires s != "" && !IsSpace(s[|s| - 1])
    ensures ReadBack(s) == TrimLeft(s) != "" && !IsSpace(ReadBack(s)[0])
  {
    TrimLeftKeepsEnd(s);
    var t := TrimLeft(s);
    assert (t + "\n")[..|t|] == t;
    assert TrimRight(t) == t;
  }

  predicate StartsBlank(prefix: string) { prefix != "" && IsSpace(prefix[0]) }

  lemma KeyEnds(prefix: string, idx: nat, ord: nat)
    ensures var k := Key(prefix, idx, ord);
      k != "" && !IsSpace(k[|k| - 1]) && (IsSpace(k[0]) <==> StartsBlank(prefix))
  {
    var n := ord * 7 + idx * 100 + 1;
    DecDigits(n);
    var k := Key(prefix, idx, ord);
    assert k[|k| - 1] == Dec(n)[|Dec(n)| - 1];
    assert k[0] == (prefix + "-")[0];
  }

  /** A volume that answers with the key of pool `j`, instance `other` passes as pool `i`, instance `ord` exactly
      when it is the same instance and the namespace prefix does not start with white space. */
  lemma ReadBackTells(prefix: string, i: nat, ord: nat, j: nat, other: nat)
    ensures ReadBack(Key(prefix, j, other)) == Key(prefix, i, ord) <==> (i == j && ord == other && !StartsBlank(prefix))
  {
    KeyEnds(prefix, i, ord);
    KeyEnds(prefix, j, other);
    ReadBackTrims(Key(prefix, j, other));
    if ReadBack(Key(prefix, j, other)) == Key(prefix, i, ord) && !StartsBlank(prefix) {
      KeyInjective(prefix, i, ord, j, other);
    }
  }

  // ---- what a run does to the cluster, and what the cluster answered ----

  datatype Event =
    | Applied(n: int) | Scaled(n: int) | Wiped | Killed(ord: int)
    | Ready(n: int)
    | Put(ord: int, value: string) | Got(ord: int, value: string)
    | Dropped(ord: int)
    | Failed
  {
    /** The steps that detach volumes. */
    predicate Move?() { Applied? || Scaled? || Wiped? || Killed? }
    /** The steps that end what is known about the volume of `i`. */
    predicate Forgets(i: int) { Wiped? || this == Dropped(i) }
    /** The steps that write or check the volume of `i`. */
    predicate Visits(i: int) { (Put? || Got?) && ord == i }
  }

  datatype Loss = Loss(ord: int, want: string, got: string)

  /** An observer of the log: what every volume should hold, which running instances have not been visited since
      the last step that detached volumes, and the first wrong answer. */
  datatype Monitor = Monitor(size: int, store: map<int, string>, pending: set<int>, waiting: bool, lost: Option<Loss>,
                             halted: bool)

  function Range(lo: int, hi: int): (r: set<int>)
    ensures forall i :: i in r <==> lo <= i < hi
    decreases hi - lo
  {
    if hi <= lo then {} else Range(lo, hi - 1) + {hi - 1}
  }

  const START := Monitor(0, map[], {}, false, None, false)

  /** The steps the observer admits. A volume may be written only while nothing is known about it, read only while
      something is, and detached only when every running instance has been visited. */
  function Observe(prefix: string, idx: nat, m: Monitor, e: Event): Option<Monitor> {
    if m.halted || m.lost.Some? then None
    else match e
      case Applied(n) =>
        if m.waiting || m.pending != {} || m.store != map[] then None
        else Some(m.(size := n, pending := Range(0, n), waiting := true))
      case Scaled(n) =>
        if m.waiting || m.pending != {} then None else Some(m.(size := n, pending := Range(0, n), waiting := true))
      case Wiped =>
        if m.waiting || m.pending != {} then None else Some(m.(size := 0, store := map[]))
      case Killed(ord) =>
        if m.waiting || m.pending != {} || ord !in m.store then None else Some(m.(pending := {ord}, waiting := true))
      case Ready(n) =>
        if !m.waiting then None else Some(m.(waiting := n != m.size))
      case Put(ord, value) =>
        if m.waiting || ord < 0 || ord !in m.pending || ord in m.store || value != Key(prefix, idx, ord) then None
        else Some(m.(store := m.store[ord := value], pending := m.pending - {ord}))
      case Got(ord, value) =>
        if m.waiting || ord !in m.pending || ord !in m.store then None
        else Some(m.(pending := m.pending - {ord},
                     lost := if value == m.store[ord] then None else Some(Loss(ord, m.store[ord], value))))
      case Dropped(ord) =>
        if m.waiting || ord < m.size then None else Some(m.(store := m.store - {ord}))
      case Failed => Some(m.(halted := true))
  }

  function Replay(prefix: string, idx: nat, log: seq<Event>): Option<Monitor> {
    if log == [] then Some(START)
    else
      var before := Replay(prefix, idx, log[..|log| - 1]);
      if before.None? then None else Observe(prefix, idx, before.value, log[|log| - 1])
  }

  function Moves(log: seq<Event>): seq<Event> {
    if log == [] then []
    else Moves(log[..|log| - 1]) + (if log[|log| - 1].Move?() then [log[|log| - 1]] else [])
  }

  datatype Opts = Opts(min: int, mid: int, max: int, recreateEach: int, stopOnError: bool)

  function PatternMoves(o: Opts): seq<Event> { [Scaled(o.mid), Scaled(o.max), Scaled(o.mid)] }

  function RenewMoves(o: Opts, cycle: nat): seq<Event> {
    [Killed(0)] + if o.recreateEach > 0 && cycle % o.recreateEach == 0 then [Wiped, Applied(o.min)] else []
  }

  function CycleMoves(o: Opts, cycle: nat): seq<Event> { PatternMoves(o) + RenewMoves(o, cycle) }

  /** The detaching steps of a run of so many whole cycles. */
  function Schedule(o: Opts, cycles: nat): seq<Event> {
    if cycles == 0 then [Applied(o.min)] else Schedule(o, cycles - 1) + CycleMoves(o, cycles)
  }

  lemma OneLess(all: map<int, string>, lo: int, hi: int)
    requires lo <= hi
    ensures all - Range(lo, hi) - {hi} == all - Range(lo, hi + 1)
  {
  }

  lemma NoneLeft(lo: int, i: int, max: int)
    requires i > max && (i == max + 1 || i == lo)
    ensures Range(lo, i) == Range(lo, max + 1)
  {
  }

  lemma NoneLess(all: map<int, string>, lo: int)
    ensures all - Range(lo, lo) == all
  {
  }

  lemma OneVisit(known: set<int>, ord: nat, n: int)
    requires ord < n
    ensures ord in Range(ord, n) && Range(ord, n) - {ord} == Range(ord + 1, n)
    ensures known + Range(0, ord) + {ord} == known + Range(0, ord + 1)
    ensures ord in known + Range(0, ord) <==> ord in known
  {
  }

  lemma NoVisit(ord: nat, n: int)
    requires ord >= n && (ord <= n || ord == 0)
    ensures Range(ord, n) == {} && Range(0, ord) == Range(0, n)
  {
  }

  // ---- what a log the observer admits is worth ----

  /** What the volume of `ord` should hold: the last value written since it was last discarded. */
  function LastPut(log: seq<Event>, ord: int): Option<string> {
    if log == [] then None
    else
      var e := log[|log| - 1];
      if e.Put? && e.ord == ord then Some(e.value)
      else if e.Forgets(ord) then None
      else LastPut(log[..|log| - 1], ord)
  }

  lemma {:induction false} ReplayPrefix(prefix: string, idx: nat, log: seq<Event>, k: nat)
    requires Replay(prefix, idx, log).Some? && k <= |log|
    ensures Replay(prefix, idx, log[..k]).Some?
    ensures k < |log| ==>
              var next := Replay(prefix, idx, log[..k + 1]);
              next.Some? && next == Observe(prefix, idx, Replay(prefix, idx, log[..k]).value, log[k])
  {
    if k == |log| {
      assert log[..k] == log;
    } else if k == |log| - 1 {
      assert log[..k + 1] == log;
    } else {
      ReplayPrefix(prefix, idx, log[..|log| - 1], k);
      assert log[..|log| - 1][..k] == log[..k];
      assert log[..|log| - 1][..k + 1] == log[..k + 1];
    }
  }

  /** The observer's store, and so the harness's `expected`, is what the history says. */
  lemma {:induction false} StoreIsHistory(prefix: string, idx: nat, log: seq<Event>, ord: int)
    requires Replay(prefix, idx, log).Some?
    ensures var m := Replay(prefix, idx, log).value;
      LastPut(log, ord) == (if ord in m.store then Some(m.store[ord]) else None)
    ensures LastPut(log, ord).Some? ==> ord >= 0 && LastPut(log, ord).value == Key(prefix, idx, ord)
  {
    if log != [] { StoreIsHistory(prefix, idx, log[..|log| - 1], ord); }
  }

  lemma {:induction false} OnlyTheEndIsLost(prefix: string, idx: nat, log: seq<Event>, k: nat)
    requires Replay(prefix, idx, log).Some? && k < |log|
    ensures Replay(prefix, idx, log[..k]).Some? && Replay(prefix, idx, log[..k]).value.lost.None?
  {
    ReplayPrefix(prefix, idx, log, k);
  }

  /** The oracle: a wrong answer is always the last thing that happens, and is what the observer reports; a loss is
      never reported otherwise; and no volume is written while its content is still known. */
  lemma OracleExact(prefix: string, idx: nat, log: seq<Event>, k: nat)
    requires Replay(prefix, idx, log).Some? && k < |log|
    ensures var lost := Replay(prefix, idx, log).value.lost;
      match log[k]
      case Got(ord, v) =>
        var want := LastPut(log[..k], ord);
        want.Some? && (if want == Some(v) then k == |log| - 1 ==> lost.None?
                       else k == |log| - 1 && lost == Some(Loss(ord, want.value, v)))
      case Put(ord, v) => LastPut(log[..k], ord).None?
      case _ => k == |log| - 1 ==> lost.None?
  {
    ReplayPrefix(prefix, idx, log, k);
    assert log[..|log|] == log;
    if k + 1 < |log| { OnlyTheEndIsLost(prefix, idx, log, k + 1); }
    if log[k].Got? || log[k].Put? { StoreIsHistory(prefix, idx, log[..k], log[k].ord); }
  }

  /** Between a scaling step and the next step that detaches volumes, every running instance is visited. */
  lemma {:induction false} EveryInstanceVisited(prefix: string, idx: nat, log: seq<Event>, i: nat, k: nat, ord: int)
    requires Replay(prefix, idx, log).Some? && i < k < |log|
    requires (log[i].Applied? || log[i].Scaled?) && 0 <= ord < log[i].n
    requires log[k].Move?()
    ensures exists j :: i < j < k && log[j].Visits(ord)
  {
    ReplayPrefix(prefix, idx, log, k);
    if forall j :: i < j < k ==> !log[j].Visits(ord) { StillPending(prefix, idx, log, i, k, ord); }
  }

  lemma {:induction false} StillPending(prefix: string, idx: nat, log: seq<Event>, i: nat, k: nat, ord: int)
    requires Replay(prefix, idx, log).Some? && i < k <= |log|
    requires (log[i].Applied? || log[i].Scaled?) && 0 <= ord < log[i].n
    requires forall j :: i < j < k ==> !log[j].Visits(ord)
    ensures Replay(prefix, idx, log[..k]).Some? && ord in Replay(prefix, idx, log[..k]).value.pending
  {
    ReplayPrefix(prefix, idx, log, k - 1);
    if i < k - 1 { StillPending(prefix, idx, log, i, k - 1, ord); }
  }

  /** The cluster kept every volume: a read answers what was last written, as etcdctl prints it. */
  predicate Survives(log: seq<Event>) {
    forall k :: 0 <= k < |log| && log[k].Got? ==> SurvivesAt(log, k)
  }
  predicate SurvivesAt(log: seq<Event>, k: nat) requires k < |log| && log[k].Got? {
    LastPut(log[..k], log[k].ord).Some? ==> log[k].value == ReadBack(LastPut(log[..k], log[k].ord).value)
  }
  predicate Reads(log: seq<Event>) { exists k :: 0 <= k < |log| && log[k].Got? }

  /** Over every run in which the volumes survive, whatever the sizes, a loss is reported exactly when something
      was read at all and the namespace prefix starts with white space. */
  lemma NoFalseAlarmExactly(prefix: string, idx: nat, log: seq<Event>)
    requires Replay(prefix, idx, log).Some? && Survives(log)
    ensures Replay(prefix, idx, log).value.lost.Some? <==> (StartsBlank(prefix) && Reads(log))
  {
    forall k | 0 <= k < |log| && log[k].Got?
      ensures StartsBlank(prefix) ==> Replay(prefix, idx, log).value.lost.Some?
      ensures !StartsBlank(prefix) ==> LastPut(log[..k], log[k].ord) == Some(log[k].value)
    {
      assert SurvivesAt(log, k);
      OracleExact(prefix, idx, log, k);
      ReplayPrefix(prefix, idx, log, k);
      StoreIsHistory(prefix, idx, log[..k], log[k].ord);
      ReadBackTells(prefix, idx, log[k].ord, idx, log[k].ord);
    }
    if log != [] { OracleExact(prefix, idx, log, |log| - 1); }
  }

  /** Any other instance's volume under this instance is a loss: every exchange of volumes inside a pool or between
      pools is caught by the first read that meets it. */
  lemma ExchangeCaught(prefix: string, idx: nat, log: seq<Event>, k: nat, j: nat, other: nat)
    requires Replay(prefix, idx, log).Some? && k < |log| && log[k].Got?
    requires log[k].value == ReadBack(Key(prefix, j, other)) && !(j == idx && other == log[k].ord)
    ensures k == |log| - 1
    ensures var lost := Replay(prefix, idx, log).value.lost;
      lost.Some? && lost.value.ord == log[k].ord && lost.value.got == log[k].value
  {
    OracleExact(prefix, idx, log, k);
    ReplayPrefix(prefix, idx, log, k);
    StoreIsHistory(prefix, idx, log[..k], log[k].ord);
    ReadBackTells(prefix, idx, log[k].ord, j, other);
  }

  // ---- everything the harness does, and what the world answers ----

  /** A command carried out, one that failed, a look at the context, a failed status command, a look at the clock. */
  datatype Note = Cmd(e: Event) | Refused(e: Event) | Look(ended: bool) | Unready | Clock(late: bool)

  /** What the log of answers keeps of a note. A failing status command is tried again, so it leaves no trace there. */
  function LogOf(trail: seq<Note>): seq<Event> {
    if trail == [] then []
    else
      var n := |trail| - 1;
      LogOf(trail[..n]) + Logged(trail[n])
  }

  /** One answer of the world: whether a command fails, what it prints, and how much time has gone. */
  datatype Reply = Reply(fails: bool, ready: int, printed: string, late: bool, elapsed: nat)

  /** Nothing of it is the harness's to choose. `left` is the time the run has. */
  datatype World = World(replies: nat -> Reply, left: nat)

  /** What is left of the run's time: each look at the context finds some of it gone. */
  function TimeLeft(w: World, trail: seq<Note>): nat {
    if trail == [] then w.left
    else
      var n := |trail| - 1;
      var before := TimeLeft(w, trail[..n]);
      if !trail[n].Look? then before else Later(before, w.replies(n).elapsed)
  }

  function Later(left: nat, elapsed: nat): nat { if left <= elapsed then 0 else left - elapsed - 1 }

  /** The note is the world's answer. */
  predicate Answers(w: World, trail: seq<Note>, note: Note) {
    var r := w.replies(|trail|);
    match note
    case Cmd(Ready(n)) => !r.fails && n == r.ready
    case Cmd(Got(_, value)) => !r.fails && value == TrimSpace(r.printed)
    case Cmd(_) => !r.fails
    case Refused(_) => r.fails
    case Unready => r.fails
    case Look(ended) => ended <==> Later(TimeLeft(w, trail), r.elapsed) == 0
    case Clock(late) => late == r.late
  }

  predicate Faithful(w: World, trail: seq<Note>) {
    trail != [] ==> var n := |trail| - 1; Faithful(w, trail[..n]) && Answers(w, trail[..n], trail[n])
  }

  // ---- what a run is to do ----

  /**
   One thing to do: look whether the run goes on, give a command, read a key back, wait until so many are ready, or
   begin the next cycle.
   */
  datatype Item =
    | Check
    | Do(e: Event)
    | Read(ord: int)
    | Await(n: int)
    | Ask(n: int)
    | Time(n: int)
    | Head(cycle: nat, current: int, known: set<int>)

  datatype Todo = Nil | Then(first: Item, rest: Todo)

  /** How far a run is: on its way, stopped by an error with one look to come, over, or off the way. */
  datatype Progress = Going(todo: Todo) | Stopping | Over | Astray

  /** A run's options, and the names of its keys. */
  datatype Job = Job(o: Opts, prefix: string, idx: nat) {
    /** A fresh instance is written, a known one read back. */
    function Visits(known: set<int>, ord: nat, n: int, rest: Todo): Todo
      decreases n - ord
    {
      if ord >= n then rest
      else Then(Meet(known, ord), Visits(known, ord + 1, n, rest))
    }

    function Meet(known: set<int>, ord: nat): Item {
      if ord in known then Read(ord) else Do(Put(ord, Key(prefix, idx, ord)))
    }

    function Drops(ord: int, rest: Todo): Todo
      decreases o.max + 1 - ord
    {
      if ord > o.max then rest else Then(Do(Dropped(ord)), Drops(ord + 1, rest))
    }

    function Deploy(rest: Todo): Todo {
      Then(Do(Applied(o.min)), Then(Await(o.min), Visits({}, 0, o.min, rest)))
    }

    /** What is known of the volumes once those behind a smaller size are discarded. */
    function Kept(current: int, known: set<int>, target: int): set<int> {
      if target < current then known - Range(target, o.max + 1) else known
    }

    /** What is known behind a stop, with every instance visited. */
    function After(current: int, known: set<int>, target: int): set<int> {
      Kept(current, known, target) + Range(0, target)
    }

    function Resize(current: int, target: int, rest: Todo): Todo {
      Then(Do(Scaled(target)), Then(Await(target), if target < current then Drops(target, rest) else rest))
    }

    /** One stop: scale, discard what is no longer used, and visit every instance. */
    function Stop(current: int, known: set<int>, target: int, rest: Todo): Todo {
      Then(Check, Resize(current, target, Visits(Kept(current, known, target), 0, target, rest)))
    }

    function Probe(current: int, known: set<int>, rest: Todo): Todo {
      if 0 in known then Then(Do(Killed(0)), Then(Await(current), Then(Read(0), rest))) else rest
    }

    predicate Due(cycle: nat) { o.recreateEach > 0 && cycle % o.recreateEach == 0 }

    /** What comes at the end of a cycle. */
    function Again(cycle: nat, current: int, known: set<int>): Todo {
      if Due(cycle) then Then(Do(Wiped), Deploy(Then(Head(cycle + 1, o.min, Range(0, o.min)), Nil)))
      else Then(Head(cycle + 1, current, known), Nil)
    }

    /** The stops that are left of a cycle, the probe, and now and then a new deployment. */
    function Stops(targets: seq<int>, cycle: nat, current: int, known: set<int>): Todo {
      if targets == [] then Probe(current, known, Again(cycle, current, known))
      else Stop(current, known, targets[0], Stops(targets[1..], cycle, targets[0], After(current, known, targets[0])))
    }

    /** One cycle goes from mid to max and back. */
    function Cycle(cycle: nat, current: int, known: set<int>): Todo {
      Stops([o.mid, o.max, o.mid], cycle, current, known)
    }

    function Start(): Todo { Deploy(Then(Head(1, o.min, Range(0, o.min)), Nil)) }

    /** One note: the next thing is done, or the run stops. */
    function Eat(p: Progress, note: Note): Progress {
      match p
      case Going(Then(Check, rest)) =>
        if note == Look(false) then Going(rest) else if note == Look(true) then Over else Astray
      case Going(Then(Do(e), rest)) =>
        if note == Cmd(e) then Going(rest) else if note == Refused(e) then Stopping else Astray
      case Going(Then(Read(ord), rest)) =>
        if note == Cmd(Got(ord, Key(prefix, idx, if ord >= 0 then ord else 0))) then Going(rest)
        else if note == Refused(Got(ord, "")) || (note.Cmd? && note.e.Got? && note.e.ord == ord) then Stopping
        else Astray
      case Going(Then(Await(n), rest)) =>
        if note == Look(false) then Going(Then(Ask(n), rest)) else if note == Look(true) then Stopping else Astray
      case Going(Then(Ask(n), rest)) =>
        if note == Cmd(Ready(n)) then Going(rest)
        else if note == Unready || (note.Cmd? && note.e.Ready?) then Going(Then(Time(n), rest)) else Astray
      case Going(Then(Time(n), rest)) =>
        if note == Clock(true) then Stopping
        else if note == Clock(false) then Going(Then(Await(n), rest)) else Astray
      case Going(Then(Head(cycle, current, known), _)) =>
        if note == Look(false) then Going(Cycle(cycle, current, known)) else if note == Look(true) then Over else Astray
      case Stopping => if note.Look? then Over else Astray
      case _ => Astray
    }

    function Follow(trail: seq<Note>): Progress {
      if trail == [] then Going(Start()) else Eat(Follow(trail[..|trail| - 1]), trail[|trail| - 1])
    }
  }

  /** All of this at once: the log, the time left, whether every note is true, how far the run is, what was moved. */
  datatype Story = Story(log: seq<Event>, left: nat, honest: bool, stage: Progress, seen: Option<Monitor>,
                         moves: seq<Event>)

  function Logged(note: Note): seq<Event> {
    match note
    case Cmd(e) => [e]
    case Refused(_) => [Failed]
    case _ => []
  }

  function SeenAfter(job: Job, seen: Option<Monitor>, note: Note): Option<Monitor> {
    match note
    case Cmd(e) => if seen.None? then None else Observe(job.prefix, job.idx, seen.value, e)
    case Refused(_) => if seen.None? then None else Observe(job.prefix, job.idx, seen.value, Failed)
    case _ => seen
  }

  function OneMore(job: Job, y: Story, elapsed: nat, fits: bool, note: Note): Story {
    Story(y.log + Logged(note), if note.Look? then Later(y.left, elapsed) else y.left, y.honest && fits,
          job.Eat(y.stage, note), SeenAfter(job, y.seen, note),
          y.moves + if note.Cmd? && note.e.Move?() then [note.e] else [])
  }

  ghost function StoryOf(w: World, job: Job, trail: seq<Note>): Story {
    if trail == [] then Story([], w.left, true, Going(job.Start()), Some(START), [])
    else
      var n := |trail| - 1;
      OneMore(job, StoryOf(w, job, trail[..n]), w.replies(n).elapsed, Answers(w, trail[..n], trail[n]), trail[n])
  }

  /** The story is what its parts say on their own. */
  ghost predicate TrueTo(w: World, job: Job, trail: seq<Note>, y: Story) {
    && y.log == LogOf(trail) && y.left == TimeLeft(w, trail) && y.honest == Faithful(w, trail)
    && y.stage == job.Follow(trail) && y.seen == Replay(job.prefix, job.idx, y.log) && y.moves == Moves(y.log)
  }

  lemma {:induction false} StoryIs(w: World, job: Job, trail: seq<Note>)
    ensures TrueTo(w, job, trail, StoryOf(w, job, trail))
  {
    if trail != [] {
      var n := |trail| - 1;
      StoryIs(w, job, trail[..n]);
      LogGrows(job, StoryOf(w, job, trail[..n]).log, trail[n]);
    }
  }

  lemma LogGrows(job: Job, log: seq<Event>, note: Note)
    ensures Replay(job.prefix, job.idx, log + Logged(note)) == SeenAfter(job, Replay(job.prefix, job.idx, log), note)
    ensures Moves(log + Logged(note)) == Moves(log) + if note.Cmd? && note.e.Move?() then [note.e] else []
  {
    if Logged(note) == [] {
      assert log + [] == log;
    } else {
      assert (log + Logged(note))[..|log|] == log;
    }
  }

  // ---- the harness ----

  datatype Error = Ended | CommandFailed | Timeout | DataLoss(loss: Loss)

  /** The last note tells what went wrong. */
  predicate Tells(note: Note, err: Error) {
    match err
    case Ended => note == Look(true)
    case CommandFailed => note.Refused?
    case Timeout => note == Clock(true)
    case DataLoss(loss) => note == Cmd(Got(loss.ord, loss.got))
  }

  /** One pool's namespace, through `oc`, and the clock. */
  class Cluster {
    const job: Job
    const prefix: string
    const idx: nat
    const world: World
    var notes: nat
    ghost var trail: seq<Note>
    ghost var story: Story

    constructor (job: Job, world: World)
      ensures Valid() && this.job == job && this.world == world && trail == []
    {
      this.job, prefix, idx, this.world := job, job.prefix, job.idx, world;
      notes, trail, story := 0, [], StoryOf(world, job, []);
    }

    ghost predicate Valid() reads this {
      && notes == |trail| && story == StoryOf(world, job, trail) && story.honest
      && prefix == job.prefix && idx == job.idx
    }

    ghost function Now(): Option<Monitor> reads this { story.seen }

    /** How far the run is. */
    ghost function Stage(): Progress reads this { story.stage }

    ghost function Moved(): seq<Event> reads this { story.moves }

    /** Whatever was done and answered is noted. */
    method Add(ghost note: Note)
      requires Valid() && Answers(world, trail, note)
      modifies this
      ensures Valid() && trail == old(trail) + [note]
      ensures story == OneMore(job, old(story), world.replies(old(notes)).elapsed, true, note)
    {
      assert (trail + [note])[..|trail|] == trail;
      story := OneMore(job, story, world.replies(notes).elapsed, true, note);
      notes, trail := notes + 1, trail + [note];
    }

    method Run(e: Event) returns (failed: bool)
      requires Valid() && !e.Ready? && !e.Got?
      modifies this
      ensures Valid() && trail == old(trail) + [if failed then Refused(e) else Cmd(e)]
      ensures old(Now()).Some? ==> Now() == Observe(prefix, idx, old(Now()).value, if failed then Failed else e)
      ensures Moved() == old(Moved()) + (if !failed && e.Move?() then [e] else [])
      ensures Stage() == job.Eat(old(Stage()), if failed then Refused(e) else Cmd(e))
      ensures story.left == old(story.left)
    {
      failed := world.replies(notes).fails;
      Add(if failed then Refused(e) else Cmd(e));
    }

    method Get(ord: int) returns (failed: bool, got: string)
      requires Valid()
      modifies this
      ensures Valid() && trail == old(trail) + [if failed then Refused(Got(ord, "")) else Cmd(Got(ord, got))]
      ensures var e := if failed then Failed else Got(ord, got);
        old(Now()).Some? ==> Now() == Observe(prefix, idx, old(Now()).value, e)
      ensures Moved() == old(Moved()) && story.left == old(story.left)
      ensures Stage() == job.Eat(old(Stage()), if failed then Refused(Got(ord, "")) else Cmd(Got(ord, got)))
    {
      var r := world.replies(notes);
      failed, got := r.fails, TrimSpace(r.printed);
      Add(if failed then Refused(Got(ord, "")) else Cmd(Got(ord, got)));
    }

    method ReadyReplicas() returns (failed: bool, n: int)
      requires Valid()
      modifies this
      ensures Valid() && trail == old(trail) + [if failed then Unready else Cmd(Ready(n))]
      ensures old(Now()).Some? ==>
                Now() == if failed then old(Now()) else Observe(prefix, idx, old(Now()).value, Ready(n))
      ensures Moved() == old(Moved()) && story.left == old(story.left)
      ensures Stage() == job.Eat(old(Stage()), if failed then Unready else Cmd(Ready(n)))
    {
      var r := world.replies(notes);
      failed, n := r.fails, r.ready;
      Add(if failed then Unready else Cmd(Ready(n)));
    }

    /** Whether the deadline for getting ready has passed. */
    method Late() returns (late: bool)
      requires Valid()
      modifies this
      ensures Valid() && trail == old(trail) + [Clock(late)]
      ensures Now() == old(Now()) && Moved() == old(Moved()) && story.left == old(story.left)
      ensures Stage() == job.Eat(old(Stage()), Clock(late))
    {
      late := world.replies(notes).late;
      Add(Clock(late));
    }
  }

  /** The run's context. Looking at it takes time; `left` is what remains, and `saw` what the last look found. */
  class Context {
    const cluster: Cluster
    var left: nat
    ghost var saw: bool

    constructor (cluster: Cluster)
      requires cluster.Valid() && cluster.trail == []
      ensures Valid() && this.cluster == cluster
    {
      this.cluster, left, saw := cluster, cluster.world.left, false;
    }

    /** What remains is what the looks so far have left. */
    ghost predicate Valid() reads this, cluster { cluster.Valid() && left == cluster.story.left }

    method Err() returns (ended: bool)
      requires Valid()
      modifies this, cluster
      ensures Valid() && cluster.trail == old(cluster.trail) + [Look(ended)]
      ensures cluster.Now() == old(cluster.Now()) && cluster.Moved() == old(cluster.Moved())
      ensures cluster.Stage() == cluster.job.Eat(old(cluster.Stage()), Look(ended))
      ensures (ended <==> left == 0) && saw == ended
      ensures left < old(left) || left == old(left) == 0
    {
      StoryIs(cluster.world, cluster.job, cluster.trail);
      left := Later(left, cluster.world.replies(cluster.notes).elapsed);
      ended := left == 0;
      saw := ended;
      cluster.Add(Look(ended));
    }

    method Cancel()
      modifies `left
      ensures left == 0
    {
      left := 0;
    }
  }

  /** Every instance is expected to hold its own key. */
  predicate OwnKeys(prefix: string, idx: nat, expected: map<int, string>) {
    forall ord :: ord in expected ==> OwnKey(prefix, idx, ord, expected[ord])
  }

  predicate OwnKey(prefix: string, idx: nat, ord: int, value: string) { ord >= 0 && value == Key(prefix, idx, ord) }

  class Pool {
    const o: Opts
    const cluster: Cluster
    const ctx: Context
    var current: int
    var expected: map<int, string>

    constructor (o: Opts, cluster: Cluster, ctx: Context)
      ensures this.o == o && this.cluster == cluster && this.ctx == ctx && expected == map[] && current == 0
    {
      this.o, this.cluster, this.ctx, expected, current := o, cluster, ctx, map[], 0;
    }

    ghost predicate Valid() reads this, ctx, ctx.cluster {
      && ctx.cluster == cluster && ctx.Valid() && cluster.job.o == o
      && OwnKeys(cluster.prefix, cluster.idx, expected)
    }

    /** The run is on its way, and this is what there is to do. */
    ghost predicate At(todo: Todo) reads this, cluster { cluster.Stage() == Going(todo) }

    /** A piece of the run is done and the rest is to do; or the run has stopped, and the last note tells why. */
    ghost predicate Done(err: Option<Error>, rest: Todo) reads this, cluster {
      if err.None? then At(rest)
      else cluster.Stage() == Stopping && |cluster.trail| > 0 && Tells(cluster.trail[|cluster.trail| - 1], err.value)
    }

    /** The bookkeeping agrees with the observer, who still has `pending` to see. */
    ghost predicate Tracks(size: int, pending: set<int>)
      reads this, cluster
    {
      cluster.Now() == Some(Monitor(size, expected, pending, false, None, false))
    }

    /** Nothing the observer forbids has happened, and a data loss is reported exactly when he has seen it. */
    ghost predicate Truthful(err: Option<Error>)
      reads cluster
    {
      && cluster.Now().Some?
      && forall l :: cluster.Now().value.lost == Some(l) <==> err == Some(DataLoss(l))
    }

    method WaitReady(replicas: int, ghost rest: Todo) returns (err: Option<Error>)
      requires cluster.Now().Some? && cluster.Now().value.waiting && cluster.Now().value.size == replicas
      requires cluster.Now().value.lost.None? && !cluster.Now().value.halted
      requires Valid() && At(Then(Await(replicas), rest))
      modifies cluster, ctx
      ensures Valid() && Done(err, rest)
      ensures Truthful(err)
      ensures err.None? ==> cluster.Now() == Some(old(cluster.Now()).value.(waiting := false))
      ensures cluster.Moved() == old(cluster.Moved())
      ensures ctx.left <= old(ctx.left)
    {
      while true
        invariant cluster.Now() == old(cluster.Now())
        invariant Valid() && At(Then(Await(replicas), rest))
        invariant cluster.Moved() == old(cluster.Moved())
        invariant ctx.left <= old(ctx.left)
        decreases ctx.left
      {
        var ended := ctx.Err();
        if ended { return Some(Ended); }
        assert At(Then(Ask(replicas), rest));
        var failed, ready := cluster.ReadyReplicas();
        if !failed && ready == replicas { return None; }
        assert At(Then(Time(replicas), rest));
        var late := cluster.Late();
        if late { return Some(Timeout); }
      }
    }

    method Ensure(replicas: int, ghost size: int, ghost rest: Todo) returns (err: Option<Error>)
      requires Tracks(size, {}) && expected == map[]
      requires Valid() && At(Then(Do(Applied(replicas)), Then(Await(replicas), rest)))
      modifies cluster, ctx, this`current
      ensures Valid() && Done(err, rest)
      ensures Truthful(err)
      ensures err.None? ==> Tracks(replicas, Range(0, replicas)) && current == replicas
      ensures cluster.Moved() <= old(cluster.Moved()) + [Applied(replicas)]
      ensures err.None? ==> cluster.Moved() == old(cluster.Moved()) + [Applied(replicas)]
      ensures ctx.left <= old(ctx.left)
    {
      var failed := cluster.Run(Applied(replicas));
      if failed { return Some(CommandFailed); }
      current := replicas;
      err := WaitReady(replicas, rest);
    }

    method Scale(replicas: int, ghost rest: Todo) returns (err: Option<Error>)
      requires Tracks(current, {})
      requires Valid() && At(Then(Do(Scaled(replicas)), Then(Await(replicas), rest)))
      modifies cluster, ctx
      ensures Valid() && Done(err, rest)
      ensures Truthful(err)
      ensures err.None? ==> Tracks(replicas, Range(0, replicas))
      ensures cluster.Moved() <= old(cluster.Moved()) + [Scaled(replicas)]
      ensures err.None? ==> cluster.Moved() == old(cluster.Moved()) + [Scaled(replicas)]
      ensures ctx.left <= old(ctx.left)
    {
      var failed := cluster.Run(Scaled(replicas));
      if failed { return Some(CommandFailed); }
      err := WaitReady(replicas, rest);
    }

    method Recreate(replicas: int, ghost rest: Todo) returns (err: Option<Error>)
      requires Tracks(current, {})
      requires Valid() && At(Then(Do(Wiped), Then(Do(Applied(replicas)), Then(Await(replicas), rest))))
      modifies cluster, ctx, this
      ensures Valid() && Done(err, rest)
      ensures Truthful(err)
      ensures err.None? ==> Tracks(replicas, Range(0, replicas)) && current == replicas && expected == map[]
      ensures cluster.Moved() <= old(cluster.Moved()) + [Wiped, Applied(replicas)]
      ensures err.None? ==> cluster.Moved() == old(cluster.Moved()) + [Wiped, Applied(replicas)]
      ensures ctx.left <= old(ctx.left)
    {
      var failed := cluster.Run(Wiped);
      if failed { return Some(CommandFailed); }
      assert At(Then(Do(Applied(replicas)), Then(Await(replicas), rest)));
      expected := map[];
      assert Tracks(0, {});
      err := Ensure(replicas, 0, rest);
    }

    /** Reads one key back and compares it with what is expected. */
    method Check(ord: int, ghost pending: set<int>, ghost rest: Todo) returns (err: Option<Error>)
      requires Tracks(current, pending) && ord in pending && ord in expected
      requires Valid() && At(Then(Read(ord), rest))
      modifies cluster
      ensures Valid() && Done(err, rest)
      ensures Truthful(err)
      ensures err.None? ==> Tracks(current, pending - {ord})
      ensures cluster.Moved() == old(cluster.Moved())
    {
      assert OwnKey(cluster.prefix, cluster.idx, ord, expected[ord]);
      var failed, got := cluster.Get(ord);
      if failed { return Some(CommandFailed); }
      if got != expected[ord] { return Some(DataLoss(Loss(ord, expected[ord], got))); }
      err := None;
    }

    /** A fresh instance is written its key, a known one is read back. */
    method Visit(ord: nat, ghost pending: set<int>, ghost rest: Todo) returns (err: Option<Error>)
      requires Tracks(current, pending) && ord in pending
      requires Valid() && At(Then(cluster.job.Meet(expected.Keys, ord), rest))
      modifies cluster, this`expected
      ensures Valid() && Done(err, rest)
      ensures Truthful(err)
      ensures err.None? ==> Tracks(current, pending - {ord}) && ord in expected
      ensures expected == (if ord in old(expected) || err.Some? then old(expected)
                           else old(expected)[ord := Key(cluster.prefix, cluster.idx, ord)])
      ensures err.None? ==> expected.Keys == old(expected).Keys + {ord}
      ensures cluster.Moved() == old(cluster.Moved())
    {
      if ord !in expected {
        var val := Key(cluster.prefix, cluster.idx, ord);
        var failed := cluster.Run(Put(ord, val));
        if failed { return Some(CommandFailed); }
        expected := expected[ord := val];
        err := None;
      } else {
        err := Check(ord, pending, rest);
      }
    }

    method ReconcileIntegrity(replicas: int, ghost rest: Todo) returns (err: Option<Error>)
      requires Tracks(current, Range(0, replicas))
      requires Valid() && At(cluster.job.Visits(expected.Keys, 0, replicas, rest))
      modifies cluster, this`expected
      ensures Valid() && Done(err, rest)
      ensures Truthful(err)
      ensures err.None? ==> Tracks(current, {})
      ensures err.None? ==> expected.Keys == old(expected).Keys + Range(0, replicas)
      ensures forall ord :: ord in expected ==> ord in old(expected) || 0 <= ord < replicas
      ensures cluster.Moved() == old(cluster.Moved())
    {
      ghost var job, known := cluster.job, expected.Keys;
      var ord := 0;
      while ord < replicas
        invariant 0 <= ord && (ord <= replicas || ord == 0)
        invariant Valid() && At(job.Visits(known, ord, replicas, rest))
        invariant Tracks(current, Range(ord, replicas))
        invariant expected.Keys == known + Range(0, ord)
        invariant cluster.Moved() == old(cluster.Moved())
      {
        OneVisit(known, ord, replicas);
        err := Visit(ord, Range(ord, replicas), job.Visits(known, ord + 1, replicas, rest));
        if err.Some? { return; }
        ord := ord + 1;
      }
      NoVisit(ord, replicas);
      err := None;
    }

    method KillAndVerify(ord: int, ghost rest: Todo) returns (err: Option<Error>)
      requires Tracks(current, {})
      requires Valid()
      requires At(if ord in expected then Then(Do(Killed(ord)), Then(Await(current), Then(Read(ord), rest))) else rest)
      modifies cluster, ctx
      ensures Valid() && Done(err, rest)
      ensures Truthful(err)
      ensures err.None? ==> Tracks(current, {})
      ensures cluster.Moved() <= old(cluster.Moved()) + (if ord in expected then [Killed(ord)] else [])
      ensures err.None? ==>
                cluster.Moved() == old(cluster.Moved()) + (if ord in expected then [Killed(ord)] else [])
      ensures ctx.left <= old(ctx.left)
    {
      if ord !in expected { return None; }
      var failed := cluster.Run(Killed(ord));
      if failed { return Some(CommandFailed); }
      err := WaitReady(current, Then(Read(ord), rest));
      if err.Some? { return; }
      err := Check(ord, {ord}, rest);
      assert {ord} - {ord} == {};
    }

    method DeletePVC(ord: int, ghost size: int, ghost pending: set<int>, ghost rest: Todo) returns (err: Option<Error>)
      requires Tracks(size, pending) && size <= ord <= o.max
      requires Valid() && At(cluster.job.Drops(ord, rest))
      modifies cluster, this`expected
      ensures Valid() && Done(err, cluster.job.Drops(ord + 1, rest))
      ensures Truthful(err)
      ensures err.None? ==> Tracks(size, pending) && expected == old(expected) - {ord}
      ensures cluster.Moved() == old(cluster.Moved())
    {
      assert At(Then(Do(Dropped(ord)), cluster.job.Drops(ord + 1, rest)));
      var failed := cluster.Run(Dropped(ord));
      if failed { return Some(CommandFailed); }
      expected := expected - {ord};
      err := None;
    }

    method DeletePVCsFrom(keep: int, ghost pending: set<int>, ghost rest: Todo) returns (err: Option<Error>)
      requires Tracks(keep, pending)
      requires Valid() && At(cluster.job.Drops(keep, rest))
      modifies cluster, this`expected
      ensures Valid() && Done(err, rest)
      ensures Truthful(err)
      ensures err.None? ==> Tracks(keep, pending)
      ensures err.None? ==> expected == old(expected) - Range(keep, o.max + 1)
      ensures cluster.Moved() == old(cluster.Moved())
    {
      ghost var job, known := cluster.job, expected;
      NoneLess(known, keep);
      var ord := keep;
      while ord <= o.max
        invariant keep <= ord && (ord <= o.max + 1 || ord == keep)
        invariant Valid() && At(job.Drops(ord, rest))
        invariant Tracks(keep, pending)
        invariant expected == known - Range(keep, ord)
        invariant cluster.Moved() == old(cluster.Moved())
      {
        err := DeletePVC(ord, keep, pending, rest);
        if err.Some? { return; }
        OneLess(known, keep, ord);
        ord := ord + 1;
      }
      NoneLeft(keep, ord, o.max);
      err := None;
    }
  }

  class Recorder {
    var fails: seq<Error>
    constructor () ensures fails == [] { fails := []; }
  }

  /** The run is over: with a look that found it ended, or with one error recorded, which the note before tells. */
  ghost predicate Finished(ctx: Context, rec: Recorder, before: seq<Error>)
    reads ctx, ctx.cluster, rec
  {
    var cluster, n := ctx.cluster, |ctx.cluster.trail|;
    && cluster.Valid() && cluster.Stage() == Over && n > 0 && cluster.trail[n - 1] == Look(ctx.saw)
    && (ctx.saw ==> rec.fails == before && ctx.left == 0)
    && (!ctx.saw ==> n > 1 && |rec.fails| == |before| + 1 && Tells(cluster.trail[n - 2], rec.fails[|before|]))
  }

  /** What is recorded of a run: nothing or one failure, and a data loss exactly as the observer saw it. A loss goes
      unrecorded if and only if the look at the context behind it found the run ended. With `stop`, a recorded
      failure ends the run for every pool. */
  ghost predicate Recorded(ctx: Context, rec: Recorder, stop: bool, before: seq<Error>)
    reads ctx, ctx.cluster, rec
  {
    var seen := ctx.cluster.Now();
    && seen.Some?
    && before <= rec.fails
    && |rec.fails| <= |before| + 1
    && (stop && rec.fails != before ==> ctx.left == 0)
    && if rec.fails == before then seen.value.lost.Some? ==> ctx.saw
      else var e := rec.fails[|before|];
        !ctx.saw && (e.DataLoss? <==> seen.value.lost.Some?) && (e.DataLoss? ==> seen.value.lost == Some(e.loss))
  }

  /** A stretch of the run is behind: the run is over, or the rest is to do. */
  ghost predicate Behind(pool: Pool, rec: Recorder, over: bool, rest: Todo, before: seq<Error>)
    reads pool, pool.ctx, pool.cluster, pool.ctx.cluster, rec
  {
    if over then Finished(pool.ctx, rec, before) && Recorded(pool.ctx, rec, pool.o.stopOnError, before)
    else pool.Valid() && pool.At(rest) && rec.fails == before
  }

  /** runPool's `fail`: an error is recorded unless the run has ended by the time it is looked at. */
  method Fail(pool: Pool, rec: Recorder, err: Option<Error>, ghost rest: Todo) returns (failed: bool)
    requires pool.Valid() && pool.Done(err, rest) && pool.Truthful(err)
    modifies pool.ctx, pool.cluster, rec
    ensures failed <==> err.Some?
    ensures failed ==> rec.fails == if pool.ctx.saw then old(rec.fails) else old(rec.fails) + [err.value]
    ensures failed && !pool.ctx.saw && pool.o.stopOnError ==> pool.ctx.left == 0
    ensures Behind(pool, rec, failed, rest, old(rec.fails))
    ensures pool.ctx.left <= old(pool.ctx.left)
    ensures pool.cluster.Now() == old(pool.cluster.Now()) && pool.cluster.Moved() == old(pool.cluster.Moved())
  {
    if err.None? { return false; }
    var ended := pool.ctx.Err();
    if ended { return true; }
    rec.fails := rec.fails + [err.value];
    if pool.o.stopOnError { pool.ctx.Cancel(); }
    return true;
  }

  /** Every running instance is checked, and what went wrong is recorded. */
  method Integrity(pool: Pool, rec: Recorder, ghost rest: Todo) returns (over: bool)
    requires pool.Valid() && pool.Tracks(pool.current, Range(0, pool.current))
    requires pool.At(pool.cluster.job.Visits(pool.expected.Keys, 0, pool.current, rest))
    modifies pool`expected, pool.ctx, pool.cluster, rec
    ensures Behind(pool, rec, over, rest, old(rec.fails))
    ensures !over ==> pool.Tracks(pool.current, {})
    ensures !over ==> pool.expected.Keys == old(pool.expected).Keys + Range(0, pool.current)
    ensures pool.cluster.Moved() == old(pool.cluster.Moved())
    ensures pool.ctx.left <= old(pool.ctx.left)
  {
    var err := pool.ReconcileIntegrity(pool.current, rest);
    over := Fail(pool, rec, err, rest);
  }

  /** The first deployment. */
  method Start(pool: Pool, rec: Recorder, ghost rest: Todo) returns (over: bool)
    requires pool.Valid() && pool.At(pool.cluster.job.Deploy(rest)) && pool.expected == map[]
    requires pool.Tracks(pool.current, {})
    modifies pool, pool.ctx, pool.cluster, rec
    ensures Behind(pool, rec, over, rest, old(rec.fails))
    ensures !over ==> pool.Tracks(pool.current, {})
    ensures !over ==> pool.current == pool.o.min && pool.expected.Keys == Range(0, pool.o.min)
    ensures pool.cluster.Moved() <= old(pool.cluster.Moved()) + [Applied(pool.o.min)]
    ensures !over ==> pool.cluster.Moved() == old(pool.cluster.Moved()) + [Applied(pool.o.min)]
    ensures pool.ctx.left <= old(pool.ctx.left)
  {
    ghost var visits := pool.cluster.job.Visits({}, 0, pool.o.min, rest);
    var err := pool.Ensure(pool.o.min, pool.current, visits);
    over := Fail(pool, rec, err, visits);
    if over { return; }
    assert pool.expected.Keys == {};
    over := Integrity(pool, rec, rest);
  }

  /** The pool is scaled, and behind a scale-down the volumes no longer used are discarded. */
  method Resize(pool: Pool, rec: Recorder, target: int, ghost rest: Todo) returns (over: bool)
    requires pool.Valid() && pool.Tracks(pool.current, {})
    requires pool.At(pool.cluster.job.Resize(pool.current, target, rest))
    modifies pool`expected, pool.ctx, pool.cluster, rec
    ensures Behind(pool, rec, over, rest, old(rec.fails))
    ensures !over ==> pool.Tracks(target, Range(0, target))
    ensures !over ==> pool.expected.Keys == pool.cluster.job.Kept(pool.current, old(pool.expected).Keys, target)
    ensures !over ==> pool.cluster.Moved() == old(pool.cluster.Moved()) + [Scaled(target)]
    ensures over ==> pool.cluster.Moved() <= old(pool.cluster.Moved()) + [Scaled(target)]
    ensures pool.ctx.left <= old(pool.ctx.left)
  {
    ghost var drops := if target < pool.current then pool.cluster.job.Drops(target, rest) else rest;
    var err := pool.Scale(target, drops);
    over := Fail(pool, rec, err, drops);
    if !over && target < pool.current {
      err := pool.DeletePVCsFrom(target, Range(0, target), rest);
      over := Fail(pool, rec, err, rest);
    }
  }

  /** One stop of the scale pattern: scale, discard the volumes no longer used, check the rest. */
  method ScaleTo(pool: Pool, rec: Recorder, target: int, ghost rest: Todo) returns (over: bool)
    requires pool.Valid() && pool.At(pool.cluster.job.Stop(pool.current, pool.expected.Keys, target, rest))
    requires pool.Tracks(pool.current, {})
    modifies pool, pool.ctx, pool.cluster, rec
    ensures Behind(pool, rec, over, rest, old(rec.fails))
    ensures !over ==> pool.Tracks(pool.current, {}) && pool.current == target
    ensures !over ==> pool.expected.Keys == pool.cluster.job.After(old(pool.current), old(pool.expected).Keys, target)
    ensures !over ==> pool.cluster.Moved() == old(pool.cluster.Moved()) + [Scaled(target)]
    ensures over ==> pool.cluster.Moved() <= old(pool.cluster.Moved()) + [Scaled(target)]
    ensures pool.ctx.left <= old(pool.ctx.left)
  {
    ghost var kept := pool.cluster.job.Kept(pool.current, pool.expected.Keys, target);
    over := pool.ctx.Err();
    if over { return; }
    over := Resize(pool, rec, target, pool.cluster.job.Visits(kept, 0, target, rest));
    if over { return; }
    pool.current := target;
    over := Integrity(pool, rec, rest);
  }

  /** The full delete and recreate. */
  method StartAgain(pool: Pool, rec: Recorder, ghost rest: Todo) returns (over: bool)
    requires pool.Valid() && pool.At(Then(Do(Wiped), pool.cluster.job.Deploy(rest)))
    requires pool.Tracks(pool.current, {})
    modifies pool, pool.ctx, pool.cluster, rec
    ensures Behind(pool, rec, over, rest, old(rec.fails))
    ensures !over ==> pool.Tracks(pool.current, {})
    ensures !over ==> pool.current == pool.o.min && pool.expected.Keys == Range(0, pool.o.min)
    ensures pool.cluster.Moved() <= old(pool.cluster.Moved()) + [Wiped, Applied(pool.o.min)]
    ensures !over ==> pool.cluster.Moved() == old(pool.cluster.Moved()) + [Wiped, Applied(pool.o.min)]
    ensures pool.ctx.left <= old(pool.ctx.left)
  {
    ghost var visits := pool.cluster.job.Visits({}, 0, pool.o.min, rest);
    var err := pool.Recreate(pool.o.min, visits);
    over := Fail(pool, rec, err, visits);
    if over { return; }
    assert pool.expected.Keys == {};
    over := Integrity(pool, rec, rest);
  }

  /** The three stops of a cycle. */
  method RunPattern(pool: Pool, rec: Recorder, ghost cycle: nat) returns (over: bool)
    requires pool.Valid() && pool.At(pool.cluster.job.Cycle(cycle, pool.current, pool.expected.Keys))
    requires pool.Tracks(pool.current, {})
    modifies pool, pool.ctx, pool.cluster, rec
    ensures Behind(pool, rec, over, pool.cluster.job.Stops([], cycle, pool.current, pool.expected.Keys), old(rec.fails))
    ensures !over ==> pool.Tracks(pool.current, {})
    ensures !over ==> forall ord :: 0 <= ord < pool.o.mid ==> ord in pool.expected
    ensures pool.cluster.Moved() <= old(pool.cluster.Moved()) + PatternMoves(pool.o)
    ensures !over ==> pool.cluster.Moved() == old(pool.cluster.Moved()) + PatternMoves(pool.o)
    ensures pool.ctx.left <= old(pool.ctx.left)
  {
    var targets := [pool.o.mid, pool.o.max, pool.o.mid];
    ghost var job, before, pattern := pool.cluster.job, pool.cluster.Moved(), PatternMoves(pool.o);
    var k := 0;
    while k < 3
      invariant 0 <= k <= 3
      invariant pool.Valid() && pool.At(job.Stops(targets[k..], cycle, pool.current, pool.expected.Keys))
      invariant pool.Tracks(pool.current, {})
      invariant rec.fails == old(rec.fails)
      invariant pool.cluster.Moved() == before + pattern[..k]
      invariant k == 3 ==> forall ord :: 0 <= ord < pool.o.mid ==> ord in pool.expected
      invariant pool.ctx.left <= old(pool.ctx.left)
    {
      ghost var target, known := targets[k], job.After(pool.current, pool.expected.Keys, targets[k]);
      assert targets[k..][1..] == targets[k + 1..];
      over := ScaleTo(pool, rec, targets[k], job.Stops(targets[k + 1..], cycle, target, known));
      OneFurther(before, pattern, k);
      if over { return; }
      k := k + 1;
    }
    over := false;
  }

  lemma OneFurther(before: seq<Event>, pattern: seq<Event>, k: nat)
    requires k < |pattern|
    ensures before + pattern[..k] + [pattern[k]] == before + pattern[..k + 1] <= before + pattern
  {
  }

  /** Instance 0 is killed and read back, and now and then everything is deleted and deployed again. */
  method Renew(pool: Pool, rec: Recorder, cycle: nat) returns (over: bool)
    requires pool.Valid() && pool.At(pool.cluster.job.Stops([], cycle, pool.current, pool.expected.Keys))
    requires pool.Tracks(pool.current, {})
    modifies pool, pool.ctx, pool.cluster, rec
    ensures Behind(pool, rec, over, Then(Head(cycle + 1, pool.current, pool.expected.Keys), Nil), old(rec.fails))
    ensures !over ==> pool.Tracks(pool.current, {})
    ensures 0 in old(pool.expected) ==> pool.cluster.Moved() <= old(pool.cluster.Moved()) + RenewMoves(pool.o, cycle)
    ensures 0 in old(pool.expected) && !over ==>
              pool.cluster.Moved() == old(pool.cluster.Moved()) + RenewMoves(pool.o, cycle)
    ensures pool.ctx.left <= old(pool.ctx.left)
  {
    ghost var again := pool.cluster.job.Again(cycle, pool.current, pool.expected.Keys);
    var err := pool.KillAndVerify(0, again);
    over := Fail(pool, rec, err, again);
    if !over && pool.o.recreateEach > 0 && cycle % pool.o.recreateEach == 0 {
      over := StartAgain(pool, rec, Then(Head(cycle + 1, pool.o.min, Range(0, pool.o.min)), Nil));
    }
  }

  /** The pattern, the probe, and the recreation when it is due. */
  method RunCycle(pool: Pool, rec: Recorder, cycle: nat) returns (over: bool)
    requires pool.Valid() && pool.At(pool.cluster.job.Cycle(cycle, pool.current, pool.expected.Keys))
    requires pool.Tracks(pool.current, {})
    modifies pool, pool.ctx, pool.cluster, rec
    ensures Behind(pool, rec, over, Then(Head(cycle + 1, pool.current, pool.expected.Keys), Nil), old(rec.fails))
    ensures !over ==> pool.Tracks(pool.current, {})
    ensures pool.o.mid >= 1 ==> pool.cluster.Moved() <= old(pool.cluster.Moved()) + CycleMoves(pool.o, cycle)
    ensures pool.o.mid >= 1 && !over ==>
              pool.cluster.Moved() == old(pool.cluster.Moved()) + CycleMoves(pool.o, cycle)
    ensures pool.ctx.left <= old(pool.ctx.left)
  {
    ghost var before := pool.cluster.Moved();
    TwoParts(before, pool.o, cycle);
    over := RunPattern(pool, rec, cycle);
    if !over { over := Renew(pool, rec, cycle); }
  }

  lemma TwoParts(before: seq<Event>, o: Opts, cycle: nat)
    ensures before + PatternMoves(o) + RenewMoves(o, cycle) == before + CycleMoves(o, cycle)
    ensures before + PatternMoves(o) <= before + CycleMoves(o, cycle)
  {
  }

  /** A look at the context, and a cycle unless it has ended. */
  method NextCycle(pool: Pool, rec: Recorder, cycle: nat) returns (over: bool)
    requires pool.Valid() && pool.At(Then(Head(cycle, pool.current, pool.expected.Keys), Nil))
    requires pool.Tracks(pool.current, {})
    modifies pool, pool.ctx, pool.cluster, rec
    ensures Behind(pool, rec, over, Then(Head(cycle + 1, pool.current, pool.expected.Keys), Nil), old(rec.fails))
    ensures !over ==> pool.Tracks(pool.current, {})
    ensures pool.o.mid >= 1 ==> pool.cluster.Moved() <= old(pool.cluster.Moved()) + CycleMoves(pool.o, cycle)
    ensures pool.o.mid >= 1 && !over ==>
              pool.cluster.Moved() == old(pool.cluster.Moved()) + CycleMoves(pool.o, cycle)
    ensures pool.ctx.left <= old(pool.ctx.left)
    ensures !over ==> pool.ctx.left < old(pool.ctx.left)
  {
    over := pool.ctx.Err();
    if !over { over := RunCycle(pool, rec, cycle); }
  }

  /** Cycle after cycle, until the run is over. */
  method RunCycles(pool: Pool, rec: Recorder) returns (ghost cycles: nat)
    requires pool.Valid() && pool.At(Then(Head(1, pool.current, pool.expected.Keys), Nil))
    requires pool.Tracks(pool.current, {})
    requires pool.cluster.Moved() == Schedule(pool.o, 0)
    modifies pool, pool.ctx, pool.cluster, rec
    ensures Behind(pool, rec, true, Nil, old(rec.fails))
    ensures pool.o.mid >= 1 ==> pool.cluster.Moved() <= Schedule(pool.o, cycles)
  {
    var cycle, over := 0, false;
    while !over
      invariant cycle >= 0
      invariant Behind(pool, rec, over, Then(Head(cycle + 1, pool.current, pool.expected.Keys), Nil), old(rec.fails))
      invariant !over ==> pool.Tracks(pool.current, {})
      invariant pool.o.mid >= 1 ==> pool.cluster.Moved() <= Schedule(pool.o, cycle)
      invariant pool.o.mid >= 1 && !over ==> pool.cluster.Moved() == Schedule(pool.o, cycle)
      decreases !over, pool.ctx.left
    {
      cycle := cycle + 1;
      over := NextCycle(pool, rec, cycle);
    }
    cycles := cycle;
  }

  /** One pool's whole run. */
  method RunPool(ctx: Context, o: Opts, rec: Recorder, cluster: Cluster) returns (ghost cycles: nat)
    requires ctx.Valid() && ctx.cluster == cluster && cluster.trail == [] && cluster.job.o == o
    modifies ctx, rec, cluster
    ensures Finished(ctx, rec, old(rec.fails)) && Recorded(ctx, rec, o.stopOnError, old(rec.fails))
    ensures Faithful(cluster.world, cluster.trail) && cluster.job.Follow(cluster.trail) == Over
    ensures cluster.Now() == Replay(cluster.prefix, cluster.idx, LogOf(cluster.trail))
    ensures o.mid >= 1 ==> Moves(LogOf(cluster.trail)) <= Schedule(o, cycles)
  {
    cycles := 0;
    var pool := new Pool(o, cluster, ctx);
    ghost var todo := Then(Head(1, o.min, Range(0, o.min)), Nil);
    assert cluster.job.Start() == cluster.job.Deploy(todo);
    var over := Start(pool, rec, todo);
    if !over { cycles := RunCycles(pool, rec); }
    StoryIs(cluster.world, cluster.job, cluster.trail);
  }

  // ---- what a trail that keeps to the job is worth ----

  lemma {:induction false} GoingBefore(job: Job, trail: seq<Note>, k: nat)
    requires job.Follow(trail).Going? || job.Follow(trail).Stopping?
    requires k < |trail|
    ensures job.Follow(trail[..k]).Going?
    ensures job.Follow(trail[..k + 1]) == job.Eat(job.Follow(trail[..k]), trail[k])
  {
    var n := |trail| - 1;
    assert trail[..n + 1] == trail;
    if k < n {
      GoingBefore(job, trail[..n], k);
      assert trail[..n][..k] == trail[..k] && trail[..n][..k + 1] == trail[..k + 1];
    }
  }

  /** A note behind which a run goes on. */
  predicate Fine(note: Note) { !note.Refused? && note != Look(true) && note != Clock(true) }

  /** The run goes on behind fine notes only, and it stops at a failure or a wrong answer. */
  lemma GoesOn(job: Job, p: Progress, note: Note)
    requires p.Going?
    ensures job.Eat(p, note).Going? ==> Fine(note)
    ensures job.Eat(p, note).Stopping? ==> !Fine(note) || (note.Cmd? && note.e.Got?)
    ensures job.Eat(p, note) == Over ==> note == Look(true)
  {
  }

  lemma FirstNote(job: Job, note: Note)
    ensures job.Eat(Going(job.Start()), note) == Astray || note == Cmd(Applied(job.o.min))
            || note == Refused(Applied(job.o.min))
  {
  }

  lemma OnTheWay(job: Job, trail: seq<Note>, k: nat)
    requires job.Follow(trail) == Over && k + 1 < |trail|
    ensures job.Follow(trail[..k]).Going?
    ensures job.Follow(trail[..k + 1]) == job.Eat(job.Follow(trail[..k]), trail[k]) != Astray
  {
    var n := |trail| - 1;
    GoingBefore(job, trail[..n], k);
    assert trail[..n][..k] == trail[..k] && trail[..n][..k + 1] == trail[..k + 1];
    if k + 1 < n { GoingBefore(job, trail[..n], k + 1); }
    assert trail[..n][..n] == trail[..n];
  }

  /** A whole run begins with the first deployment and ends with a look. Whatever fails, a command, the context or the
      clock, is the last thing before that look; and a run that ends with nothing failing ends because the look found
      it ended. */
  lemma RunShape(job: Job, trail: seq<Note>)
    requires job.Follow(trail) == Over
    ensures var n := |trail|;
            && n >= 2 && trail[n - 1].Look?
            && (trail[0] == Cmd(Applied(job.o.min)) || trail[0] == Refused(Applied(job.o.min)))
            && (forall k :: 0 <= k < n - 2 ==> Fine(trail[k]))
            && (trail[n - 1] == Look(false) ==> !Fine(trail[n - 2]) || (trail[n - 2].Cmd? && trail[n - 2].e.Got?))
  {
    var n := |trail|;
    var before := trail[..n - 1];
    assert job.Follow(trail) == job.Eat(job.Follow(before), trail[n - 1]);
    FirstNote(job, trail[0]);
    assert trail[..0] == [] && trail[..1] == [trail[0]];
    assert n == 1 ==> before == [];
    OnTheWay(job, trail, 0);
    OnTheWay(job, trail, n - 2);
    if job.Follow(before).Going? { GoesOn(job, job.Follow(before), trail[n - 1]); }
    GoesOn(job, job.Follow(trail[..n - 2]), trail[n - 2]);
    forall k | 0 <= k < n - 2 ensures Fine(trail[k]) {
      OnTheWay(job, trail, k);
      OnTheWay(job, trail, k + 1);
      GoesOn(job, job.Follow(trail[..k]), trail[k]);
    }
  }

  // ---- no run only watches ----

  function Looks(trail: seq<Note>): nat {
    if trail == [] then 0
    else
      var n := |trail| - 1;
      Looks(trail[..n]) + if trail[n].Look? then 1 else 0
  }

  /** The notes of a command, whether it succeeded or not. */
  function Commands(trail: seq<Note>): nat {
    if trail == [] then 0
    else
      var n := |trail| - 1;
      Commands(trail[..n]) + if Command(trail[n]) then 1 else 0
  }

  predicate Command(note: Note) { note.Cmd? || note.Refused? || note.Unready? }

  predicate Visit?(note: Note) { note.Cmd? && (note.e.Put? || note.e.Got?) }

  function VisitsMade(trail: seq<Note>): nat {
    if trail == [] then 0
    else
      var n := |trail| - 1;
      VisitsMade(trail[..n]) + if Visit?(trail[n]) then 1 else 0
  }

  predicate Begins(p: Progress, note: Note) {
    p.Going? && p.todo.Then? && p.todo.first.Head? && note == Look(false)
  }

  /** How many cycles were begun. */
  function Begun(job: Job, trail: seq<Note>): nat {
    if trail == [] then 0
    else
      var n := |trail| - 1;
      Begun(job, trail[..n]) + if Begins(job.Follow(trail[..n]), trail[n]) then 1 else 0
  }

  function LastSize(trail: seq<Note>): int {
    if trail == [] then 0
    else
      var n := |trail| - 1;
      if trail[n].Cmd? && (trail[n].e.Applied? || trail[n].e.Scaled?) then trail[n].e.n else LastSize(trail[..n])
  }

  /** The volumes discarded before anything else is done than waiting. */
  function Discards(todo: Todo): set<int> {
    match todo
    case Then(Do(Dropped(ord)), rest) => {ord} + Discards(rest)
    case Then(Await(_), rest) => Discards(rest)
    case Then(Ask(_), rest) => Discards(rest)
    case Then(Time(_), rest) => Discards(rest)
    case _ => {}
  }

  predicate Scales(todo: Todo) { todo.Then? && todo.first.Do? && todo.first.e.Scaled? }

  /** What there is to do fits a pool of the size: a look, and nothing else, comes right before a scaling, a scale-down
      is followed by discarding everything behind it, and the next cycle knows the size. */
  predicate Fits(o: Opts, todo: Todo, size: int) {
    match todo
    case Nil => true
    case Then(Check, rest) => Scales(rest) && Fits(o, rest, size)
    case Then(Do(Scaled(t)), rest) =>
      !Scales(rest) && (t < size ==> Range(t, o.max + 1) <= Discards(rest)) && Fits(o, rest, t)
    case Then(Do(Applied(n)), rest) => !Scales(rest) && Fits(o, rest, n)
    case Then(Head(_, current, _), rest) => current == size && !Scales(rest) && Fits(o, rest, size)
    case Then(_, rest) => !Scales(rest) && Fits(o, rest, size)
  }

  lemma {:induction false} VisitsFit(job: Job, known: set<int>, ord: nat, n: int, rest: Todo, size: int)
    requires Fits(job.o, rest, size) && !Scales(rest)
    ensures Fits(job.o, job.Visits(known, ord, n, rest), size) && !Scales(job.Visits(known, ord, n, rest))
    decreases n - ord
  {
    if ord < n { VisitsFit(job, known, ord + 1, n, rest, size); }
  }

  lemma {:induction false} DropsFit(job: Job, ord: int, rest: Todo, size: int)
    requires Fits(job.o, rest, size) && !Scales(rest)
    ensures Fits(job.o, job.Drops(ord, rest), size) && !Scales(job.Drops(ord, rest))
    ensures Range(ord, job.o.max + 1) <= Discards(job.Drops(ord, rest))
    decreases job.o.max + 1 - ord
  {
    if ord <= job.o.max { DropsFit(job, ord + 1, rest, size); }
  }

  lemma StopFits(job: Job, current: int, known: set<int>, target: int, rest: Todo)
    requires Fits(job.o, rest, target) && !Scales(rest)
    ensures Fits(job.o, job.Stop(current, known, target, rest), current)
  {
    var visits := job.Visits(job.Kept(current, known, target), 0, target, rest);
    VisitsFit(job, job.Kept(current, known, target), 0, target, rest, target);
    DropsFit(job, target, visits, target);
  }

  lemma DeployFits(job: Job, rest: Todo, size: int)
    requires Fits(job.o, rest, job.o.min) && !Scales(rest)
    ensures Fits(job.o, job.Deploy(rest), size)
  {
    VisitsFit(job, {}, 0, job.o.min, rest, job.o.min);
  }

  lemma AgainFits(job: Job, cycle: nat, current: int, known: set<int>)
    ensures Fits(job.o, job.Again(cycle, current, known), current)
  {
    DeployFits(job, Then(Head(cycle + 1, job.o.min, Range(0, job.o.min)), Nil), current);
  }

  lemma {:induction false} StopsFit(job: Job, targets: seq<int>, cycle: nat, current: int, known: set<int>)
    ensures Fits(job.o, job.Stops(targets, cycle, current, known), current)
    ensures !Scales(job.Stops(targets, cycle, current, known))
  {
    if targets == [] {
      AgainFits(job, cycle, current, known);
    } else {
      var after := job.After(current, known, targets[0]);
      StopsFit(job, targets[1..], cycle, targets[0], after);
      StopFits(job, current, known, targets[0], job.Stops(targets[1..], cycle, targets[0], after));
    }
  }

  lemma EatFits(job: Job, p: Progress, note: Note, size: int)
    requires p.Going? && Fits(job.o, p.todo, size) && job.Eat(p, note).Going?
    ensures Fits(job.o, job.Eat(p, note).todo,
                 if note.Cmd? && (note.e.Applied? || note.e.Scaled?) then note.e.n else size)
    ensures Scales(job.Eat(p, note).todo) ==> note == Look(false)
  {
    if p.todo.first.Head? {
      StopsFit(job, [job.o.mid, job.o.max, job.o.mid], p.todo.first.cycle, p.todo.first.current, p.todo.first.known);
    }
  }

  lemma {:induction false} FollowFits(job: Job, trail: seq<Note>)
    requires job.Follow(trail).Going?
    ensures Fits(job.o, job.Follow(trail).todo, LastSize(trail))
    ensures Scales(job.Follow(trail).todo) ==> trail != [] && trail[|trail| - 1] == Look(false)
  {
    if trail == [] {
      DeployFits(job, Then(Head(1, job.o.min, Range(0, job.o.min)), Nil), 0);
    } else {
      var n := |trail| - 1;
      GoingBefore(job, trail, n);
      assert trail[..n + 1] == trail;
      FollowFits(job, trail[..n]);
      EatFits(job, job.Follow(trail[..n]), trail[n], LastSize(trail[..n]));
    }
  }

  /** Right before every scaling the context was looked at, and had not ended. */
  lemma LookBeforeScaling(job: Job, trail: seq<Note>, i: nat)
    requires job.Follow(trail) == Over && i < |trail|
    requires (trail[i].Cmd? || trail[i].Refused?) && trail[i].e.Scaled?
    ensures i >= 1 && trail[i - 1] == Look(false)
  {
    RunShape(job, trail);
    OnTheWay(job, trail, i);
    FollowFits(job, trail[..i]);
    assert Scales(job.Follow(trail[..i]).todo);
  }

  /** Behind a scale-down every volume from the new size to the greatest is discarded, before the next instance is
      visited and before the next step that detaches volumes. */
  lemma DiscardedBehind(job: Job, trail: seq<Note>, i: nat, k: nat, ord: int)
    requires job.Follow(trail) == Over && i < k < |trail|
    requires trail[i].Cmd? && trail[i].e.Scaled? && trail[i].e.n < LastSize(trail[..i])
    requires trail[k].Cmd? && (Visit?(trail[k]) || trail[k].e.Move?())
    requires trail[i].e.n <= ord <= job.o.max
    ensures exists j :: i < j < k && trail[j] == Cmd(Dropped(ord))
  {
    RunShape(job, trail);
    OnTheWay(job, trail, k);
    NothingToDiscard(job, job.Follow(trail[..k]), trail[k]);
    assert trail[..k][..i] == trail[..i];
    if forall j :: i < j < k ==> trail[j] != Cmd(Dropped(ord)) { StillToDiscard(job, trail[..k], i, ord); }
  }

  lemma NothingToDiscard(job: Job, p: Progress, note: Note)
    requires p.Going? && job.Eat(p, note) != Astray
    requires note.Cmd? && (Visit?(note) || note.e.Move?())
    ensures Discards(p.todo) == {}
  {
  }

  lemma {:induction false} StillToDiscard(job: Job, trail: seq<Note>, i: nat, ord: int)
    requires job.Follow(trail).Going? && i < |trail|
    requires trail[i].Cmd? && trail[i].e.Scaled? && trail[i].e.n < LastSize(trail[..i])
    requires trail[i].e.n <= ord <= job.o.max
    requires forall j :: i < j < |trail| ==> trail[j] != Cmd(Dropped(ord))
    ensures ord in Discards(job.Follow(trail).todo)
  {
    var n := |trail| - 1;
    GoingBefore(job, trail, n);
    assert trail[..n + 1] == trail;
    if i == n {
      FollowFits(job, trail[..n]);
    } else {
      assert trail[..n][..i] == trail[..i];
      StillToDiscard(job, trail[..n], i, ord);
    }
  }

  /** Looks that a stage leaves unpaid. */
  function Unpaid(p: Progress): nat {
    match p
    case Going(Then(Do(e), _)) => if e.Put? || e.Got? then 0 else 1
    case Going(Then(Ask(_), _)) => 1
    case Stopping => 1
    case Over => 2
    case _ => 0
  }

  predicate Counts(note: Note) { Command(note) && !Visit?(note) }

  lemma EatPays(job: Job, p: Progress, note: Note, size: int)
    requires p.Going? ==> Fits(job.o, p.todo, size)
    requires job.Eat(p, note) != Astray
    ensures (if note.Look? then 1 else 0) + Unpaid(p) <=
            (if Counts(note) then 1 else 0) + (if Begins(p, note) then 1 else 0) + Unpaid(job.Eat(p, note))
  {
  }

  lemma {:induction false} Paced(job: Job, trail: seq<Note>)
    requires job.Follow(trail) != Astray
    ensures Looks(trail) + 1 + VisitsMade(trail) <=
            Commands(trail) + Begun(job, trail) + Unpaid(job.Follow(trail))
  {
    if trail != [] {
      var n := |trail| - 1;
      Paced(job, trail[..n]);
      if job.Follow(trail[..n]).Going? { FollowFits(job, trail[..n]); }
      EatPays(job, job.Follow(trail[..n]), trail[n], LastSize(trail[..n]));
    }
  }

  /** An instance is visited before the next cycle begins. */
  predicate VisitAhead(todo: Todo) {
    match todo
    case Nil => false
    case Then(Read(_), _) => true
    case Then(Head(_, _, _), _) => false
    case Then(Do(e), rest) => e.Put? || VisitAhead(rest)
    case Then(_, rest) => VisitAhead(rest)
  }

  lemma {:induction false} DropsKeepAhead(job: Job, ord: int, rest: Todo)
    requires VisitAhead(rest)
    ensures VisitAhead(job.Drops(ord, rest))
    decreases job.o.max + 1 - ord
  {
    if ord <= job.o.max { DropsKeepAhead(job, ord + 1, rest); }
  }

  lemma SomeVisits(job: Job, known: set<int>, n: int, rest: Todo)
    requires n >= 1
    ensures VisitAhead(job.Visits(known, 0, n, rest))
  {
    assert job.Visits(known, 0, n, rest) == Then(job.Meet(known, 0), job.Visits(known, 0 + 1, n, rest));
  }

  lemma StopVisits(job: Job, current: int, known: set<int>, target: int, rest: Todo)
    requires target >= 1
    ensures VisitAhead(job.Stop(current, known, target, rest))
  {
    var kept := job.Kept(current, known, target);
    SomeVisits(job, kept, target, rest);
    DropsKeepAhead(job, target, job.Visits(kept, 0, target, rest));
  }

  lemma CycleVisits(job: Job, cycle: nat, current: int, known: set<int>)
    requires job.o.mid >= 1
    ensures VisitAhead(job.Cycle(cycle, current, known))
  {
    var mid, targets := job.o.mid, [job.o.mid, job.o.max, job.o.mid];
    StopVisits(job, current, known, mid, job.Stops(targets[1..], cycle, mid, job.After(current, known, mid)));
  }

  /** As many visits are made as cycles are begun, and one more where none lies ahead. */
  lemma {:induction false} VisitsKeepUp(job: Job, trail: seq<Note>)
    requires job.Follow(trail) != Astray && job.o.min >= 1 && job.o.mid >= 1
    ensures var p := job.Follow(trail);
      Begun(job, trail) + (if p.Going? && !VisitAhead(p.todo) then 1 else 0) <= VisitsMade(trail)
  {
    if trail == [] {
      SomeVisits(job, {}, job.o.min, Then(Head(1, job.o.min, Range(0, job.o.min)), Nil));
    } else {
      var n := |trail| - 1;
      VisitsKeepUp(job, trail[..n]);
      EatVisits(job, job.Follow(trail[..n]), trail[n]);
    }
  }

  lemma EatVisits(job: Job, p: Progress, note: Note)
    requires job.Eat(p, note) != Astray && job.o.mid >= 1
    ensures var q := job.Eat(p, note);
      (if Begins(p, note) then 1 else 0) + (if q.Going? && !VisitAhead(q.todo) then 1 else 0) <=
      (if Visit?(note) then 1 else 0) + (if p.Going? && !VisitAhead(p.todo) then 1 else 0)
  {
    if Begins(p, note) { CycleVisits(job, p.todo.first.cycle, p.todo.first.current, p.todo.first.known); }
  }

  /** No run only watches: beyond one look for every cycle begun and one more, every look is matched by a command. When
      a pool has instances at its smallest and at its middle size, all looks but one are. */
  lemma EveryLookWorks(job: Job, trail: seq<Note>)
    requires job.Follow(trail) == Over
    ensures Looks(trail) <= Commands(trail) + Begun(job, trail) + 1
    ensures job.o.min >= 1 && job.o.mid >= 1 ==> Looks(trail) <= Commands(trail) + 1
  {
    Paced(job, trail);
    if job.o.min >= 1 && job.o.mid >= 1 { VisitsKeepUp(job, trail); }
  }

  lemma NoteMore(job: Job, trail: seq<Note>, note: Note)
    ensures var more := trail + [note];
            && job.Follow(more) == job.Eat(job.Follow(trail), note)
            && Looks(more) == Looks(trail) + (if note.Look? then 1 else 0)
            && Commands(more) == Commands(trail) + (if Command(note) then 1 else 0)
  {
    assert (trail + [note])[..|trail|] == trail;
  }

  /** A pool deployed without instances can look twice more than it gives commands. */
  lemma EmptyPoolWatches(job: Job) returns (trail: seq<Note>)
    requires job.o.min <= 0
    ensures job.Follow(trail) == Over && Looks(trail) == Commands(trail) + 2
  {
    var first, second := Cmd(Applied(job.o.min)), Cmd(Ready(job.o.min));
    trail := TwoNotes(job, [], first, Look(false));
    trail := TwoNotes(job, trail, second, Look(false));
    trail := TwoNotes(job, trail, Look(false), Cmd(Scaled(job.o.mid)));
    trail := TwoNotes(job, trail, Look(true), Look(true));
  }

  lemma TwoNotes(job: Job, trail: seq<Note>, a: Note, b: Note) returns (more: seq<Note>)
    ensures job.Follow(more) == job.Eat(job.Eat(job.Follow(trail), a), b)
    ensures Looks(more) == Looks(trail) + (if a.Look? then 1 else 0) + if b.Look? then 1 else 0
    ensures Commands(more) == Commands(trail) + (if Command(a) then 1 else 0) + if Command(b) then 1 else 0
  {
    NoteMore(job, trail, a);
    NoteMore(job, trail + [a], b);
    more := trail + [a] + [b];
  }

  /** Every event of the schedule has its place, when nothing is recreated. */
  lemma {:induction false} ScheduleAt(o: Opts, cycles: nat, q: nat)
    requires o.recreateEach <= 0 && q < cycles
    ensures var s := Schedule(o, cycles);
            && |s| == 1 + 4 * cycles && s[0] == Applied(o.min)
            && s[4 * q + 1] == Scaled(o.mid) && s[4 * q + 2] == Scaled(o.max)
            && s[4 * q + 3] == Scaled(o.mid) && s[4 * q + 4] == Killed(0)
  {
    if cycles > 1 { ScheduleAt(o, cycles - 1, if q == cycles - 1 then 0 else q); }
    assert Schedule(o, cycles) == Schedule(o, cycles - 1) + CycleMoves(o, cycles);
  }

  function Wipes(s: seq<Event>): nat {
    if s == [] then 0
    else
      var n := |s| - 1;
      Wipes(s[..n]) + if s[n].Wiped? then 1 else 0
  }

  lemma {:induction false} WipesAdd(s: seq<Event>, t: seq<Event>)
    ensures Wipes(s + t) == Wipes(s) + Wipes(t)
  {
    if t == [] {
      assert s + t == s;
    } else {
      var n := |t| - 1;
      assert (s + t)[..|s| + n] == s + t[..n];
      WipesAdd(s, t[..n]);
    }
  }

  lemma NextQuotient(n: nat, r: int)
    requires r > 0
    ensures (n + 1) / r == n / r + if (n + 1) % r == 0 then 1 else 0
  {
    var q, m := n / r, n % r;
    assert n == r * q + m;
    if m + 1 == r { DivModUnique(n + 1, r, q + 1, 0); } else { DivModUnique(n + 1, r, q, m + 1); }
  }

  /** The pool is wiped once for every `recreateEach` cycles. */
  lemma {:induction false} WipedEvery(o: Opts, cycles: nat)
    requires o.recreateEach > 0
    ensures Wipes(Schedule(o, cycles)) == cycles / o.recreateEach
  {
    if cycles == 0 {
      assert [Applied(o.min)][..0] == [];
    } else {
      WipedEvery(o, cycles - 1);
      NextQuotient(cycles - 1, o.recreateEach);
      WipesAdd(Schedule(o, cycles - 1), CycleMoves(o, cycles));
      WipesAdd(PatternMoves(o), RenewMoves(o, cycles));
      OneWipe(o, cycles);
    }
  }

  lemma OneWipe(o: Opts, cycle: nat)
    ensures Wipes(PatternMoves(o)) == 0
    ensures Wipes(RenewMoves(o, cycle)) == if o.recreateEach > 0 && cycle % o.recreateEach == 0 then 1 else 0
  {
    var a, b := PatternMoves(o), RenewMoves(o, cycle);
    WipesAdd([a[0], a[1]], [a[2]]);
    WipesAdd([a[0]], [a[1]]);
    assert a == [a[0], a[1]] + [a[2]] && [a[0], a[1]] == [a[0]] + [a[1]];
    assert Wipes([]) == 0 && [a[0]][..0] == [] && [a[1]][..0] == [] && [a[2]][..0] == [];
    if |b| == 3 {
      WipesAdd([b[0], b[1]], [b[2]]);
      WipesAdd([b[0]], [b[1]]);
      assert b == [b[0], b[1]] + [b[2]] && [b[0], b[1]] == [b[0]] + [b[1]];
      assert [b[1]][..0] == [] && [b[2]][..0] == [];
    }
    assert [b[0]][..0] == [];
  }
}
