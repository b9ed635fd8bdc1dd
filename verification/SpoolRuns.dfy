/** Client threads add print jobs while the printer thread works through them. A
    step is a lock, a wait, a signal, or what is done to the list of jobs under
    the lock. */
module SpoolRuns {
  import opened Values
  import opened SpoolQueue

  /** A client thread that adds a job. */
  datatype Adder =
    | Lock(job: nat)
    | Put(job: nat)      // has the lock
    | Unlock             // has the lock
    | Signal
    | Gone

  datatype Printer =
    | PickLock
    | Test               // has the lock; jobhead == NULL?
    | Wait               // in pthread_cond_wait
    | Woken              // in pthread_cond_wait, wants the lock back
    | PickUnlock         // has the lock and a job in hand
    | Print
    | DeferLock
    | DeferPut           // has the lock
    | DeferUnlock        // has the lock
    | Sleep

  /** added and done are what has happened; hand is the printer's job, and queue the
      list from head to tail. */
  datatype State = State(added: seq<nat>, done: seq<nat>, hand: Option<nat>, queue: seq<nat>,
                         adders: seq<Adder>, printer: Printer)

  predicate AdderLocks(a: Adder) {
    a.Put? || a.Unlock?
  }

  predicate PrinterLocks(p: Printer) {
    p.Test? || p.PickUnlock? || p.DeferPut? || p.DeferUnlock?
  }

  ghost predicate Free(s: State) {
    !PrinterLocks(s.printer) && forall i :: 0 <= i < |s.adders| ==> !AdderLocks(s.adders[i])
  }

  function Set(s: State, i: nat, a: Adder): State
    requires i < |s.adders|
  {
    s.(adders := s.adders[i := a])
  }

  /** A client's step. The signal comes after the lock is gone, and wakes the printer
      if it waits. */
  ghost predicate Adds(s: State, i: nat, t: State)
    requires i < |s.adders|
  {
    match s.adders[i]
    case Lock(job) => Free(s) && t == Set(s, i, Put(job))
    case Put(job) => t == Set(s, i, Unlock).(added := s.added + [job], queue := s.queue + [job])
    case Unlock => t == Set(s, i, Signal)
    case Signal => t == Set(s, i, Gone).(printer := if s.printer.Wait? then Woken else s.printer)
    case Gone => false
  }

  /** The printer's step. A job is done with when it has been printed or cannot be
      opened; when the printer does not answer it goes back to the head. */
  ghost predicate Prints(s: State, t: State) {
    match s.printer
    case PickLock => Free(s) && t == s.(printer := Test)
    case Test =>
      if s.queue == [] then t == s.(printer := Wait)
      else t == s.(printer := PickUnlock, hand := Some(s.queue[0]), queue := s.queue[1..])
    case Wait => t == s.(printer := Woken)
    case Woken => Free(s) && t == s.(printer := Test)
    case PickUnlock => t == s.(printer := Print)
    case Print =>
      || (s.hand.Some? && t == s.(printer := PickLock, done := s.done + [s.hand.value], hand := None))
      || t == s.(printer := DeferLock)
    case DeferLock => Free(s) && t == s.(printer := DeferPut)
    case DeferPut => s.hand.Some? && t == s.(printer := DeferUnlock, queue := [s.hand.value] + s.queue, hand := None)
    case DeferUnlock => t == s.(printer := Sleep)
    case Sleep => t == s.(printer := PickLock)
  }

  /** Client i, the printer, or a new client with a job. */
  datatype Who = Client(i: nat) | Printing | Arrival(job: nat)

  ghost predicate Next(s: State, w: Who, t: State) {
    match w
    case Client(i) => i < |s.adders| && Adds(s, i, t)
    case Printing => Prints(s, t)
    case Arrival(job) => t == s.(adders := s.adders + [Lock(job)])
  }

  function Init(): State { State([], [], None, [], [], PickLock) }

  /** who[k] takes step k of the run. */
  ghost predicate IsRun(run: seq<State>, who: seq<Who>) {
    && |run| == |who| + 1 && run[0] == Init()
    && forall k {:trigger who[k]} :: 0 <= k < |who| ==> Next(run[k], who[k], run[k + 1])
  }

  // ---- What every step keeps ------------------------------------------------

  function InHand(s: State): seq<nat> {
    if s.hand.Some? then [s.hand.value] else []
  }

  /** Every job is where it should be, in the order of arrival. */
  ghost predicate Conserved(s: State) {
    s.added == s.done + InHand(s) + s.queue
  }

  predicate HasJob(p: Printer) {
    p.PickUnlock? || p.Print? || p.DeferLock? || p.DeferPut?
  }

  predicate WillSignal(a: Adder) {
    a.Unlock? || a.Signal?
  }

  /** The printer does not sleep over a job. */
  ghost predicate Attended(s: State) {
    s.printer.Wait? && s.queue != [] ==> exists i :: 0 <= i < |s.adders| && WillSignal(s.adders[i])
  }

  ghost predicate OneLock(s: State) {
    && (forall i :: 0 <= i < |s.adders| && AdderLocks(s.adders[i]) ==> !PrinterLocks(s.printer))
    && (forall i, j :: 0 <= i < j < |s.adders| ==> !(AdderLocks(s.adders[i]) && AdderLocks(s.adders[j])))
  }

  ghost predicate Inv(s: State) {
    Conserved(s) && (s.hand.Some? <==> HasJob(s.printer)) && Attended(s) && OneLock(s)
  }

  lemma AddsInv(s: State, i: nat, t: State)
    requires Inv(s) && i < |s.adders| && Adds(s, i, t)
    ensures Inv(t)
  {
    if s.adders[i].Put? {
      var job := s.adders[i].job;
      assert s.done + InHand(s) + (s.queue + [job]) == s.added + [job];
      assert WillSignal(t.adders[i]);
    } else if t.printer.Wait? && t.queue != [] {
      var j :| 0 <= j < |s.adders| && WillSignal(s.adders[j]);
      assert WillSignal(t.adders[j]);
    }
  }

  lemma PrintsInv(s: State, t: State)
    requires Inv(s) && Prints(s, t)
    ensures Inv(t)
  {
    if s.printer.Test? && s.queue != [] {
      assert s.queue == [s.queue[0]] + s.queue[1..];
      assert s.done + [] + s.queue == s.done + [s.queue[0]] + s.queue[1..];
    } else if s.printer.Print? && t.printer.PickLock? {
      assert s.done + [s.hand.value] + [] + s.queue == s.done + [s.hand.value] + s.queue;
    } else if s.printer.DeferPut? {
      assert s.done + [] + ([s.hand.value] + s.queue) == s.done + [s.hand.value] + s.queue;
    }
  }

  lemma ArrivesInv(s: State, job: nat)
    requires Inv(s)
    ensures Inv(s.(adders := s.adders + [Lock(job)]))
  {
    var t := s.(adders := s.adders + [Lock(job)]);
    if t.printer.Wait? && t.queue != [] {
      var j :| 0 <= j < |s.adders| && WillSignal(s.adders[j]);
      assert WillSignal(t.adders[j]);
    }
  }

  lemma {:induction false} RunInv(run: seq<State>, who: seq<Who>, k: nat)
    requires IsRun(run, who) && k < |run|
    ensures Inv(run[k])
  {
    if k > 0 {
      RunInv(run, who, k - 1);
      var s, w := run[k - 1], who[k - 1];
      assert Next(s, w, run[k - 1 + 1]);
      hide Inv, Prints, Adds, IsRun;
      match w
      case Client(i) => AddsInv(s, i, run[k]);
      case Printing => PrintsInv(s, run[k]);
      case Arrival(job) => ArrivesInv(s, job);
    }
  }

  /** In every state of every run, the jobs added are, in their order, those finished
      or cancelled, the one in hand, and those on the list; and the printer waits
      while there are jobs only if a client is about to signal. */
  lemma JobsConserved(run: seq<State>, who: seq<Who>, k: nat)
    requires IsRun(run, who) && k < |run|
    ensures var s := run[k];
      && s.added == s.done + InHand(s) + s.queue
      && (s.printer.Wait? && s.queue != [] ==>
            exists i :: 0 <= i < |s.adders| && (s.adders[i].Unlock? || s.adders[i].Signal?))
  {
    RunInv(run, who, k);
    hide IsRun;
    var s := run[k];
    if s.printer.Wait? && s.queue != [] {
      var i :| 0 <= i < |s.adders| && WillSignal(s.adders[i]);
    }
  }

  // ---- The list behind the queue --------------------------------------------

  function Ids(l: seq<Job>): seq<int> {
    seq(|l|, i requires 0 <= i < |l| => l[i].jobid)
  }

  /** The printer's job is this one, which is not on the list. */
  ghost predicate InHandIs(s: State, hand: Job?, l: seq<Job>) {
    s.hand.Some? ==> hand != null && hand.jobid == s.hand.value && hand !in l
  }

  /** What a step does to the linked list: add_job, what printer_thread picks up, or
      replace_job. */
  method ReplayStep(s: State, w: Who, ghost t: State, q: Queue, hand: Job?) returns (h: Job?)
    requires Next(s, w, t) && q.Valid() && Ids(q.list) == s.queue && InHandIs(s, hand, q.list)
    modifies q, q.list, if hand == null then {} else {hand}
    ensures q.Valid() && Ids(q.list) == t.queue && InHandIs(t, h, q.list)
    ensures forall i :: 0 <= i < |q.list| ==> fresh(q.list[i]) || q.list[i] in old(q.list) || q.list[i] == hand
    ensures h == null || h == hand || h in old(q.list)
  {
    hide Free;
    h := hand;
    match w {
      case Client(i) =>
        if s.adders[i].Put? {
          var jp := new Job(s.adders[i].job);
          q.AddJob(jp);
        }
      case Printing =>
        if s.printer.Test? && s.queue != [] {
          assert q.list[0] !in q.list[1..];
          h := q.Pick();
        } else if s.printer.DeferPut? {
          q.ReplaceJob(hand);
        }
      case Arrival(_) =>
    }
  }

  /** At the end of every run the linked list holds the jobs of the queue. */
  method Replay(run: seq<State>, who: seq<Who>) returns (q: Queue, hand: Job?)
    requires IsRun(run, who)
    ensures q.Valid() && Ids(q.list) == run[|who|].queue && InHandIs(run[|who|], hand, q.list)
  {
    hide Next, Ids, Queue.Valid, InHandIs;
    q := new Queue();
    hand := null;
    EmptyList();
    var k := 0;
    while k < |who|
      invariant 0 <= k <= |who| && q.Valid() && Ids(q.list) == run[k].queue && InHandIs(run[k], hand, q.list)
      invariant fresh(q) && fresh(q.list) && (hand != null ==> fresh(hand))
    {
      hand := ReplayStep(run[k], who[k], run[k + 1], q, hand);
      k := k + 1;
    }
  }

  lemma EmptyList()
    ensures Ids([]) == Init().queue && InHandIs(Init(), null, [])
  {
  }
}
