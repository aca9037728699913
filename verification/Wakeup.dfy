/** The handover between the callback that records CONNECTED and the one task that waits for it: a
    flag under a lock, and a `Notify` that stores at most one permit; then the save that it does,
    and the shutdown that waits for it or stops it. Line numbers refer to src/vpn.rs unless
    they name src/main.rs. */
module Wakeup {
  /** `record` holds the lock throughout: it has set the flag, or has notified too. */
  datatype Recorder = Outside | Flagged | Notified

  /** `wait_connected`: about to create its `Notified`, about to check the flag, about to poll,
      registered with the `Notify`, woken from there, or returned; then the save. */
  datatype Waiter = Looping | Checking | Polling | Registered | Woken | Returned | Saving | Saved

  /** The main task: the session runs, is over, and then the save task is waited for or stopped. */
  datatype Main = Running | Over | Awaiting | Aborted | Exited

  datatype State = State(connected: bool, permit: bool, recorder: Recorder, waiter: Waiter, main: Main)

  const INIT := State(false, false, Outside, Looping, Running)

  datatype Event =
    | SetFlag    // line 61, line 67: the lock is taken and the flag set
    | Notify     // line 69
    | Unlock     // line 81
    | Create     // line 85
    | Check      // line 86: takes the lock
    | Poll       // line 89
    | Resume     // line 89, after the wake-up
    | Save       // line 296 of src/main.rs
    | Finish     // line 299 of src/main.rs
    | End        // lines 322 to 328 of src/main.rs: the session is over, and with it all callbacks
    | Decide     // line 330 of src/main.rs: takes the lock
    | Exit       // line 331 or 333 of src/main.rs, and on

  predicate OfWaiter(e: Event) {
    e.Create? || e.Check? || e.Poll? || e.Resume? || e.Save? || e.Finish?
  }

  predicate Enabled(s: State, e: Event) {
    match e
    case SetFlag => s.recorder.Outside? && s.main.Running?
    case Notify => s.recorder.Flagged?
    case Unlock => s.recorder.Notified?
    case Create => s.waiter.Looping?
    case Check => s.waiter.Checking? && s.recorder.Outside?
    case Poll => s.waiter.Polling?
    case Resume => s.waiter.Woken?
    case Save => s.waiter.Returned?
    case Finish => s.waiter.Saving?
    case End => s.main.Running? && s.recorder.Outside?
    case Decide => s.main.Over? && s.recorder.Outside?
    case Exit => s.main.Aborted? || (s.main.Awaiting? && s.waiter.Saved?)
  }

  /** A stopped task may still take steps until it next waits, so stopping it disables none. */
  function Next(s: State, e: Event): State
    requires Enabled(s, e)
  {
    match e
    case SetFlag => s.(connected := true, recorder := Flagged)
    case Notify =>
      var t := s.(recorder := Notified);
      if s.waiter.Registered? then t.(waiter := Woken) else t.(permit := true)
    case Unlock => s.(recorder := Outside)
    case Create => s.(waiter := Checking)
    case Check => s.(waiter := if s.connected then Returned else Polling)
    case Poll => if s.permit then s.(permit := false, waiter := Looping) else s.(waiter := Registered)
    case Resume => s.(waiter := Looping)
    case Save => s.(waiter := Saving)
    case Finish => s.(waiter := Saved)
    case End => s.(main := Over)
    case Decide => s.(main := if s.connected then Awaiting else Aborted)
    case Exit => s.(main := Exited)
  }

  ghost predicate IsRun(s: State, es: seq<Event>, t: State)
    decreases |es|
  {
    if es == [] then s == t
    else Enabled(s, es[0]) && IsRun(Next(s, es[0]), es[1..], t)
  }

  predicate Through(w: Waiter) {
    w.Returned? || w.Saving? || w.Saved?
  }

  /** While the flag is set, a waiter that is about to sleep, or asleep, has its wake-up stored or
      on the way. */
  predicate Safe(s: State) {
    && (s.connected && s.waiter.Polling? ==> s.permit || s.recorder.Flagged?)
    && (s.connected && s.waiter.Registered? ==> s.recorder.Flagged?)
    && (Through(s.waiter) ==> s.connected)
    && (s.recorder.Flagged? || s.permit || s.waiter.Woken? ==> s.connected)
    && (s.waiter.Registered? ==> !s.permit)
    && (!s.main.Running? ==> s.recorder.Outside?)
    && (s.main.Awaiting? ==> s.connected) && (s.main.Aborted? ==> !s.connected)
    && (s.main.Exited? ==> (s.connected <==> s.waiter.Saved?))
  }

  lemma {:induction false} SafeRun(s: State, es: seq<Event>, t: State)
    requires Safe(s) && IsRun(s, es, t)
    ensures Safe(t)
    decreases |es|
  {
    if es != [] {
      SafeRun(Next(s, es[0]), es[1..], t);
    }
  }

  /** No lost wake-up, under any interleaving: when the flag is set and no notification is about to
      be sent, the waiter is not asleep; and it never returns before the flag is set. */
  lemma NoLostWakeup(es: seq<Event>, t: State)
    requires IsRun(INIT, es, t)
    ensures t.connected && !t.recorder.Flagged? ==> !t.waiter.Registered?
    ensures t.waiter.Registered? ==> !t.permit
    ensures Through(t.waiter) ==> t.connected
  {
    SafeRun(INIT, es, t);
  }

  /** Stopping the save task at shutdown interrupts no save and prevents none that was due: a task that
      is stopped has not begun to save, will not, and when the program exits the password has been
      saved exactly if the session was ever connected. */
  lemma ShutdownCutsNoSave(es: seq<Event>, t: State)
    requires IsRun(INIT, es, t)
    ensures t.main.Aborted? ==> !t.connected && !Through(t.waiter)
    ensures t.main.Exited? ==> (t.waiter.Saved? <==> t.connected)
    ensures t.main.Exited? && !t.connected ==> !Through(t.waiter)
  {
    SafeRun(INIT, es, t);
  }

  /** A bound on the steps the waiter still has to take, once connected. */
  function Left(w: Waiter): nat {
    match w
    case Saved => 0
    case Saving => 1
    case Returned => 2
    case Checking => 3
    case Looping => 4
    case Woken => 5
    case Registered => 6
    case Polling => 7
  }

  function WaiterSteps(es: seq<Event>): nat {
    if es == [] then 0 else WaiterSteps(es[1..]) + if OfWaiter(es[0]) then 1 else 0
  }

  /** From the moment the flag is set the waiter takes at most seven more steps, in any run. */
  lemma {:induction false} FewStepsLeft(s: State, es: seq<Event>, t: State)
    requires Safe(s) && s.connected && IsRun(s, es, t)
    ensures WaiterSteps(es) + Left(t.waiter) <= Left(s.waiter) <= 7
    decreases |es|
  {
    if es != [] {
      FewStepsLeft(Next(s, es[0]), es[1..], t);
    }
  }

  /** The waiter's next step, if it has one to take. */
  function Own(w: Waiter): Event {
    match w
    case Looping => Create
    case Checking => Check
    case Polling => Poll
    case Returned => Save
    case Saving => Finish
    case _ => Resume
  }

  /** The waiter, left to itself, takes up to `n` steps. */
  function Alone(s: State, n: nat): State
    decreases n
  {
    if n == 0 || !Enabled(s, Own(s.waiter)) then s
    else Alone(Next(s, Own(s.waiter)), n - 1)
  }

  /** A waiter that can go on is still connected and undisturbed, and closer to its end. */
  lemma OneStepAlone(s: State, n: nat)
    requires Safe(s) && s.connected && s.recorder.Outside? && n > 0 && !s.waiter.Saved?
    ensures var t := Next(s, Own(s.waiter));
      && Enabled(s, Own(s.waiter)) && Alone(s, n) == Alone(t, n - 1)
      && Safe(t) && t.connected && t.recorder.Outside? && Left(t.waiter) < Left(s.waiter) && t.main == s.main
  {
  }

  lemma {:induction false} AloneSaves(s: State, n: nat)
    requires Safe(s) && s.connected && s.recorder.Outside? && Left(s.waiter) <= n
    ensures Alone(s, n).waiter.Saved? && Alone(s, n).main == s.main
    decreases n
  {
    if !s.waiter.Saved? {
      OneStepAlone(s, n);
      AloneSaves(Next(s, Own(s.waiter)), n - 1);
    }
  }

  /** Waiting for the save task at shutdown ends: whatever has happened, once the main task waits the
      save task needs no one else, and after at most seven steps of its own the program can exit. */
  lemma AwaitedSaveFinishes(es: seq<Event>, t: State)
    requires IsRun(INIT, es, t) && t.main.Awaiting?
    ensures Alone(t, 7).waiter.Saved? && Enabled(Alone(t, 7), Exit)
  {
    SafeRun(INIT, es, t);
    AloneSaves(t, 7);
  }
}
