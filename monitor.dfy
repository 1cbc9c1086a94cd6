/**
 * `ReferenceMonitor` and `NativeReference`: the thread that runs the
 * clean-up action of every tracked object the garbage collector reports
 * unreachable. The collector's reference queue is replaced by an explicit
 * schedule of what each poll of the queue returns; the effects of clean-up
 * actions are recorded, in order, in the monitor's `performed` trace.
 */
module Monitor {
  import opened JavaTypes
  import opened JSTypes

  /** The default pause of a poll, in milliseconds. */
  const DEFAULT_MILLIS_PAUSE: Long := 50

  /**
   * The id source shared by every monitor of the process (the static
   * `AtomicLong idCounter`, which starts at 0).
   */
  class IdCounter {
    var next: nat

    constructor ()
      ensures next == 0
    {
      next := 0;
    }

    /** `getAndIncrement()`: the current value, which then grows by one. */
    method GetAndIncrement() returns (id: nat)
      modifies this
      ensures id == old(next)
      ensures next == old(next) + 1
    {
      id := next;
      next := next + 1;
    }
  }

  /**
   * A tracked entry: its id, the object it watches (seen by the collector
   * only) and the clean-up action fixed at construction. `cleanUp()` runs
   * the action, with no guard: each call runs it once more.
   */
  datatype NativeReference<T, A> = NativeReference(id: nat, referent: T, cleanUpAction: A)

  /** What one poll of the reference queue gives: nothing within the pause, an entry, or an `InterruptedException`. */
  datatype PollResult<T, A> = TimedOut | Dequeued(ref: NativeReference<T, A>) | PollInterrupted

  /** One step of the monitor thread's life: a poll, or another thread calling `interrupt()`. */
  datatype Tick<T, A> = Polled(result: PollResult<T, A>) | InterruptRequested

  /** The thread's state: not started, in its loop, or returned from `run`. */
  datatype Phase = Created | Running | Stopped

  /** The actions run by the polls of `ticks`, in order: one for each dequeued entry. */
  function CleanedActions<T, A>(ticks: seq<Tick<T, A>>): seq<A>
    decreases |ticks|
  {
    if |ticks| == 0 then []
    else
      var last := ticks[|ticks| - 1];
      CleanedActions(ticks[..|ticks| - 1]) +
        (if last.Polled? && last.result.Dequeued? then [last.result.ref.cleanUpAction] else [])
  }

  /** The ids of the entries dequeued by the polls of `ticks`. */
  function RemovedIds<T, A>(ticks: seq<Tick<T, A>>): set<nat>
    decreases |ticks|
  {
    if |ticks| == 0 then {}
    else
      var last := ticks[|ticks| - 1];
      RemovedIds(ticks[..|ticks| - 1]) +
        (if last.Polled? && last.result.Dequeued? then {last.result.ref.id} else {})
  }

  /** The position of the first interrupt request in `ticks`, or `|ticks|` when there is none. */
  function FirstInterrupt<T, A>(ticks: seq<Tick<T, A>>): (n: nat)
    ensures n <= |ticks|
    ensures n < |ticks| ==> ticks[n].InterruptRequested?
    ensures forall j :: 0 <= j < n ==> ticks[j].Polled?
  {
    FirstInterruptFrom(ticks, 0)
  }

  /** The position of the first interrupt request at or after `k`. */
  function FirstInterruptFrom<T, A>(ticks: seq<Tick<T, A>>, k: nat): (n: nat)
    requires k <= |ticks|
    requires forall j :: 0 <= j < k ==> ticks[j].Polled?
    ensures k <= n <= |ticks|
    ensures n < |ticks| ==> ticks[n].InterruptRequested?
    ensures forall j :: 0 <= j < n ==> ticks[j].Polled?
    decreases |ticks| - k
  {
    if k == |ticks| then k
    else if ticks[k].InterruptRequested? then k
    else FirstInterruptFrom(ticks, k + 1)
  }

  class ReferenceMonitor<T, A> {
    const ids: IdCounter
    const millisPause: Long
    /**
     * Whether the thread is a daemon. The current monitor sets it; the legacy
     * one leaves it as a new `Thread` inherits it, from the creating thread.
     */
    const daemon: bool
    var phase: Phase
    var interrupted: bool
    var references: map<nat, NativeReference<T, A>>
    /** The clean-up actions run so far, in order. */
    var performed: seq<A>

    /** Every live entry is filed under its own id, and every id was drawn from the counter. */
    ghost predicate Valid()
      reads this, ids
    {
      forall id | id in references :: references[id].id == id && id < ids.next
    }

    /**
     * `ReferenceMonitor(millisPause)`: the flag is false and no entry is live;
     * `creatorIsDaemon` is the daemon status of the thread that constructs it.
     */
    constructor (generation: Generation, millisPause: Long, ids: IdCounter, creatorIsDaemon: bool)
      ensures this.ids == ids && this.millisPause == millisPause
      ensures daemon == (generation == Current || creatorIsDaemon)
      ensures phase == Created && !interrupted
      ensures references == map[] && performed == []
      ensures Valid()
    {
      this.ids := ids;
      this.millisPause := millisPause;
      daemon := generation == Current || creatorIsDaemon;
      phase := Created;
      interrupted := false;
      references := map[];
      performed := [];
    }

    /** `ReferenceMonitor()` of the current generation: a daemon pausing 50 ms. */
    constructor Default(ids: IdCounter)
      ensures this.ids == ids && millisPause == DEFAULT_MILLIS_PAUSE && daemon
      ensures phase == Created && !interrupted
      ensures references == map[] && performed == []
      ensures Valid()
    {
      this.ids := ids;
      millisPause := DEFAULT_MILLIS_PAUSE;
      daemon := true;
      phase := Created;
      interrupted := false;
      references := map[];
      performed := [];
    }

    /** `start()`: the thread enters `run`. */
    method Start()
      requires phase == Created
      modifies this
      ensures phase == Running
      ensures interrupted == old(interrupted) && references == old(references) && performed == old(performed)
    {
      phase := Running;
    }

    /** `track(object, cleanUpAction)`: one new entry under a fresh id, no other entry changed. */
    method Track(tracked: T, cleanUpAction: A)
      requires Valid()
      modifies this, ids
      ensures Valid()
      ensures old(ids.next) !in old(references)
      ensures references == old(references)[old(ids.next) := NativeReference(old(ids.next), tracked, cleanUpAction)]
      ensures ids.next == old(ids.next) + 1
      ensures phase == old(phase) && interrupted == old(interrupted) && performed == old(performed)
    {
      var id := ids.GetAndIncrement();
      references := references[id := NativeReference(id, tracked, cleanUpAction)];
    }

    /** `clean(ref)`: runs the entry's action, then removes only its id. */
    method Clean(ref: NativeReference<T, A>)
      modifies this
      ensures performed == old(performed) + [ref.cleanUpAction]
      ensures references == old(references) - {ref.id}
      ensures phase == old(phase) && interrupted == old(interrupted)
    {
      performed := performed + [ref.cleanUpAction];
      references := references - {ref.id};
    }

    /**
     * The body of one loop iteration: nothing happens on a timed-out poll or
     * a caught `InterruptedException`; a dequeued entry is cleaned once.
     */
    method PollStep(polled: PollResult<T, A>)
      requires phase == Running
      modifies this
      ensures polled.Dequeued? ==> performed == old(performed) + [polled.ref.cleanUpAction]
      ensures polled.Dequeued? ==> references == old(references) - {polled.ref.id}
      ensures !polled.Dequeued? ==> performed == old(performed) && references == old(references)
      ensures phase == Running && interrupted == old(interrupted)
    {
      match polled
      case Dequeued(ref) =>
        Clean(ref);
      case TimedOut =>
      case PollInterrupted =>
    }

    /** `interrupt()`: sets the flag and nothing else; it forces no clean-up. */
    method Interrupt()
      modifies this
      ensures interrupted
      ensures phase == old(phase) && references == old(references) && performed == old(performed)
    {
      interrupted := true;
    }

    /** Leaving the loop: the live map is emptied without running the remaining actions. */
    method Exit()
      requires phase == Running && interrupted
      modifies this
      ensures phase == Stopped && interrupted
      ensures references == map[]
      ensures performed == old(performed)
    {
      references := map[];
      phase := Stopped;
    }

    /**
     * `run()` over a schedule: while the flag is false it polls and cleans;
     * once another thread has interrupted it, the loop ends and the live map
     * is emptied. Only the polls before the first interrupt request happen.
     */
    method Run(schedule: seq<Tick<T, A>>)
      requires phase == Running && !interrupted
      modifies this
      ensures performed == old(performed) + CleanedActions(schedule[..FirstInterrupt(schedule)])
      ensures FirstInterrupt(schedule) < |schedule| ==>
                phase == Stopped && interrupted && references == map[]
      ensures FirstInterrupt(schedule) == |schedule| ==>
                phase == Running && !interrupted && references == old(references) - RemovedIds(schedule)
    {
      var i := 0;
      while i < |schedule| && !interrupted
        invariant 0 <= i <= |schedule|
        invariant phase == Running
        invariant !interrupted ==> i <= FirstInterrupt(schedule)
        invariant interrupted ==> i == FirstInterrupt(schedule) + 1
        invariant !interrupted ==> forall j :: 0 <= j < i ==> schedule[j].Polled?
        invariant performed == old(performed) + CleanedActions(schedule[..i])
        invariant !interrupted ==> references == old(references) - RemovedIds(schedule[..i])
        decreases |schedule| - i
      {
        var tick := schedule[i];
        match tick
        case Polled(result) =>
          PollStep(result);
          assert schedule[..i + 1][..i] == schedule[..i];
          i := i + 1;
        case InterruptRequested =>
          Interrupt();
          assert schedule[..i + 1][..i] == schedule[..i];
          i := i + 1;
      }
      if interrupted {
        assert schedule[..i][..i - 1] == schedule[..i - 1];
        Exit();
      } else {
        assert schedule[..i] == schedule;
      }
    }
  }

  /**
   * The id counter is one static `AtomicLong` behind every monitor. Tracking
   * on one of two monitors over the same counter files the entry under an id
   * the other has never been given, so their live ids stay apart.
   */
  method TrackBeside<T, A>(m: ReferenceMonitor<T, A>, other: ReferenceMonitor<T, A>, tracked: T, cleanUpAction: A)
    requires m != other && m.ids == other.ids && m.Valid() && other.Valid()
    requires m.references.Keys !! other.references.Keys
    modifies m, m.ids
    ensures m.Valid() && other.Valid()
    ensures m.references.Keys == old(m.references.Keys) + {old(m.ids.next)}
    ensures old(m.ids.next) !in other.references
    ensures m.references.Keys !! other.references.Keys
  {
    m.Track(tracked, cleanUpAction);
  }

  /** Splitting a schedule splits the actions its polls run. */
  lemma {:induction false} CleanedActionsAppend<T, A>(a: seq<Tick<T, A>>, b: seq<Tick<T, A>>)
    ensures CleanedActions(a + b) == CleanedActions(a) + CleanedActions(b)
    decreases |b|
  {
    if |b| == 0 {
      assert a + b == a;
    } else {
      var b' := b[..|b| - 1];
      assert (a + b)[..|a + b| - 1] == a + b';
      assert (a + b)[|a + b| - 1] == b[|b| - 1];
      CleanedActionsAppend(a, b');
    }
  }

  /** An id leaves the live map only if a poll dequeued the entry filed under it. */
  lemma {:induction false} RemovedIdsAreDequeued<T, A>(ticks: seq<Tick<T, A>>, id: nat)
    ensures id in RemovedIds(ticks) <==>
              exists j :: 0 <= j < |ticks| && ticks[j].Polled? && ticks[j].result.Dequeued? && ticks[j].result.ref.id == id
    decreases |ticks|
  {
    if |ticks| > 0 {
      var prefix := ticks[..|ticks| - 1];
      RemovedIdsAreDequeued(prefix, id);
      if id in RemovedIds(prefix) {
        var j :| 0 <= j < |prefix| && prefix[j].Polled? && prefix[j].result.Dequeued? && prefix[j].result.ref.id == id;
        assert ticks[j] == prefix[j];
      }
      if exists j :: 0 <= j < |ticks| && ticks[j].Polled? && ticks[j].result.Dequeued? && ticks[j].result.ref.id == id {
        var j :| 0 <= j < |ticks| && ticks[j].Polled? && ticks[j].result.Dequeued? && ticks[j].result.ref.id == id;
        if j < |prefix| {
          assert prefix[j] == ticks[j];
        }
      }
    }
  }

  /**
   * Every action run belongs to an entry some poll dequeued: interrupting,
   * timed-out polls and caught `InterruptedException`s run none.
   */
  lemma {:induction false} CleanedActionsAreDequeued<T, A>(ticks: seq<Tick<T, A>>, k: nat)
    requires k < |CleanedActions(ticks)|
    ensures exists j :: 0 <= j < |ticks| && ticks[j].Polled? && ticks[j].result.Dequeued? &&
                        ticks[j].result.ref.cleanUpAction == CleanedActions(ticks)[k]
    decreases |ticks|
  {
    var prefix := ticks[..|ticks| - 1];
    var last := ticks[|ticks| - 1];
    if k < |CleanedActions(prefix)| {
      CleanedActionsAreDequeued(prefix, k);
      var j :| 0 <= j < |prefix| && prefix[j].Polled? && prefix[j].result.Dequeued? &&
               prefix[j].result.ref.cleanUpAction == CleanedActions(prefix)[k];
      assert ticks[j] == prefix[j];
    } else {
      assert ticks[|ticks| - 1] == last;
    }
  }

  /**
   * There is no already-cleaned guard: an entry reported twice has its
   * action run twice, so running each action at most once rests on the
   * collector reporting each entry once.
   */
  lemma ReportedTwiceCleanedTwice<T, A>(ref: NativeReference<T, A>)
    ensures CleanedActions([Polled(Dequeued(ref)), Polled(Dequeued(ref))]) == [ref.cleanUpAction, ref.cleanUpAction]
  {
    var one: seq<Tick<T, A>> := [Polled(Dequeued(ref))];
    var ticks := [Polled(Dequeued(ref)), Polled(Dequeued(ref))];
    assert one[..0] == [];
    assert CleanedActions(one) == [ref.cleanUpAction];
    assert ticks[..1] == one;
  }
}
