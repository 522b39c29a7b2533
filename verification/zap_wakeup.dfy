/**
 The end of a namespace: its reaper sleeps in zap_pid_ns_processes until only its own pids are
 left, and free_pid wakes it.  Reaper, free_pid and alloc_pid (in a namespace further down, which
 counts here too) run interleaved, one shared access a step; pidmap_lock keeps a free_pid from
 being interleaved with another one or with an alloc_pid.
 */
module ZapWakeup {
  import opened Options

  /** Where the reaper is in its loop. */
  datatype Pc = Setting | Checking | Scheduling | Asleep | Done

  /**
   count: pid_allocated, allocation being disabled; own: init_pids; interruptible: the state of
   the reaper; freer: the value a free_pid has just decremented the counter to, before it wakes.
   */
  datatype Zap = Zap(count: nat, own: nat, pc: Pc, interruptible: bool, freer: Option<nat>)

  datatype Step = SetState | Check | Schedule | Decrement | Wake | AllocBelow | OtherWake

  /** The step can be taken. */
  predicate Enabled(z: Zap, s: Step) {
    match s
    case SetState => z.pc == Setting
    case Check => z.pc == Checking
    case Schedule => z.pc == Scheduling
    case Decrement => z.freer == None && z.count > z.own && z.pc != Done
    case Wake => z.freer.Some?
    case AllocBelow => z.freer == None && z.pc != Done
    case OtherWake => z.pc == Asleep
  }

  /** wake_up_process: a sleeping reaper goes on after schedule(), at the head of its loop. */
  function WakeUp(z: Zap): Zap {
    z.(interruptible := false, pc := if z.pc == Asleep then Setting else z.pc)
  }

  function Next(z: Zap, s: Step): Zap
    requires Enabled(z, s)
  {
    match s
    case SetState => z.(interruptible := true, pc := Checking)
    case Check => if z.count == z.own then z.(interruptible := false, pc := Done) else z.(pc := Scheduling)
    case Schedule => z.(pc := if z.interruptible then Asleep else Setting)
    case Decrement => z.(count := z.count - 1, freer := Some(z.count - 1))
    case Wake => (if z.freer == Some(1) || z.freer == Some(2) then WakeUp(z) else z).(freer := None)
    case AllocBelow => z.(count := z.count + 1)
    case OtherWake => WakeUp(z)
  }

  /** The reaper enters the loop, with its own pids and maybe others still allocated. */
  predicate Initial(z: Zap) {
    (z.own == 1 || z.own == 2) && z.count >= z.own && z.pc == Setting && z.freer == None
  }

  /** What holds throughout. */
  predicate Inv(z: Zap) {
    && (z.own == 1 || z.own == 2) && z.count >= z.own
    && (z.freer.Some? ==> z.freer.value == z.count)
    && (z.pc == Asleep ==> z.interruptible)
    && (z.count == z.own && z.interruptible && (z.pc == Scheduling || z.pc == Asleep) ==> z.freer == Some(z.own))
  }

  ghost predicate IsRun(zs: seq<Zap>, ss: seq<Step>) {
    && |zs| == |ss| + 1 && Initial(zs[0])
    && forall i | 0 <= i < |ss| :: Enabled(zs[i], ss[i]) && zs[i + 1] == Next(zs[i], ss[i])
  }

  lemma {:induction false} RunInv(zs: seq<Zap>, ss: seq<Step>, k: nat)
    requires IsRun(zs, ss) && k < |zs|
    ensures Inv(zs[k])
  {
    if k > 0 {
      RunInv(zs, ss, k - 1);
      assert Enabled(zs[k - 1], ss[k - 1]) && zs[k] == Next(zs[k - 1], ss[k - 1]);
    }
  }

  /**
   No wake-up is lost: whenever the reaper sleeps although only its own pids are left, a
   free_pid is between its decrement and its wake, and that wake ends the sleep.
   */
  lemma NoLostWakeup(zs: seq<Zap>, ss: seq<Step>, k: nat)
    requires IsRun(zs, ss) && k < |zs| && zs[k].pc == Asleep && zs[k].count == zs[k].own
    ensures zs[k].freer == Some(zs[k].own) && Enabled(zs[k], Wake) && Next(zs[k], Wake).pc == Setting
  {
    RunInv(zs, ss, k);
  }

  /** When the reaper leaves its loop, only its own pids were left. */
  lemma {:induction false} DoneIsAlone(zs: seq<Zap>, ss: seq<Step>, k: nat)
    requires IsRun(zs, ss) && k < |zs| && zs[k].pc == Done
    ensures zs[k].count == zs[k].own
  {
    assert k > 0;
    assert Enabled(zs[k - 1], ss[k - 1]) && zs[k] == Next(zs[k - 1], ss[k - 1]);
    if zs[k - 1].pc == Done {
      DoneIsAlone(zs, ss, k - 1);
    }
  }

  /** Unless the reaper is done, someone can move: the reaper, the waker, or a task that exits. */
  lemma NeverStuck(zs: seq<Zap>, ss: seq<Step>, k: nat)
    requires IsRun(zs, ss) && k < |zs| && zs[k].pc != Done
    ensures exists s: Step :: s != AllocBelow && s != OtherWake && Enabled(zs[k], s)
  {
    var z := zs[k];
    RunInv(zs, ss, k);
    var s := match z.pc
      case Setting => SetState
      case Checking => Check
      case Scheduling => Schedule
      case _ => if z.freer.Some? then Wake else Decrement;
    assert Enabled(z, s);
  }

  /** How often step s has been taken. */
  function Times(ss: seq<Step>, s: Step): nat {
    if ss == [] then 0 else Times(ss[..|ss| - 1], s) + if ss[|ss| - 1] == s then 1 else 0
  }

  /** The counter counts: one more for every pid allocated further down, one less for every release. */
  lemma {:induction false} CountIsKept(zs: seq<Zap>, ss: seq<Step>, k: nat)
    requires IsRun(zs, ss) && k < |zs|
    ensures zs[k].count == zs[0].count + Times(ss[..k], AllocBelow) - Times(ss[..k], Decrement)
            && zs[k].own == zs[0].own
  {
    if k > 0 {
      CountIsKept(zs, ss, k - 1);
      assert ss[..k][..k - 1] == ss[..k - 1];
      assert Enabled(zs[k - 1], ss[k - 1]) && zs[k] == Next(zs[k - 1], ss[k - 1]);
    }
  }

  /**
   A release disturbs the reaper only with one or two pids left: no other wakes it up, or keeps it
   from going to sleep.
   */
  lemma WokenWhen(zs: seq<Zap>, ss: seq<Step>, k: nat)
    requires IsRun(zs, ss) && k < |ss|
    requires (zs[k].pc == Asleep && zs[k + 1].pc != Asleep) || (zs[k].interruptible && !zs[k + 1].interruptible)
    ensures ss[k] == OtherWake || (ss[k] == Wake && (zs[k].count == 1 || zs[k].count == 2)) || zs[k + 1].pc == Done
  {
    RunInv(zs, ss, k);
  }

  /** How far the reaper is from sleep or its end; a wake sets it back. */
  function Distance(z: Zap): nat {
    match z.pc
    case Done => 0
    case Asleep => 4
    case Scheduling => if z.interruptible then 5 else 8
    case Checking => if z.interruptible then 6 else 9
    case Setting => 7
  }

  function Measure(z: Zap): nat
    requires z.count >= z.own
  {
    12 * (z.count - z.own) + (if z.freer.Some? then 6 else 0) + Distance(z)
  }

  lemma MeasureFalls(z: Zap, s: Step)
    requires Inv(z) && Enabled(z, s) && s != AllocBelow && s != OtherWake
    ensures Inv(Next(z, s)) && Measure(Next(z, s)) < Measure(z)
  {
  }

  /**
   The teardown ends: once no more pids are allocated further down, a run can go on for a
   bounded number of steps only, and by NeverStuck it does not stop before the reaper is done.
   */
  lemma {:induction false} TeardownEnds(zs: seq<Zap>, ss: seq<Step>, from: nat, k: nat)
    requires IsRun(zs, ss) && from <= k < |zs|
    requires forall i | from <= i < k :: ss[i] != AllocBelow && ss[i] != OtherWake
    ensures Inv(zs[from]) && Inv(zs[k]) && k - from + Measure(zs[k]) <= Measure(zs[from])
  {
    RunInv(zs, ss, from);
    if from < k {
      TeardownEnds(zs, ss, from, k - 1);
      assert Enabled(zs[k - 1], ss[k - 1]) && zs[k] == Next(zs[k - 1], ss[k - 1]);
      MeasureFalls(zs[k - 1], ss[k - 1]);
    }
  }
}
