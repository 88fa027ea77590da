/** The timer store behind the timers context: an ordered list of named timers
    and a flag saying whether they run. The state changes only through a pure
    reducer over three kinds of action, and the provider applies the actions it
    is sent one after another, starting from a fixed initial state. */
module TimersContext {

  /** A timer definition. The duration is a number the store only copies and
      never computes with, so an integer stands for it. */
  datatype Timer = Timer(name: string, duration: int)

  /** The whole store: the running flag and the timers in the order they were added. */
  datatype State = State(isRunning: bool, timers: seq<Timer>)

  /** The actions the reducer is written for, and `Unrecognised`, which stands
      for any action object whose type tag is none of the three: the reducer's
      default arm handles those, although the provider never sends one. */
  datatype Action =
    | AddTimer(payload: Timer)
    | StartTimers
    | StopTimers
    | Unrecognised(tag: string)

  /** The two actions that set the running flag. */
  predicate IsToggle(a: Action)
  {
    a.StartTimers? || a.StopTimers?
  }

  /** `p` is an initial segment of `q`: every entry of `p` is in `q` at the same position. */
  predicate IsPrefix(p: seq<Timer>, q: seq<Timer>)
  {
    |p| <= |q| && q[..|p|] == p
  }

  /** The state the store starts in: running, with no timers. */
  function Initial(): (s: State)
    ensures s.isRunning
    ensures |s.timers| == 0
  {
    State(true, [])
  }

  /** One reducer step. Adding a timer appends a copy of the payload and keeps
      the flag; starting and stopping set the flag and keep the list; anything
      else leaves the state as it is. */
  function Reduce(s: State, a: Action): (r: State)
    ensures IsPrefix(s.timers, r.timers)
    ensures a.AddTimer? ==> |r.timers| == |s.timers| + 1 && r.timers[|s.timers|] == a.payload
    ensures !a.AddTimer? ==> r.timers == s.timers
    ensures a.StartTimers? ==> r.isRunning
    ensures a.StopTimers? ==> !r.isRunning
    ensures !IsToggle(a) ==> r.isRunning == s.isRunning
    ensures a.Unrecognised? ==> r == s
  {
    match a
    case AddTimer(t) => s.(timers := s.timers + [Timer(t.name, t.duration)])
    case StartTimers => s.(isRunning := true)
    case StopTimers => s.(isRunning := false)
    case Unrecognised(_) => s
  }

  /** Starting timers that were just started changes nothing. */
  lemma StartIdempotent(s: State)
    ensures Reduce(Reduce(s, StartTimers), StartTimers) == Reduce(s, StartTimers)
  {
  }

  /** Stopping timers that were just stopped changes nothing. */
  lemma StopIdempotent(s: State)
    ensures Reduce(Reduce(s, StopTimers), StopTimers) == Reduce(s, StopTimers)
  {
  }

  /** The flag and the list are independent: a toggle and an addition give the
      same state in either order. */
  lemma ToggleCommutesWithAdd(s: State, a: Action, t: Timer)
    requires IsToggle(a)
    ensures Reduce(Reduce(s, a), AddTimer(t)) == Reduce(Reduce(s, AddTimer(t)), a)
  {
  }

  /** The state after the provider has applied `acts` in order, starting from `s`. */
  function Run(s: State, acts: seq<Action>): (r: State)
    ensures IsPrefix(s.timers, r.timers)
    decreases |acts|
  {
    if acts == [] then s else Run(Reduce(s, acts[0]), acts[1..])
  }

  /** The payloads of the `AddTimer` actions in `acts`, in the order they occur. */
  function Payloads(acts: seq<Action>): (ts: seq<Timer>)
    ensures |ts| <= |acts|
    ensures forall t :: t in ts <==> AddTimer(t) in acts
  {
    if acts == [] then []
    else (if acts[0].AddTimer? then [acts[0].payload] else []) + Payloads(acts[1..])
  }

  /** Applying two batches of actions is applying their concatenation. */
  lemma {:induction false} RunAppend(s: State, a: seq<Action>, b: seq<Action>)
    ensures Run(s, a + b) == Run(Run(s, a), b)
    decreases |a|
  {
    if a == [] {
      assert a + b == b;
    } else {
      assert (a + b)[0] == a[0];
      assert (a + b)[1..] == a[1..] + b;
      RunAppend(Reduce(s, a[0]), a[1..], b);
    }
  }

  /** The list after any sequence of actions is the old list followed by the
      added payloads in the order they were dispatched. */
  lemma {:induction false} RunTimers(s: State, acts: seq<Action>)
    ensures Run(s, acts).timers == s.timers + Payloads(acts)
    decreases |acts|
  {
    if acts != [] {
      RunTimers(Reduce(s, acts[0]), acts[1..]);
    }
  }

  /** From the initial state, the list is exactly the added payloads in order,
      one entry per `AddTimer` action. */
  lemma RunFromInitialTimers(acts: seq<Action>)
    ensures Run(Initial(), acts).timers == Payloads(acts)
  {
    RunTimers(Initial(), acts);
  }

  /** The list never shrinks over a history: the state after any prefix of the
      actions has a list that is an initial segment of the final list. */
  lemma RunHistoryNeverShrinks(s: State, acts: seq<Action>, k: nat)
    requires k <= |acts|
    ensures IsPrefix(Run(s, acts[..k]).timers, Run(s, acts).timers)
  {
    assert acts == acts[..k] + acts[k..];
    RunAppend(s, acts[..k], acts[k..]);
  }

  /** Actions none of which is a toggle leave the running flag as it was. */
  lemma {:induction false} RunKeepsFlagWithoutToggle(s: State, acts: seq<Action>)
    requires forall i :: 0 <= i < |acts| ==> !IsToggle(acts[i])
    ensures Run(s, acts).isRunning == s.isRunning
    decreases |acts|
  {
    if acts != [] {
      assert !IsToggle(acts[0]);
      RunKeepsFlagWithoutToggle(Reduce(s, acts[0]), acts[1..]);
    }
  }

  /** Last write wins: after any actions, the flag is what the last toggle in
      them set it to. */
  lemma RunFlagIsLastToggle(s: State, acts: seq<Action>, i: nat)
    requires i < |acts| && IsToggle(acts[i])
    requires forall j :: i < j < |acts| ==> !IsToggle(acts[j])
    ensures Run(s, acts).isRunning == acts[i].StartTimers?
  {
    var pre, rest, post := acts[..i], acts[i..], acts[i + 1..];
    assert acts == pre + rest;
    RunAppend(s, pre, rest);
    assert rest[0] == acts[i] && rest[1..] == post;
    RunKeepsFlagWithoutToggle(Reduce(Run(s, pre), acts[i]), post);
  }

  /** From the initial state, timers run unless some toggle says otherwise. */
  lemma RunFromInitialWithoutToggle(acts: seq<Action>)
    requires forall i :: 0 <= i < |acts| ==> !IsToggle(acts[i])
    ensures Run(Initial(), acts).isRunning
  {
    RunKeepsFlagWithoutToggle(Initial(), acts);
  }

  /** Adding one timer to the fresh store. */
  lemma StudyScenario()
    ensures Run(Initial(), [AddTimer(Timer("Study", 600))]) == State(true, [Timer("Study", 600)])
  {
  }

  /** Stopping, adding a timer, then starting again. */
  lemma BreakScenario()
    ensures Run(Initial(), [StopTimers, AddTimer(Timer("Break", 300)), StartTimers])
         == State(true, [Timer("Break", 300)])
  {
  }
}
