/**
 The resident rate enforcer: notifications only restart a settle window, and a
 one-second tick corrects a rate that stayed wrong through a whole quiet window,
 backing off when something keeps undoing the corrections. Times are seconds.
 */
module RateEnforcer {

  const SETTLE_SECS: real := 8.0
  const BACKOFF_SECS: real := 60.0
  const BURST_WINDOW: real := 60.0
  const BURST_LIMIT: nat := 5
  const MAX_DEVICES: nat := 64

  datatype State = State(lastActivity: real, burstStart: real, burstCount: nat, settle: real)

  /** A notification, or a tick: whether the rate is found wrong, and when the tick ends.
      `wrongAfter` is the true state of the rate when the event is over. */
  datatype Event =
    | Notify(at: real, wrongAfter: bool)
    | Tick(at: real, wrong: bool, done: real, wrongAfter: bool)

  /** The process at its start, before the first tick. */
  function Begin(now: real): State {
    State(now, now, 0, SETTLE_SECS)
  }

  predicate Corrects(s: State, e: Event) {
    e.Tick? && e.wrong && e.at - s.lastActivity >= s.settle
  }

  function Count(s: State, now: real): State {
    var w := if now - s.burstStart > BURST_WINDOW then s.(burstStart := now, burstCount := 0) else s;
    var n := w.burstCount + 1;
    if n > BURST_LIMIT then w.(burstCount := n, settle := BACKOFF_SECS)
    else if w.settle != SETTLE_SECS && n <= 1 then w.(burstCount := n, settle := SETTLE_SECS)
    else w.(burstCount := n)
  }

  function Step(s: State, e: Event): State {
    match e
    case Notify(at, _) => s.(lastActivity := at)
    case Tick(at, wrong, done, _) => if Corrects(s, e) then Count(s, at).(lastActivity := done) else s
  }

  function Run(s: State, events: seq<Event>): State
    decreases |events|
  {
    if events == [] then s else Step(Run(s, events[..|events| - 1]), events[|events| - 1])
  }

  /** The state in which event i finds the process. */
  function Before(s: State, events: seq<Event>, i: nat): State
    requires i <= |events|
  {
    Run(s, events[..i])
  }

  function End(e: Event): real {
    if e.Notify? then e.at else e.done
  }

  /** The run loop handles one event after the other. */
  predicate Ordered(now: real, events: seq<Event>) {
    (forall i :: 0 <= i < |events| ==> now <= events[i].at <= End(events[i])) &&
    (forall i, j :: 0 <= i < j < |events| ==> End(events[i]) <= events[j].at)
  }

  /** Did event i count as activity: a notification, or a correction? */
  predicate Active(s: State, events: seq<Event>, i: nat)
    requires i < |events|
  {
    events[i].Notify? || Corrects(Before(s, events, i), events[i])
  }

  // ---------- what every run keeps ----------

  ghost predicate Inv(s: State) {
    && s.burstCount <= BURST_LIMIT + 1
    && s.settle == (if s.burstCount > BURST_LIMIT then BACKOFF_SECS else SETTLE_SECS)
    && s.lastActivity >= s.burstStart
    && (s.burstCount > 0 ==> s.lastActivity >= s.burstStart + SETTLE_SECS * (s.burstCount - 1) as real)
  }

  lemma CountKeeps(s: State, now: real)
    requires Inv(s) && now - s.lastActivity >= s.settle
    ensures forall done :: done >= now ==> Inv(Count(s, now).(lastActivity := done))
    ensures s.burstCount > BURST_LIMIT ==> Count(s, now) == State(s.lastActivity, now, 1, SETTLE_SECS)
  {
  }

  lemma BeforeNext(s: State, events: seq<Event>, i: nat)
    requires i < |events|
    ensures Before(s, events, i + 1) == Step(Before(s, events, i), events[i])
  {
    assert events[..i + 1][..i] == events[..i];
  }

  lemma {:induction false} InvHolds(t0: real, events: seq<Event>, i: nat)
    requires Ordered(t0, events) && i <= |events|
    ensures var s := Before(Begin(t0), events, i);
            Inv(s) && s.lastActivity <= (if i == 0 then t0 else End(events[i - 1]))
  {
    if i > 0 {
      InvHolds(t0, events, i - 1);
      BeforeNext(Begin(t0), events, i - 1);
      var s, e := Before(Begin(t0), events, i - 1), events[i - 1];
      if Corrects(s, e) {
        CountKeeps(s, e.at);
      }
    }
  }

  /** Activity is never forgotten. */
  lemma {:induction false} ActivityIsSeen(t0: real, events: seq<Event>, j: nat, i: nat)
    requires Ordered(t0, events) && j < i <= |events| && Active(Begin(t0), events, j)
    ensures Before(Begin(t0), events, i).lastActivity >= End(events[j])
    decreases i - j
  {
    BeforeNext(Begin(t0), events, i - 1);
    if j < i - 1 {
      ActivityIsSeen(t0, events, j, i - 1);
      InvHolds(t0, events, i - 1);
    }
  }

  /** No correction within the settle time, 8 seconds at least, of any notification
      or earlier correction. */
  lemma CorrectionsWaitForQuiet(t0: real, events: seq<Event>, j: nat, i: nat)
    requires Ordered(t0, events) && j < i < |events|
    requires Active(Begin(t0), events, j) && Corrects(Before(Begin(t0), events, i), events[i])
    ensures events[i].at - End(events[j]) >= Before(Begin(t0), events, i).settle >= 8.0
  {
    ActivityIsSeen(t0, events, j, i);
    InvHolds(t0, events, i);
  }

  /** Nor within 8 seconds of the start. */
  lemma FirstCorrectionWaits(t0: real, events: seq<Event>, i: nat)
    requires Ordered(t0, events) && i < |events| && Corrects(Before(Begin(t0), events, i), events[i])
    ensures events[i].at - t0 >= 8.0
  {
    StartIsSeen(t0, events, i);
    InvHolds(t0, events, i);
  }

  lemma {:induction false} StartIsSeen(t0: real, events: seq<Event>, i: nat)
    requires Ordered(t0, events) && i <= |events|
    ensures Before(Begin(t0), events, i).lastActivity >= t0
  {
    if i > 0 {
      StartIsSeen(t0, events, i - 1);
      BeforeNext(Begin(t0), events, i - 1);
    }
  }

  // ---------- bursts ----------

  /** The window of event i began with event w: the last correction that found the
      previous window more than 60 seconds old. */
  predicate OpensWindow(s: State, events: seq<Event>, i: nat)
    requires i < |events|
  {
    var b := Before(s, events, i);
    Corrects(b, events[i]) && events[i].at - b.burstStart > BURST_WINDOW
  }

  /** Corrections since the window opened, counted from the events. */
  function InWindow(s: State, events: seq<Event>, i: nat): nat
    requires i <= |events|
  {
    if i == 0 then 0
    else if OpensWindow(s, events, i - 1) then 1
    else InWindow(s, events, i - 1) + (if Corrects(Before(s, events, i - 1), events[i - 1]) then 1 else 0)
  }

  lemma {:induction false} CountIsInWindow(t0: real, events: seq<Event>, i: nat)
    requires i <= |events|
    ensures Before(Begin(t0), events, i).burstCount == InWindow(Begin(t0), events, i)
  {
    if i > 0 {
      CountIsInWindow(t0, events, i - 1);
      BeforeNext(Begin(t0), events, i - 1);
    }
  }

  /** A window never sees more than six corrections. */
  lemma BurstsAreSmall(t0: real, events: seq<Event>, i: nat)
    requires Ordered(t0, events) && i <= |events|
    ensures InWindow(Begin(t0), events, i) <= 6
  {
    CountIsInWindow(t0, events, i);
    InvHolds(t0, events, i);
  }

  predicate QuietBetween(s: State, events: seq<Event>, j: nat, i: nat)
    requires i <= |events|
  {
    forall k :: j < k < i ==> !Corrects(Before(s, events, k), events[k])
  }

  lemma {:induction false} BackOffLasts(t0: real, events: seq<Event>, j: nat, i: nat)
    requires Ordered(t0, events) && j < i <= |events| && QuietBetween(Begin(t0), events, j, i)
    ensures var a, b := Before(Begin(t0), events, j + 1), Before(Begin(t0), events, i);
            b.settle == a.settle && b.burstCount == a.burstCount
    decreases i - j
  {
    if j + 1 < i {
      BackOffLasts(t0, events, j, i - 1);
      BeforeNext(Begin(t0), events, i - 1);
    }
  }

  /** The sixth correction of a window is followed by 60 seconds without one; the
      next opens a window of its own and brings the 8 second settle time back. */
  lemma SixthCorrectionBacksOff(t0: real, events: seq<Event>, j: nat, i: nat)
    requires Ordered(t0, events) && j < i < |events| && QuietBetween(Begin(t0), events, j, i)
    requires Corrects(Before(Begin(t0), events, j), events[j]) && InWindow(Begin(t0), events, j + 1) == 6
    requires Corrects(Before(Begin(t0), events, i), events[i])
    ensures events[i].at - events[j].done >= 60.0
    ensures OpensWindow(Begin(t0), events, i) && Before(Begin(t0), events, i + 1).settle == 8.0
  {
    CountIsInWindow(t0, events, j + 1);
    InvHolds(t0, events, j + 1);
    BackOffLasts(t0, events, j, i);
    ActivityIsSeen(t0, events, j, i);
    InvHolds(t0, events, i);
    BeforeNext(Begin(t0), events, i);
    CountKeeps(Before(Begin(t0), events, i), events[i].at);
  }

  // ---------- exactly when it corrects ----------

  /** When something last moved, before event i. */
  function LastMove(t0: real, events: seq<Event>, i: nat): real
    requires i <= |events|
  {
    if i == 0 then t0
    else if Active(Begin(t0), events, i - 1) then End(events[i - 1])
    else LastMove(t0, events, i - 1)
  }

  /** When the present window opened. */
  function WindowStart(t0: real, events: seq<Event>, i: nat): real
    requires i <= |events|
  {
    if i == 0 then t0
    else if OpensWindow(Begin(t0), events, i - 1) then events[i - 1].at
    else WindowStart(t0, events, i - 1)
  }

  lemma {:induction false} StateIsRemembered(t0: real, events: seq<Event>, i: nat)
    requires i <= |events|
    ensures var s := Before(Begin(t0), events, i);
            s.lastActivity == LastMove(t0, events, i) && s.burstStart == WindowStart(t0, events, i)
  {
    if i > 0 {
      StateIsRemembered(t0, events, i - 1);
      BeforeNext(Begin(t0), events, i - 1);
    }
  }

  /** A tick corrects a wrong rate if and only if nothing moved for 8 seconds, or for 60
      after six corrections in a window. */
  lemma CorrectionsAreExact(t0: real, events: seq<Event>, i: nat)
    requires Ordered(t0, events) && i < |events|
    ensures Corrects(Before(Begin(t0), events, i), events[i]) <==>
            events[i].Tick? && events[i].wrong &&
            events[i].at - LastMove(t0, events, i) >= (if InWindow(Begin(t0), events, i) == 6 then 60.0 else 8.0)
  {
    StateIsRemembered(t0, events, i);
    CountIsInWindow(t0, events, i);
    InvHolds(t0, events, i);
  }

  /** And a correction opens a new window if and only if the present one is more than
      60 seconds old. */
  lemma WindowsAreExact(t0: real, events: seq<Event>, i: nat)
    requires i < |events|
    ensures OpensWindow(Begin(t0), events, i) <==>
            Corrects(Before(Begin(t0), events, i), events[i]) && events[i].at - WindowStart(t0, events, i) > 60.0
  {
    StateIsRemembered(t0, events, i);
  }

  // ---------- the rate itself ----------

  /** The state of the rate between events. */
  function Wrong(initially: bool, events: seq<Event>, i: nat): bool
    requires i <= |events|
  {
    if i == 0 then initially else events[i - 1].wrongAfter
  }

  /** Ticks see the rate as it is, and it changes only with a notification or a correction. */
  predicate Announced(initially: bool, t0: real, events: seq<Event>) {
    forall i :: 0 <= i < |events| ==>
      (events[i].Tick? ==> events[i].wrong == Wrong(initially, events, i)) &&
      (!Active(Begin(t0), events, i) ==> events[i].wrongAfter == Wrong(initially, events, i))
  }

  /** Whatever a correction corrects was wrong through its whole settle window. */
  lemma {:induction false} WrongAllAlong(initially: bool, t0: real, events: seq<Event>, k: nat, i: nat)
    requires Ordered(t0, events) && Announced(initially, t0, events)
    requires k <= i < |events| && Corrects(Before(Begin(t0), events, i), events[i])
    requires forall j :: k <= j < i ==> End(events[j]) > events[i].at - Before(Begin(t0), events, i).settle
    ensures Wrong(initially, events, k)
    decreases i - k
  {
    if k < i {
      WrongAllAlong(initially, t0, events, k + 1, i);
      if Active(Begin(t0), events, k) {
        CorrectionsWaitForQuiet(t0, events, k, i);
      }
    }
  }

  // ---------- devices ----------

  /** An audio device as the enforcer reads it; `accepts` says whether a write takes. */
  datatype Device = Device(named: bool, isTarget: bool, readable: bool, rate: real, accepts: bool)

  predicate NeedsPin(d: Device, want: real) {
    d.named && d.isTarget && d.readable && d.rate != want
  }

  /** The system returns at most 64 devices. */
  function Listed(n: nat): nat {
    if n > MAX_DEVICES then MAX_DEVICES else n
  }

  predicate AnyWrong(devices: seq<Device>, want: real) {
    exists i :: 0 <= i < Listed(|devices|) && NeedsPin(devices[i], want)
  }

  function Pinned(d: Device, want: real): Device {
    if NeedsPin(d, want) && d.accepts then d.(rate := want) else d
  }

  /** A pass leaves every device alone that is no target, cannot be named or read, or has
      the rate already; of the others it changes the rate and nothing else. */
  lemma PinningIsConfined(d: Device, want: real)
    ensures var p := Pinned(d, want);
            (!d.isTarget || !d.named || !d.readable || d.rate == want || !d.accepts ==> p == d) &&
            (d.isTarget && d.named && d.readable && d.accepts ==> p.rate == want) &&
            p.(rate := d.rate) == d
  {
  }

  /** When the rate is found wrong: some target among the first 64 devices, named and
      readable, has another. */
  lemma WrongRates(devices: seq<Device>, want: real)
    ensures AnyWrong(devices, want) <==>
            exists i :: 0 <= i < |devices| && i < 64 &&
                        devices[i].isTarget && devices[i].named && devices[i].readable && devices[i].rate != want
  {
    if AnyWrong(devices, want) {
      var i :| 0 <= i < Listed(|devices|) && NeedsPin(devices[i], want);
      assert devices[i].isTarget && devices[i].rate != want;
    }
    if i :| 0 <= i < |devices| && i < 64 && devices[i].isTarget && devices[i].named && devices[i].readable &&
            devices[i].rate != want {
      assert NeedsPin(devices[i], want);
    }
  }

  function Writes(devices: seq<Device>, n: nat, want: real): nat
    requires n <= |devices|
  {
    if n == 0 then 0 else Writes(devices, n - 1, want) + (if NeedsPin(devices[n - 1], want) then 1 else 0)
  }

  lemma {:induction false} WritesOnlyWhenWrong(devices: seq<Device>, n: nat, want: real)
    requires n <= |devices|
    ensures Writes(devices, n, want) == 0 <==> forall i :: 0 <= i < n ==> !NeedsPin(devices[i], want)
  {
    if n > 0 {
      WritesOnlyWhenWrong(devices, n - 1, want);
    }
  }

  /** Pinning ends: after one pass over accepting devices nothing is wrong, so
      neither the tick nor a second pass writes again. */
  lemma PinningTerminates(devices: seq<Device>, after: seq<Device>, want: real)
    requires |after| == |devices|
    requires forall i :: 0 <= i < Listed(|devices|) ==> after[i] == Pinned(devices[i], want)
    ensures AnyWrong(after, want) <==>
            exists i :: 0 <= i < Listed(|devices|) && NeedsPin(devices[i], want) && !devices[i].accepts
    ensures Writes(devices, Listed(|devices|), want) > 0 <==> AnyWrong(devices, want)
    ensures !AnyWrong(after, want) <==> Writes(after, Listed(|after|), want) == 0
  {
    WritesOnlyWhenWrong(devices, Listed(|devices|), want);
    WritesOnlyWhenWrong(after, Listed(|after|), want);
    if i :| 0 <= i < Listed(|devices|) && NeedsPin(devices[i], want) && !devices[i].accepts {
      assert NeedsPin(after[i], want);
    }
    if i :| 0 <= i < Listed(|after|) && NeedsPin(after[i], want) {
      assert NeedsPin(devices[i], want) && !devices[i].accepts;
    }
  }

  class Enforcer {
    const want: real
    const devices: array<Device>
    var lastActivity: real
    var burstStart: real
    var burstCount: nat
    var settle: real

    function View(): State
      reads this
    {
      State(lastActivity, burstStart, burstCount, settle)
    }

    constructor (want: real, devices: array<Device>, now: real)
      ensures this.want == want && this.devices == devices && View() == Begin(now)
    {
      this.want, this.devices := want, devices;
      lastActivity, burstStart, burstCount, settle := now, now, 0, SETTLE_SECS;
    }

    method OnChange(now: real)
      modifies this
      ensures View() == old(View()).(lastActivity := now)
    {
      lastActivity := now;
    }

    method RateIsWrong() returns (wrong: bool)
      ensures wrong <==> AnyWrong(devices[..], want)
    {
      var n := Listed(devices.Length);
      var i := 0;
      while i < n
        invariant 0 <= i <= n
        invariant forall k :: 0 <= k < i ==> !NeedsPin(devices[k], want)
      {
        var d := devices[i];
        if d.named && d.isTarget && d.readable && d.rate != want {
          assert NeedsPin(devices[..][i], want);
          return true;
        }
        i := i + 1;
      }
      wrong := false;
    }

    /** Writes the rate to every target that has another one, and to nothing else. */
    method PinAll() returns (writes: nat)
      modifies devices
      ensures forall k :: 0 <= k < devices.Length ==>
                devices[k] == if k < Listed(devices.Length) then Pinned(old(devices[k]), want) else old(devices[k])
      ensures writes == Writes(old(devices[..]), Listed(devices.Length), want)
    {
      var n := Listed(devices.Length);
      var i := 0;
      writes := 0;
      while i < n
        invariant 0 <= i <= n
        invariant writes == Writes(old(devices[..]), i, want)
        invariant forall k :: 0 <= k < i ==> devices[k] == Pinned(old(devices[k]), want)
        invariant forall k :: i <= k < devices.Length ==> devices[k] == old(devices[k])
      {
        var d := devices[i];
        if d.named && d.isTarget && d.readable && d.rate != want {
          writes := writes + 1;
          if d.accepts {
            devices[i] := d.(rate := want);
          }
        }
        i := i + 1;
      }
    }

    /** One tick; `done` is the clock after the writes, if there are any. */
    method EnforceTick(now: real, done: real) returns (corrected: bool)
      modifies this, devices
      ensures var e := Tick(now, AnyWrong(old(devices[..]), want), done, false);
              View() == Step(old(View()), e) && corrected == Corrects(old(View()), e)
      ensures if corrected
              then forall k :: 0 <= k < Listed(devices.Length) ==> devices[k] == Pinned(old(devices[k]), want)
              else devices[..] == old(devices[..])
    {
      var wrong := RateIsWrong();
      if !wrong || now - lastActivity < settle {
        return false;
      }
      if now - burstStart > BURST_WINDOW {
        burstStart := now;
        burstCount := 0;
      }
      burstCount := burstCount + 1;
      if burstCount > BURST_LIMIT {
        if settle != BACKOFF_SECS {
          settle := BACKOFF_SECS;
        }
      } else if settle != SETTLE_SECS && burstCount <= 1 {
        settle := SETTLE_SECS;
      }
      var writes := PinAll();
      lastActivity := done;
      corrected := true;
    }
  }
}
