/** The frame listener: per frame it either tries the stored gestures in
    order and runs (or remembers, as a modifier) the command of the first one
    it accepts, or records the hand as a new gesture; plus the console
    commands that switch between running, pausing and training. */
module Listener {
  import opened HandModel
  import opened HandSignals
  import opened SignalCollection

  datatype Option<T> = None | Some(value: T)

  /** The tolerances every frame is classified with. */
  const DefaultSensitivity := Sensitivity(50.0, 60.0, 0.55)

  /** A pending modifier is dropped once this many milliseconds passed since the last accepted gesture. */
  const ModifierTimeout := 4000
  /** A gesture other than the last accepted one is accepted only after this many milliseconds. */
  const OtherGestureDelay := 500
  /** The last accepted gesture itself is accepted again only after this many milliseconds. */
  const SameGestureDelay := 2000
  /** Extra cool-down added after a command has been run. */
  const Cooldown := 1000

  const Paused := 0
  const Running := 1
  const Training := 2

  /** The listener's memory between frames: when a gesture was last accepted
      (milliseconds), which entry it was (-1: none yet), and the pending
      modifier prefix. */
  datatype DispatchState = DispatchState(lastCall: int, lastCommandId: int, commStr: string)

  const InitialState := DispatchState(0, -1, "")

  /** The first character of a command, '\0' for the empty command. */
  function FirstChar(s: string): char
  {
    if |s| == 0 then '\0' else s[0]
  }

  /** A modifier command starts with '$'; it is remembered rather than run. */
  predicate IsModifier(command: string)
    ensures IsModifier(command) <==> |command| > 0 && command[0] == '$'
  {
    FirstChar(command) == '$'
  }

  /** The timing rule for entry i: another gesture after 500 ms, the same one after 2000 ms. */
  predicate Eligible(st: DispatchState, now: int, i: int)
  {
    (st.lastCall + OtherGestureDelay < now && st.lastCommandId != i) || st.lastCall + SameGestureDelay < now
  }

  /** The modifier prefix expires 4000 ms after the last accepted gesture. */
  function ClearTimedOut(st: DispatchState, now: int): (r: DispatchState)
    ensures r.lastCall == st.lastCall && r.lastCommandId == st.lastCommandId
    ensures |r.commStr| == 0 <==> |st.commStr| == 0 || st.lastCall + ModifierTimeout < now
    ensures |r.commStr| > 0 ==> r.commStr == st.commStr
  {
    if |st.commStr| > 0 && st.lastCall + ModifierTimeout < now then st.(commStr := "") else st
  }

  /** The scan of the stored entries from index i on, in store order: the
      new state and the command line to run, if any. */
  function Scan(st: DispatchState, now: int, hand: Hand,
                signals: seq<HandSignal>, commands: seq<string>, i: int): (r: (DispatchState, Option<string>))
    requires |commands| == |signals| && 0 <= i <= |signals|
    ensures r.1.Some? ==> r.0.commStr == "" && r.0.lastCall == now + Cooldown
                          && i <= r.0.lastCommandId < |signals| && !IsModifier(commands[r.0.lastCommandId])
    decreases |signals| - i
  {
    if i == |signals| then (st, None)
    else
      var nextPart := commands[i];
      if Matches(signals[i], hand) && Eligible(st, now, i) && (|st.commStr| == 0 || !IsModifier(nextPart)) then
        if IsModifier(nextPart) && st.lastCommandId != i then
          Scan(DispatchState(now, i, st.commStr + nextPart[1..] + "_"), now, hand, signals, commands, i + 1)
        else if !IsModifier(nextPart) then
          (DispatchState(now + Cooldown, i, ""), Some(st.commStr + nextPart))
        else
          Scan(st, now, hand, signals, commands, i + 1)
      else
        Scan(st, now, hand, signals, commands, i + 1)
  }

  /** One frame in run mode: expire the modifier, then scan every entry. */
  function Dispatch(st: DispatchState, now: int, hand: Hand,
                    signals: seq<HandSignal>, commands: seq<string>): (DispatchState, Option<string>)
    requires |commands| == |signals|
  {
    Scan(ClearTimedOut(st, now), now, hand, signals, commands, 0)
  }

  // ---------------------------------------------------------------------
  // A second definition of the scan: find the first entry that is accepted,
  // then respond to it.

  /** Entry i is accepted: it matches, its timing allows it, a modifier is
      not stacked on a pending one, and a modifier is not repeated. */
  predicate Accepts(st: DispatchState, now: int, hand: Hand, signal: HandSignal, command: string, i: int)
  {
    Matches(signal, hand) && Eligible(st, now, i)
    && (|st.commStr| == 0 || !IsModifier(command))
    && (!IsModifier(command) || st.lastCommandId != i)
  }

  /** The index of the first accepted entry at or after i, or |signals| when there is none. */
  function FirstAccepted(st: DispatchState, now: int, hand: Hand,
                         signals: seq<HandSignal>, commands: seq<string>, i: int): (j: int)
    requires |commands| == |signals| && 0 <= i <= |signals|
    ensures i <= j <= |signals|
    ensures j < |signals| ==> Accepts(st, now, hand, signals[j], commands[j], j)
    ensures forall k :: i <= k < j ==> !Accepts(st, now, hand, signals[k], commands[k], k)
    decreases |signals| - i
  {
    if i == |signals| then i
    else if Accepts(st, now, hand, signals[i], commands[i], i) then i
    else FirstAccepted(st, now, hand, signals, commands, i + 1)
  }

  /** What accepting entry j does: a modifier is appended to the prefix and
      nothing runs; any other command runs with the prefix in front. Index
      |commands| means nothing was accepted. */
  function Outcome(st: DispatchState, now: int, commands: seq<string>, j: int): (DispatchState, Option<string>)
    requires 0 <= j <= |commands|
  {
    if j == |commands| then (st, None)
    else if IsModifier(commands[j]) then (DispatchState(now, j, st.commStr + commands[j][1..] + "_"), None)
    else (DispatchState(now + Cooldown, j, ""), Some(st.commStr + commands[j]))
  }

  /** Within 500 ms of the last accepted gesture nothing is accepted. */
  lemma {:induction false} ScanQuiet(st: DispatchState, now: int, hand: Hand,
                                     signals: seq<HandSignal>, commands: seq<string>, i: int)
    requires |commands| == |signals| && 0 <= i <= |signals|
    requires now <= st.lastCall + OtherGestureDelay
    ensures Scan(st, now, hand, signals, commands, i) == (st, None)
    decreases |signals| - i
  {
    if i < |signals| {
      ScanQuiet(st, now, hand, signals, commands, i + 1);
    }
  }

  /** The scan is "first accepted entry, then its outcome": in particular at
      most one entry is acted on per frame, since accepting a modifier
      resets the clock. */
  lemma {:induction false} ScanIsFirstAccepted(st: DispatchState, now: int, hand: Hand,
                                               signals: seq<HandSignal>, commands: seq<string>, i: int)
    requires |commands| == |signals| && 0 <= i <= |signals|
    ensures Scan(st, now, hand, signals, commands, i)
         == Outcome(st, now, commands, FirstAccepted(st, now, hand, signals, commands, i))
    decreases |signals| - i
  {
    if i < |signals| {
      if Accepts(st, now, hand, signals[i], commands[i], i) {
        if IsModifier(commands[i]) {
          var next := DispatchState(now, i, st.commStr + commands[i][1..] + "_");
          ScanQuiet(next, now, hand, signals, commands, i + 1);
        }
      } else {
        ScanIsFirstAccepted(st, now, hand, signals, commands, i + 1);
      }
    }
  }

  /** Every frame ends in one of three ways: nothing happens; a modifier is
      taken while none is pending; or a plain command runs, prefixed by the
      pending modifiers, and the clock is pushed 1000 ms ahead. */
  lemma DispatchOutcomes(st: DispatchState, now: int, hand: Hand,
                         signals: seq<HandSignal>, commands: seq<string>)
    requires |commands| == |signals|
    ensures var c := ClearTimedOut(st, now);
            var r := Dispatch(st, now, hand, signals, commands);
            var id := r.0.lastCommandId;
            r == (c, None)
            || (|c.commStr| == 0 && 0 <= id < |commands| && IsModifier(commands[id])
                && r == (DispatchState(now, id, commands[id][1..] + "_"), None))
            || (0 <= id < |commands| && !IsModifier(commands[id])
                && r == (DispatchState(now + Cooldown, id, ""), Some(c.commStr + commands[id])))
  {
    var c := ClearTimedOut(st, now);
    ScanIsFirstAccepted(c, now, hand, signals, commands, 0);
    var f := FirstAccepted(c, now, hand, signals, commands, 0);
    if f < |commands| && IsModifier(commands[f]) {
      assert |c.commStr| == 0;
      assert c.commStr + commands[f][1..] + "_" == commands[f][1..] + "_";
    }
  }

  /** A frame within 500 ms of the last accepted gesture only expires the modifier. */
  lemma DebounceWindow(st: DispatchState, now: int, hand: Hand,
                       signals: seq<HandSignal>, commands: seq<string>)
    requires |commands| == |signals|
    requires now <= st.lastCall + OtherGestureDelay
    ensures Dispatch(st, now, hand, signals, commands) == (ClearTimedOut(st, now), None)
  {
    ScanQuiet(ClearTimedOut(st, now), now, hand, signals, commands, 0);
  }

  /** The last accepted entry is not accepted again within 2000 ms, whatever
      the hand: whatever the frame does, it is not that entry's doing. */
  lemma SameGestureDebounce(st: DispatchState, now: int, hand: Hand,
                            signals: seq<HandSignal>, commands: seq<string>)
    requires |commands| == |signals|
    requires 0 <= st.lastCommandId < |signals| && now <= st.lastCall + SameGestureDelay
    ensures var r := Dispatch(st, now, hand, signals, commands);
            r == (ClearTimedOut(st, now), None) || r.0.lastCommandId != st.lastCommandId
  {
    var c := ClearTimedOut(st, now);
    ScanIsFirstAccepted(c, now, hand, signals, commands, 0);
  }

  /** A pending modifier blocks every other modifier: the frame either does
      nothing or runs a plain command behind the prefix. */
  lemma PendingModifierBlocksModifiers(st: DispatchState, now: int, hand: Hand,
                                       signals: seq<HandSignal>, commands: seq<string>)
    requires |commands| == |signals|
    requires |st.commStr| > 0 && now <= st.lastCall + ModifierTimeout
    ensures var r := Dispatch(st, now, hand, signals, commands);
            var id := r.0.lastCommandId;
            r == (st, None)
            || (0 <= id < |commands| && r == (DispatchState(now + Cooldown, id, ""), Some(st.commStr + commands[id])))
  {
    DispatchOutcomes(st, now, hand, signals, commands);
  }

  /** Once the modifier has expired, a command runs without the prefix. */
  lemma TimedOutModifierDropped(st: DispatchState, now: int, hand: Hand,
                                signals: seq<HandSignal>, commands: seq<string>)
    requires |commands| == |signals|
    requires st.lastCall + ModifierTimeout < now
    ensures var r := Dispatch(st, now, hand, signals, commands);
            r.1.Some? ==> 0 <= r.0.lastCommandId < |commands| && r.1.value == commands[r.0.lastCommandId]
  {
    DispatchOutcomes(st, now, hand, signals, commands);
  }

  /** A gesture held still: once entry j has run its command at t0, the same
      hand runs it again exactly when more than 3000 ms have passed (the
      2000 ms rule on top of the 1000 ms cool-down), and within 1500 ms the
      frame does nothing at all. */
  lemma HeldGestureRefire(j: int, t0: int, t1: int, hand: Hand,
                          signals: seq<HandSignal>, commands: seq<string>)
    requires |commands| == |signals| && 0 <= j < |signals|
    requires forall k :: 0 <= k < j ==> !Matches(signals[k], hand)
    requires Matches(signals[j], hand) && !IsModifier(commands[j])
    ensures Dispatch(DispatchState(t0 + Cooldown, j, ""), t1, hand, signals, commands)
         == (DispatchState(t1 + Cooldown, j, ""), Some(commands[j]))
        <==> t1 > t0 + Cooldown + SameGestureDelay
    ensures (t1 <= t0 + Cooldown + OtherGestureDelay) ==>
            (Dispatch(DispatchState(t0 + Cooldown, j, ""), t1, hand, signals, commands)
             == (DispatchState(t0 + Cooldown, j, ""), None))
  {
    var st := DispatchState(t0 + Cooldown, j, "");
    assert ClearTimedOut(st, t1) == st;
    ScanIsFirstAccepted(st, t1, hand, signals, commands, 0);
    var f := FirstAccepted(st, t1, hand, signals, commands, 0);
    if t1 > t0 + Cooldown + SameGestureDelay {
      assert Accepts(st, t1, hand, signals[j], commands[j], j);
      assert f == j;
      assert st.commStr + commands[j] == commands[j];
    } else {
      assert !Accepts(st, t1, hand, signals[j], commands[j], j);
      assert f != j;
      var r := Dispatch(st, t1, hand, signals, commands);
      assert r == Outcome(st, t1, commands, f);
      assert r.1.None? || r.0.lastCommandId != j;
    }
    if t1 <= t0 + Cooldown + OtherGestureDelay {
      DebounceWindow(st, t1, hand, signals, commands);
    }
  }

  /** The two-gesture sequence: a "$foo" gesture followed within 4000 ms by a
      "bar" gesture runs "foo_bar"; the same "bar" gesture later than that
      runs "bar" alone. */
  lemma ModifierThenTerminal(t0: int, t1: int, first: Hand, second: Hand, signals: seq<HandSignal>)
    requires |signals| == 2
    requires Matches(signals[0], first)
    requires !Matches(signals[0], second) && Matches(signals[1], second)
    requires t0 > OtherGestureDelay && t1 > t0 + OtherGestureDelay
    ensures var commands := ["$foo", "bar"];
            var (st1, out1) := Dispatch(InitialState, t0, first, signals, commands);
            out1 == None && st1 == DispatchState(t0, 0, "foo_")
            && Dispatch(st1, t1, second, signals, commands)
               == (DispatchState(t1 + Cooldown, 1, ""), Some(if t1 <= t0 + ModifierTimeout then "foo_bar" else "bar"))
  {
    var commands := ["$foo", "bar"];
    assert IsModifier(commands[0]) && !IsModifier(commands[1]);
    assert commands[0][1..] == "foo";
    assert ClearTimedOut(InitialState, t0) == InitialState;
    ScanIsFirstAccepted(InitialState, t0, first, signals, commands, 0);
    assert Accepts(InitialState, t0, first, signals[0], commands[0], 0);
    assert FirstAccepted(InitialState, t0, first, signals, commands, 0) == 0;
    assert "" + "foo" + "_" == "foo_";
    var st1 := DispatchState(t0, 0, "foo_");
    assert Dispatch(InitialState, t0, first, signals, commands) == (st1, None);
    var c := ClearTimedOut(st1, t1);
    ScanIsFirstAccepted(c, t1, second, signals, commands, 0);
    assert !Accepts(c, t1, second, signals[0], commands[0], 0);
    assert Accepts(c, t1, second, signals[1], commands[1], 1);
    assert FirstAccepted(c, t1, second, signals, commands, 0) == 1;
    assert "foo_" + "bar" == "foo_bar" && "" + "bar" == "bar";
  }

  // ---------------------------------------------------------------------
  // The listener object.

  class EventListener {
    var lastCall: int
    var lastCommandId: int
    var commStr: string
    /** 0 paused, 1 running, 2 training. */
    var mode: int
    const store: HandSignalCollection

    function State(): DispatchState
      reads this
    {
      DispatchState(lastCall, lastCommandId, commStr)
    }

    ghost predicate Valid()
      reads this, store
    {
      store.Valid()
    }

    constructor (store: HandSignalCollection)
      requires store.Valid()
      ensures Valid() && this.store == store
      ensures State() == InitialState && mode == Paused
    {
      this.store := store;
      lastCall, lastCommandId, commStr := 0, -1, "";
      mode := Paused;
    }

    /** One sensor frame at wall-clock time `now`; in training mode the new
        gesture is stored under `gname` with command `gcomm`. Returns the
        command line handed to the shell, if any. */
    method OnFrame(now: int, frame: Frame, gname: string, gcomm: string) returns (executed: Option<string>)
      requires Valid()
      modifies this, store
      ensures Valid()
      ensures old(mode) == Paused || |frame.hands| == 0 ==>
                executed == None && State() == old(State()) && mode == old(mode) && unchanged(store)
      ensures old(mode) == Running && |frame.hands| > 0 ==>
                (State(), executed) == Dispatch(old(State()), now, frame.hands[0], store.signals, store.commands)
                && mode == Running && unchanged(store)
      ensures old(mode) == Training && |frame.hands| > 0 ==>
                executed == None && State() == ClearTimedOut(old(State()), now) && mode == Paused
                && store.Entries() == old(store.Entries()) + [Entry(Built(frame.hands[0], DefaultSensitivity), gname, gcomm)]
      ensures old(mode) !in {Paused, Running, Training} && |frame.hands| > 0 ==>
                executed == None && State() == ClearTimedOut(old(State()), now) && mode == old(mode) && unchanged(store)
    {
      executed := None;
      if mode == Paused {
        return;
      }
      if |frame.hands| < 1 {
        return;
      }
      var hand := frame.hands[0];
      var s := DefaultSensitivity;
      if |commStr| > 0 && lastCall + ModifierTimeout < now {
        commStr := "";
      }
      if mode == Running {
        ghost var start := State();
        var i := 0;
        while i < |store.signals|
          modifies this
          invariant 0 <= i <= |store.signals|
          invariant mode == Running && executed == None
          invariant Scan(State(), now, hand, store.signals, store.commands, i)
                 == Scan(start, now, hand, store.signals, store.commands, 0)
        {
          var success, errorCode := MatchesSignal(store.signals[i], hand);
          var nextPart := store.GetCommand(i);
          if success && Eligible(State(), now, i) && (|commStr| == 0 || !IsModifier(nextPart)) {
            if IsModifier(nextPart) && lastCommandId != i {
              commStr := commStr + nextPart[1..] + "_";
              lastCall := now;
              lastCommandId := i;
            } else if !IsModifier(nextPart) {
              commStr := commStr + nextPart;
              lastCall := now;
              lastCommandId := i;
              executed := Some(commStr);
              commStr := "";
              lastCall := lastCall + Cooldown;
              return;
            }
          }
          i := i + 1;
        }
      } else if mode == Training {
        var hs := BuildSignal(hand, s);
        var added := store.Add(hs, gname, gcomm);
        mode := Paused;
      }
    }

    /** One console command: "run", "pause" and "train" set the mode,
        "remove" deletes the first gesture called `target`, "exit" stops the
        console loop; anything else changes nothing. */
    method HandleCommand(command: string, target: string) returns (running: bool, removed: bool)
      requires Valid()
      modifies this, store
      ensures Valid()
      ensures running <==> command != "exit"
      ensures mode == (if command == "run" then Running
                       else if command == "pause" then Paused
                       else if command == "train" then Training
                       else old(mode))
      ensures State() == old(State())
      ensures command == "remove" ==>
                (removed <==> target in old(store.names))
                && store.Entries() == if removed then Removed(old(store.Entries()), FirstIndex(old(store.names), target))
                                      else old(store.Entries())
      ensures command != "remove" ==> !removed && unchanged(store)
    {
      running, removed := true, false;
      if command == "exit" {
        running := false;
      } else if command == "run" {
        mode := Running;
      } else if command == "pause" {
        mode := Paused;
      } else if command == "train" {
        mode := Training;
      } else if command == "remove" {
        removed := store.RemoveByName(target);
      }
    }
  }
}
