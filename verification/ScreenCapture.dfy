/** Screen capture that is invalidated while a sensitive window is visible. The generation is a
    64-bit counter that wraps around; an odd value means that capture is suspended. */
module ScreenCapture {
  import opened Common

  /** The value of the counter after so many changes. */
  function Gen(flips: nat): (g: nat)
    ensures g < 0x1_0000_0000_0000_0000
  {
    flips % 0x1_0000_0000_0000_0000
  }

  predicate Suspended(g: nat) { g % 2 == 1 }

  function WrappingAdd1(g: nat): nat { (g + 1) % 0x1_0000_0000_0000_0000 }

  lemma ParityOfGen(flips: nat)
    ensures Suspended(Gen(flips)) <==> flips % 2 == 1
    ensures Gen(flips + 1) == WrappingAdd1(Gen(flips))
    ensures Suspended(Gen(flips + 1)) <==> !Suspended(Gen(flips))
  {
    var q := flips / 0x1_0000_0000_0000_0000;
    assert flips == 0x1_0000_0000_0000_0000 * q + Gen(flips);
  }

  /** Counters fewer than 2^64 changes apart are told apart by their values. */
  lemma GenInjective(a: nat, b: nat)
    requires Gen(a) == Gen(b) && a <= b < a + 0x1_0000_0000_0000_0000
    ensures a == b
  {
    var p, q := a / 0x1_0000_0000_0000_0000, b / 0x1_0000_0000_0000_0000;
    assert a == 0x1_0000_0000_0000_0000 * p + Gen(a) && b == 0x1_0000_0000_0000_0000 * q + Gen(b);
  }

  // ---- threads that share the counter and the frame ------------------------------

  /** `since` and `until` are the times of the two reads of the counter around the capture. */
  datatype Frame = Frame(generation: nat, since: nat, until: nat, image: seq<nat>)

  /** A call that toggles: what it asks for, when it began, and what it last read, and when. */
  datatype Toggler = Toggler(suspended: bool, since: nat, seen: nat, at: nat)

  datatype Capture = Capturing(generation: nat, since: nat) | Captured(frame: Frame)

  datatype Reader = Reader(generation: nat, at: nat)

  /** `log` records the number of changes of the counter after every action: its last entry is
      the current one, and its positions are the times. */
  datatype Sys = Sys(
    log: seq<nat>, frame: Option<Frame>,
    togglers: map<nat, Toggler>, captures: map<nat, Capture>, readers: map<nat, Reader>)
  {
    function Now(): nat { if |log| == 0 then 0 else |log| - 1 }
    function Flips(): nat { if |log| == 0 then 0 else log[|log| - 1] }
  }

  datatype Action =
    | ToggleLoad(id: nat, suspended: bool)
    | ToggleTry(id: nat, spurious: bool)
    | CaptureStart(id: nat)
    | CaptureEnd(id: nat, image: seq<nat>)
    | Store(id: nat)
    | Clear
    | ReadStart(id: nat)
    | ReadEnd(id: nat)

  const Init := Sys([0], None, map[], map[], map[])

  /** One pass of the loop: return, swap the counter, or look again. */
  function Try(s: Sys, id: nat, t: Toggler, spurious: bool): Sys {
    if Suspended(t.seen) == t.suspended then s.(togglers := s.togglers - {id})
    else if !spurious && Gen(s.Flips()) == t.seen then s.(togglers := s.togglers - {id})
    else s.(togglers := s.togglers[id := t.(seen := Gen(s.Flips()), at := s.Now())])
  }

  /** Whether that pass changes the counter. */
  predicate Swaps(s: Sys, a: Action) {
    && a.ToggleTry? && a.id in s.togglers && !a.spurious
    && var t := s.togglers[a.id];
       Suspended(t.seen) != t.suspended && Gen(s.Flips()) == t.seen
  }

  /** What a reader that holds the lock returns. */
  function Served(frame: Option<Frame>, r: Reader): Option<Frame> {
    if frame.Some? && frame.value.generation == r.generation then frame else None
  }

  /** The effect of an action on everything but the counter. */
  function Act(s: Sys, a: Action): Sys {
    match a
    case ToggleLoad(id, suspended) =>
      if id in s.togglers then s
      else s.(togglers := s.togglers[id := Toggler(suspended, s.Now(), Gen(s.Flips()), s.Now())])
    case ToggleTry(id, spurious) => if id in s.togglers then Try(s, id, s.togglers[id], spurious) else s
    case CaptureStart(id) =>
      if id in s.captures || Suspended(Gen(s.Flips())) then s
      else s.(captures := s.captures[id := Capturing(Gen(s.Flips()), s.Now())])
    case CaptureEnd(id, image) =>
      if id !in s.captures || s.captures[id].Captured? then s
      else
        var c := s.captures[id];
        if Gen(s.Flips()) != c.generation then s.(captures := s.captures - {id})
        else s.(captures := s.captures[id := Captured(Frame(c.generation, c.since, s.Now(), image))])
    case Store(id) =>
      if id !in s.captures || s.captures[id].Capturing? then s
      else s.(frame := Some(s.captures[id].frame), captures := s.captures - {id})
    case Clear => s.(frame := None)
    case ReadStart(id) =>
      if id in s.readers || Suspended(Gen(s.Flips())) then s
      else s.(readers := s.readers[id := Reader(Gen(s.Flips()), s.Now())])
    case ReadEnd(id) => s.(readers := s.readers - {id})
  }

  /** An action that does not apply only takes time. */
  function Step(s: Sys, a: Action): Sys {
    Act(s, a).(log := s.log + [s.Flips() + if Swaps(s, a) then 1 else 0])
  }

  function After(actions: seq<Action>): Sys {
    if actions == [] then Init else Step(After(actions[..|actions| - 1]), actions[|actions| - 1])
  }

  ghost predicate SuspendedAt(s: Sys, time: nat)
    requires time < |s.log|
  {
    Suspended(Gen(s.log[time]))
  }

  // ---- what was read, and when ------------------------------------------------------

  ghost predicate ReadAt(log: seq<nat>, generation: nat, at: nat) {
    at < |log| && generation == Gen(log[at])
  }

  ghost predicate FrameOk(log: seq<nat>, f: Frame) {
    && ReadAt(log, f.generation, f.since) && ReadAt(log, f.generation, f.until)
    && f.since <= f.until && !Suspended(f.generation)
  }

  ghost predicate CaptureOk(log: seq<nat>, c: Capture) {
    match c
    case Capturing(g, since) => ReadAt(log, g, since) && !Suspended(g)
    case Captured(f) => FrameOk(log, f)
  }

  ghost predicate TogglerOk(log: seq<nat>, t: Toggler) {
    ReadAt(log, t.seen, t.at) && t.since <= t.at
  }

  ghost predicate ReaderOk(log: seq<nat>, r: Reader) {
    ReadAt(log, r.generation, r.at) && !Suspended(r.generation)
  }

  ghost predicate FrameSlotOk(log: seq<nat>, frame: Option<Frame>) { frame.Some? ==> FrameOk(log, frame.value) }

  ghost predicate TogglersOk(log: seq<nat>, m: map<nat, Toggler>) { forall i :: i in m ==> TogglerOk(log, m[i]) }

  ghost predicate CapturesOk(log: seq<nat>, m: map<nat, Capture>) { forall i :: i in m ==> CaptureOk(log, m[i]) }

  ghost predicate ReadersOk(log: seq<nat>, m: map<nat, Reader>) { forall i :: i in m ==> ReaderOk(log, m[i]) }

  ghost predicate Entries(log: seq<nat>, s: Sys) {
    FrameSlotOk(log, s.frame) && TogglersOk(log, s.togglers) && CapturesOk(log, s.captures) && ReadersOk(log, s.readers)
  }

  /** The counter never goes back and never skips a value. */
  ghost predicate Steady(log: seq<nat>) {
    && log != []
    && (forall i :: 0 < i < |log| ==> log[i - 1] <= log[i] <= log[i - 1] + 1)
    && (forall i, j :: 0 <= i <= j < |log| ==> log[i] <= log[j])
  }

  ghost predicate Inv(s: Sys) { Steady(s.log) && Entries(s.log, s) }

  lemma ActTogglers(s: Sys, a: Action)
    requires s.log != [] && TogglersOk(s.log, s.togglers)
    ensures TogglersOk(s.log, Act(s, a).togglers)
  {
    assert ReadAt(s.log, Gen(s.Flips()), s.Now());
    if a.ToggleTry? && a.id in s.togglers { assert TogglerOk(s.log, s.togglers[a.id]); }
  }

  lemma ActCaptures(s: Sys, a: Action)
    requires s.log != [] && CapturesOk(s.log, s.captures) && FrameSlotOk(s.log, s.frame)
    ensures CapturesOk(s.log, Act(s, a).captures) && FrameSlotOk(s.log, Act(s, a).frame)
  {
    assert ReadAt(s.log, Gen(s.Flips()), s.Now());
    if (a.CaptureEnd? || a.Store?) && a.id in s.captures { assert CaptureOk(s.log, s.captures[a.id]); }
  }

  lemma ActReaders(s: Sys, a: Action)
    requires s.log != [] && ReadersOk(s.log, s.readers)
    ensures ReadersOk(s.log, Act(s, a).readers)
  {
    assert ReadAt(s.log, Gen(s.Flips()), s.Now());
  }

  lemma ActEntries(s: Sys, a: Action)
    requires Inv(s)
    ensures Entries(s.log, Act(s, a))
  {
    ActTogglers(s, a);
    ActCaptures(s, a);
    ActReaders(s, a);
  }

  /** Time going on does not change what was read. */
  lemma LongerLog(log: seq<nat>, s: Sys, next: nat)
    requires Entries(log, s)
    ensures Entries(log + [next], s)
  {
    assert forall g, at :: ReadAt(log, g, at) ==> ReadAt(log + [next], g, at);
  }

  lemma StaysSteady(log: seq<nat>, next: nat)
    requires Steady(log) && log[|log| - 1] <= next <= log[|log| - 1] + 1
    ensures Steady(log + [next])
  {
  }

  lemma StepInv(s: Sys, a: Action)
    requires Inv(s)
    ensures Inv(Step(s, a))
  {
    var next := s.Flips() + if Swaps(s, a) then 1 else 0;
    ActEntries(s, a);
    LongerLog(s.log, Act(s, a), next);
    StaysSteady(s.log, next);
    assert Step(s, a) == Act(s, a).(log := s.log + [next]);
  }

  lemma {:induction false} RunInv(actions: seq<Action>)
    ensures Inv(After(actions))
    ensures |After(actions).log| == |actions| + 1 && After(actions).log[0] == 0
  {
    if actions != [] {
      RunInv(actions[..|actions| - 1]);
      StepInv(After(actions[..|actions| - 1]), actions[|actions| - 1]);
    }
  }

  // ---- main results ------------------------------------------------------------------

  /** The counter did not change between two times at which it had the same value, if it changed
      fewer than 2^64 times. */
  lemma Unchanged(log: seq<nat>, i: nat, j: nat, k: nat)
    requires Steady(log) && i <= k <= j < |log| && Gen(log[i]) == Gen(log[j])
    requires log[j] - log[i] < 0x1_0000_0000_0000_0000
    ensures log[k] == log[i]
  {
    GenInjective(log[i], log[j]);
  }

  /** A frame that a reader gets was captured, from the start of its capture to its end and up to
      the reader's own read of the counter, without a suspension; and its image is the one stored. */
  lemma ServedUnsuspended(actions: seq<Action>, id: nat, time: nat)
    requires var s := After(actions); id in s.readers && Served(s.frame, s.readers[id]).Some?
    requires After(actions).Flips() < 0x1_0000_0000_0000_0000
    ensures
      var s := After(actions);
      var f, r := s.frame.value, s.readers[id];
      && time < |s.log| ==>
         (f.since <= time <= f.until || f.since <= time <= r.at || r.at <= time <= f.since ==> !SuspendedAt(s, time))
  {
    RunInv(actions);
    var s := After(actions);
    var f, r := s.frame.value, s.readers[id];
    assert forall t :: 0 <= t < |s.log| ==> s.log[t] <= s.Flips();
    if f.since <= time <= f.until { Unchanged(s.log, f.since, f.until, time); }
    if f.since <= time <= r.at { Unchanged(s.log, f.since, r.at, time); }
    if r.at <= time <= f.since { Unchanged(s.log, r.at, f.since, time); }
  }

  /** Whatever the number of changes: a stored frame is served exactly when the counts of changes
      at its capture and at the read are congruent modulo 2^64. */
  lemma ServedExactly(actions: seq<Action>, id: nat)
    requires var s := After(actions); id in s.readers && s.frame.Some?
    ensures
      var s := After(actions);
      var a, b := s.frame.value.since, s.readers[id].at;
      && a < |s.log| && b < |s.log|
      && (Served(s.frame, s.readers[id]).Some? <==>
          (s.log[a] as int - s.log[b]) % 0x1_0000_0000_0000_0000 == 0)
  {
    RunInv(actions);
    var s := After(actions);
    Congruent(s.log[s.frame.value.since], s.log[s.readers[id].at]);
  }

  lemma Congruent(a: nat, b: nat)
    ensures Gen(a) == Gen(b) <==> (a - b) % 0x1_0000_0000_0000_0000 == 0
  {
    var p, q := a / 0x1_0000_0000_0000_0000, b / 0x1_0000_0000_0000_0000;
    assert a == 0x1_0000_0000_0000_0000 * p + Gen(a) && b == 0x1_0000_0000_0000_0000 * q + Gen(b);
    assert a - b == 0x1_0000_0000_0000_0000 * (p - q) + (Gen(a) - Gen(b));
  }

  /** The counter changes only in a pass of a toggling call, by one, and only to the parity that
      the call asks for, from the other one. */
  lemma OnlyNeededChanges(s: Sys, a: Action)
    ensures
      var g, h := Gen(s.Flips()), Gen(Step(s, a).Flips());
      if Swaps(s, a) then h == WrappingAdd1(g) && Suspended(g) != s.togglers[a.id].suspended == Suspended(h) else h == g
  {
    ParityOfGen(s.Flips());
    LastOfLog(s, a);
  }

  lemma LastOfLog(s: Sys, a: Action)
    ensures Step(s, a).Flips() == s.Flips() + if Swaps(s, a) then 1 else 0
  {
  }

  /** A toggling call that returns has seen the state it asked for at some moment after it began. */
  lemma ToggleTookEffect(actions: seq<Action>, id: nat, spurious: bool) returns (time: nat)
    requires id in After(actions).togglers && id !in After(actions + [ToggleTry(id, spurious)]).togglers
    ensures
      var s, t := After(actions).togglers[id], After(actions + [ToggleTry(id, spurious)]);
      s.since <= time < |t.log| && SuspendedAt(t, time) == s.suspended
  {
    var a := ToggleTry(id, spurious);
    RunInv(actions);
    var s := After(actions);
    OnlyNeededChanges(s, a);
    assert (actions + [a])[..|actions|] == actions;
    time := if Swaps(s, a) then |s.log| else s.togglers[id].at;
  }

  /** An undisturbed call does what it is asked, in one pass. */
  lemma UndisturbedToggle(actions: seq<Action>, id: nat, suspended: bool)
    requires After(actions).log != [] && id !in After(actions).togglers
    ensures
      var t := After(actions + [ToggleLoad(id, suspended)] + [ToggleTry(id, false)]);
      t.log != [] && id !in t.togglers && Suspended(Gen(t.Flips())) == suspended
  {
    var s, load, try := After(actions), ToggleLoad(id, suspended), ToggleTry(id, false);
    AfterMore(actions, load);
    AfterMore(actions + [load], try);
    LoadOne(s, id, suspended);
    TryOne(Step(s, load), id);
    ParityOfGen(s.Flips());
  }

  lemma LoadOne(s: Sys, id: nat, suspended: bool)
    requires s.log != [] && id !in s.togglers
    ensures
      var u := Step(s, ToggleLoad(id, suspended));
      && u.log != [] && u.Flips() == s.Flips() && id in u.togglers
      && u.togglers[id].suspended == suspended && u.togglers[id].seen == Gen(u.Flips())
  {}

  lemma TryOne(u: Sys, id: nat)
    requires u.log != [] && id in u.togglers && u.togglers[id].seen == Gen(u.Flips())
    ensures
      var t := Step(u, ToggleTry(id, false));
      && t.log != [] && id !in t.togglers
      && t.Flips() == u.Flips() + if Suspended(Gen(u.Flips())) == u.togglers[id].suspended then 0 else 1
  {}

  /** An undisturbed capture is served: its very image, to a reader that comes when it is stored. */
  lemma UndisturbedCapture(actions: seq<Action>, id: nat, image: seq<nat>)
    requires var s := After(actions); s.log != [] && !Suspended(Gen(s.Flips())) && id !in s.captures && id !in s.readers
    ensures
      var t := After(actions + [CaptureStart(id)] + [CaptureEnd(id, image)] + [Store(id)] + [ReadStart(id)]);
      id in t.readers && Served(t.frame, t.readers[id]).Some? && Served(t.frame, t.readers[id]).value.image == image
  {
    var s := After(actions);
    var a, b, c, d := CaptureStart(id), CaptureEnd(id, image), Store(id), ReadStart(id);
    AfterMore(actions, a);
    AfterMore(actions + [a], b);
    AfterMore(actions + [a] + [b], c);
    AfterMore(actions + [a] + [b] + [c], d);
    CaptureOne(s, id, image);
    ReadOne(Step(Step(Step(s, a), b), c), id);
  }

  lemma CaptureOne(s: Sys, id: nat, image: seq<nat>)
    requires s.log != [] && !Suspended(Gen(s.Flips())) && id !in s.captures
    ensures
      var t := Step(Step(Step(s, CaptureStart(id)), CaptureEnd(id, image)), Store(id));
      && t.log != [] && t.Flips() == s.Flips() && t.readers == s.readers
      && t.frame.Some? && t.frame.value.generation == Gen(s.Flips()) && t.frame.value.image == image
  {
    var u := Step(s, CaptureStart(id));
    assert u.captures[id] == Capturing(Gen(s.Flips()), s.Now()) && u.Flips() == s.Flips();
    var v := Step(u, CaptureEnd(id, image));
    assert v.captures[id].Captured? && v.captures[id].frame.image == image && v.Flips() == s.Flips();
  }

  lemma ReadOne(s: Sys, id: nat)
    requires s.log != [] && !Suspended(Gen(s.Flips())) && id !in s.readers
    ensures
      var t := Step(s, ReadStart(id));
      id in t.readers && t.readers[id].generation == Gen(s.Flips()) && t.frame == s.frame
  {}

  // ---- the wrap-around -----------------------------------------------------------------

  lemma AfterMore(actions: seq<Action>, a: Action)
    ensures After(actions + [a]) == Step(After(actions), a)
  {
    assert (actions + [a])[..|actions|] == actions;
  }

  lemma LoadAlone(s: Sys, load: Action)
    requires s.togglers == map[] && s.log != [] && load == ToggleLoad(0, !Suspended(Gen(s.Flips())))
    ensures var seen, now := Gen(s.Flips()), s.Now();
            Step(s, load) == s.(log := s.log + [s.Flips()], togglers := map[0 := Toggler(!Suspended(seen), now, seen, now)])
  {
  }

  lemma TryAlone(s: Sys)
    requires s.log != [] && 0 in s.togglers && s.togglers.Keys == {0}
    requires Suspended(s.togglers[0].seen) != s.togglers[0].suspended && s.togglers[0].seen == Gen(s.Flips())
    ensures Step(s, ToggleTry(0, false)) == s.(log := s.log + [s.Flips() + 1], togglers := map[])
  {
  }

  /** `t` is `s` after `n` changes of the counter and nothing else. */
  ghost predicate ChangedBy(s: Sys, t: Sys, n: nat) {
    && s.log != [] && s.log <= t.log && s.togglers == map[]
    && t.log[|t.log| - 1] == s.log[|s.log| - 1] + n && t == s.(log := t.log)
  }

  lemma ChangeOnce(actions: seq<Action>) returns (more: seq<Action>)
    requires After(actions).togglers == map[] && After(actions).log != []
    ensures ChangedBy(After(actions), After(more), 1)
  {
    var s := After(actions);
    var load := ToggleLoad(0, !Suspended(Gen(s.Flips())));
    AfterMore(actions, load);
    AfterMore(actions + [load], ToggleTry(0, false));
    LoadAlone(s, load);
    TryAlone(Step(s, load));
    more := actions + [load] + [ToggleTry(0, false)];
  }

  lemma ChangesAdd(s: Sys, t: Sys, u: Sys, n: nat)
    requires ChangedBy(s, t, n) && ChangedBy(t, u, 1)
    ensures ChangedBy(s, u, n + 1)
  {
  }

  /** One thread after the other can change the counter as often as it likes. */
  lemma {:induction false} ChangeMany(actions: seq<Action>, n: nat) returns (more: seq<Action>)
    requires After(actions).togglers == map[] && After(actions).log != []
    ensures ChangedBy(After(actions), After(more), n)
  {
    more := actions;
    if n > 0 {
      var front := ChangeMany(actions, n - 1);
      more := ChangeOnce(front);
      ChangesAdd(After(actions), After(front), After(more), n - 1);
    }
  }

  lemma CaptureAlone(image: seq<nat>) returns (actions: seq<Action>)
    ensures After(actions) == Sys([0, 0, 0, 0], Some(Frame(0, 0, 1, image)), map[], map[], map[])
  {
    var a, b, c := CaptureStart(0), CaptureEnd(0, image), Store(0);
    AfterMore([], a);
    AfterMore([a], b);
    AfterMore([a] + [b], c);
    var s := Step(Init, a);
    assert s == Sys([0, 0], None, map[], map[0 := Capturing(0, 0)], map[]);
    var t := Step(s, b);
    assert t == Sys([0, 0, 0], None, map[], map[0 := Captured(Frame(0, 0, 1, image))], map[]);
    assert t.captures - {0} == map[];
    assert [] + [a] == [a];
    actions := [a] + [b] + [c];
  }

  lemma ReadAlone(s: Sys)
    requires s.log != [] && s.log[|s.log| - 1] == 0x1_0000_0000_0000_0000 && s.readers == map[]
    ensures Step(s, ReadStart(0)) == s.(log := s.log + [s.Flips()], readers := map[0 := Reader(0, |s.log| - 1)])
  {
    assert Gen(s.Flips()) == 0;
  }

  /** The bound on the changes is needed: after 2^64 of them a frame from before a suspension is served. */
  lemma StaleFrameServed(image: seq<nat>) returns (actions: seq<Action>, time: nat)
    ensures
      var s := After(actions);
      && 0 in s.readers && Served(s.frame, s.readers[0]).Some?
      && s.frame.value.until < time < s.readers[0].at < |s.log| && SuspendedAt(s, time)
  {
    var captured := CaptureAlone(image);
    var suspended := ChangeOnce(captured);
    var wrapped := ChangeMany(suspended, 0xFFFF_FFFF_FFFF_FFFF);
    AfterMore(wrapped, ReadStart(0));
    ReadAlone(After(wrapped));
    var s := After(suspended);
    time, actions := |s.log| - 1, wrapped + [ReadStart(0)];
    assert s.log[time] == 1 && After(wrapped).log[time] == 1 && After(actions).log[time] == 1;
  }

  // ---- the manager ---------------------------------------------------------------------

  /** What other threads do before a call goes on: so many changes, and a swap that fails for no reason. */
  datatype Meanwhile = Meanwhile(changes: nat, spurious: bool)

  /** How often the others changed the counter. */
  function Changes(others: seq<Meanwhile>): nat {
    if others == [] then 0 else Changes(others[..|others| - 1]) + others[|others| - 1].changes
  }

  class ScreenCaptureManager {
    var generation: nat
    var latest: Option<Frame>
    ghost var flips: nat

    ghost predicate Valid()
      reads this
    {
      generation == Gen(flips)
    }

    constructor ()
      ensures Valid() && flips == 0 && latest == None
    {
      generation, latest, flips := 0, None, 0;
    }

    /** Other threads change the counter. */
    method Interfere(changes: nat)
      requires Valid()
      modifies this`generation, this`flips
      ensures Valid() && flips == old(flips) + changes
    {
      generation, flips := (generation + changes) % 0x1_0000_0000_0000_0000, flips + changes;
      AddToGen(old(flips), changes);
    }

    /** `point` is the count of changes at which the call took effect. */
    method SetCaptureSuspended(suspended: bool, others: seq<Meanwhile>)
      returns (changed: bool, ghost point: nat, ghost passes: nat)
      requires Valid()
      modifies this`generation, this`flips
      ensures Valid() && old(flips) <= point <= flips
      ensures Suspended(Gen(point)) == suspended
      ensures changed ==> point > old(flips) && Suspended(Gen(point - 1)) != suspended
      ensures passes <= |others| && flips == point == old(flips) + Changes(others[..passes]) + (if changed then 1 else 0)
      ensures others == [] ==> (changed <==> Suspended(Gen(old(flips))) != suspended)
    {
      var current, i := generation, 0;
      point, passes := flips, 0;
      assert others[..0] == [];
      while true
        invariant Valid() && old(flips) <= point == flips && current == generation && i <= |others|
        invariant passes == i && flips == old(flips) + Changes(others[..i])
        decreases |others| - i
      {
        if Suspended(current) == suspended { return false, point, i; }
        var m := if i < |others| then others[i] else Meanwhile(0, false);
        if i < |others| {
          Interfere(m.changes);
          assert others[..i + 1][..i] == others[..i];
          passes := i + 1;
        }
        if !m.spurious && generation == current {
          ParityOfGen(flips);
          generation, flips := WrappingAdd1(generation), flips + 1;
          return true, flips, passes;
        }
        current, point := generation, flips;
        i := i + 1;
      }
    }

    /** Reads the counter before and after the capture, during which others change it `during`
        times; `monitor` is the image, or nothing when the capture itself fails. */
    method CapturePrimaryMonitor(monitor: Option<seq<nat>>, during: nat, now: nat) returns (r: Result<Frame, string>)
      requires Valid()
      modifies this`generation, this`flips
      ensures Valid() && flips == old(flips) + during
      ensures r.Ok? <==> !Suspended(Gen(old(flips))) && monitor.Some? && during % 0x1_0000_0000_0000_0000 == 0
      ensures r.Ok? ==> r.value == Frame(old(generation), now, now + 1, monitor.value) && r.value.generation == generation
    {
      var captureGeneration := generation;
      Interfere(during);
      Congruent(flips, old(flips));
      if Suspended(captureGeneration) { return Err("capture is suspended"); }
      if monitor.None? { return Err("Failed to capture screen"); }
      if generation != captureGeneration { return Err("the sensitive window changed during the capture"); }
      r := Ok(Frame(captureGeneration, now, now + 1, monitor.value));
    }

    /** Between the read of the counter and the lock others change the counter and the frame. */
    method LatestFrame(changes: nat, stored: Option<Frame>) returns (r: Option<Frame>)
      requires Valid()
      modifies this
      ensures Valid() && flips == old(flips) + changes
      ensures latest == if Suspended(Gen(old(flips))) then old(latest) else stored
      ensures r == if Suspended(Gen(old(flips))) then None else Served(stored, Reader(old(generation), 0))
    {
      var g := generation;
      Interfere(changes);
      if Suspended(g) { return None; }
      latest := stored;
      r := if latest.Some? && latest.value.generation == g then latest else None;
    }

    /** Hides what was captured so far, among other threads that toggle (`others`) and capture (the
        slot holds `stored` by then); a slot that is locked keeps its frame. */
    method SetSuspended(suspended: bool, others: seq<Meanwhile>, stored: Option<Frame>, locked: bool)
      returns (changed: bool, ghost point: nat, ghost passes: nat)
      requires Valid()
      modifies this
      ensures Valid() && old(flips) <= point <= flips && Suspended(Gen(point)) == suspended
      ensures changed ==> point > old(flips) && Suspended(Gen(point - 1)) != suspended
      ensures passes <= |others| && flips == point == old(flips) + Changes(others[..passes]) + (if changed then 1 else 0)
      ensures others == [] ==> Suspended(generation) == suspended
      ensures latest == if locked then stored else None
    {
      changed, point, passes := SetCaptureSuspended(suspended, others);
      latest := stored;
      if !locked { latest := None; }
    }
  }

  lemma AddToGen(flips: nat, changes: nat)
    ensures (Gen(flips) + changes) % 0x1_0000_0000_0000_0000 == Gen(flips + changes)
  {
    var q := flips / 0x1_0000_0000_0000_0000;
    assert flips == 0x1_0000_0000_0000_0000 * q + Gen(flips);
    var p := (Gen(flips) + changes) / 0x1_0000_0000_0000_0000;
    assert Gen(flips) + changes == 0x1_0000_0000_0000_0000 * p + (Gen(flips) + changes) % 0x1_0000_0000_0000_0000;
    assert flips + changes == 0x1_0000_0000_0000_0000 * (p + q) + (Gen(flips) + changes) % 0x1_0000_0000_0000_0000;
  }

  /** The frame that a locked slot keeps is not served to a reader from after the suspension took
      effect at `point`, unless the counter has wrapped around to the frame's own value. */
  lemma LeftFrameNotServed(f: Frame, captured: nat, point: nat, r: Reader, read: nat)
    requires f.generation == Gen(captured) && r.generation == Gen(read)
    requires !Suspended(Gen(captured)) && Suspended(Gen(point)) && captured <= point <= read
    ensures Served(Some(f), r).Some? ==> read >= captured + 0x1_0000_0000_0000_0000
  {
    if read < captured + 0x1_0000_0000_0000_0000 && Gen(read) == Gen(captured) {
      GenInjective(captured, read);
    }
  }
}
