/** The state machine of one volume category, on values: what SetVolume, SetDefaultVolume,
    ReApplyVolume, Save and Load of an AudioCategorySettings do to
    (volume, defaultVolume, hasChangedFromDefault) and which change event they raise. */
module VolumeSetting {
  import opened Volumes

  /** volume, defaultVolume and hasChangedFromDefault ("dirty"). */
  datatype State = State(volume: real, defaultVolume: real, dirty: bool)

  /** Payload of the setting's OnVolumeChanged event: previous and new volume. */
  datatype Change = Change(prev: real, next: real)

  /** The state after an operation and the event it raised, if any. */
  datatype Step = Step(state: State, event: Option<Change>)

  /** The setting's invariant: its volume is always a clamped one. */
  predicate Valid(s: State) {
    InUnit(s.volume)
  }

  /** A freshly constructed setting: volume 1 whatever the default, not dirty. */
  function Initial(defaultVolume: real): (s: State)
    ensures Valid(s) && !s.dirty && s.defaultVolume == defaultVolume
  {
    State(1.0, defaultVolume, false)
  }

  /** SetVolume(newVolume, ignoreDirty). */
  function SetVolume(s: State, newVolume: real, ignoreDirty: bool): (r: Step)
    ensures Valid(s) ==> Valid(r.state)
    ensures r.state.defaultVolume == s.defaultVolume
    ensures s.dirty ==> r.state.dirty
    ensures r.event == None <==> r.state == s
    ensures r.event == None <==> Approx(Clamp01(newVolume), s.volume)
    ensures r.event.Some? ==>
              && r.state.volume == Clamp01(newVolume)
              && r.event.value == Change(s.volume, r.state.volume)
              && r.state.dirty == (s.dirty || !ignoreDirty)
  {
    var clamped := Clamp01(newVolume);
    if Approx(clamped, s.volume) then
      Step(s, None)
    else
      ApproxReflexive(clamped);
      Step(State(clamped, s.defaultVolume, s.dirty || !ignoreDirty), Some(Change(s.volume, clamped)))
  }

  /** SetDefaultVolume(newDefaultVolume): the default follows through only while clean. */
  function SetDefaultVolume(s: State, newDefaultVolume: real): (r: Step)
    ensures r.state.defaultVolume == newDefaultVolume
    ensures r.state.dirty == s.dirty
    ensures Valid(s) ==> Valid(r.state)
    ensures s.dirty ==> r.state.volume == s.volume && r.event == None
    ensures !s.dirty && !Approx(Clamp01(newDefaultVolume), s.volume) ==>
              r.state.volume == Clamp01(newDefaultVolume) && r.event == Some(Change(s.volume, r.state.volume))
    ensures !s.dirty && Approx(Clamp01(newDefaultVolume), s.volume) ==>
              r.state.volume == s.volume && r.event == None
  {
    var s' := s.(defaultVolume := newDefaultVolume);
    if s.dirty then Step(s', None) else SetVolume(s', newDefaultVolume, true)
  }

  /** ReApplyVolume(): sets the current volume again through the dirtying setter. */
  function ReApplyVolume(s: State): (r: Step)
    ensures r.state.defaultVolume == s.defaultVolume
    ensures Valid(s) ==> Valid(r.state)
    ensures r.event == None <==> r.state == s
  {
    SetVolume(s, s.volume, false)
  }

  /** Save(): writes the volume under the key only when dirty. */
  function Save(s: State, key: string, store: map<string, real>): (r: map<string, real>)
    ensures s.dirty ==> key in r && r[key] == s.volume && r - {key} == store - {key}
    ensures !s.dirty ==> r == store
  {
    if s.dirty then store[key := s.volume] else store
  }

  /** Load(): no saved entry resets the volume to 1 without dirtying; a saved entry is
      applied through the dirtying setter. */
  function Load(s: State, key: string, store: map<string, real>): (r: Step)
    ensures r.state.defaultVolume == s.defaultVolume
    ensures Valid(s) ==> Valid(r.state)
    ensures s.dirty ==> r.state.dirty
    ensures key !in store ==> r.state.dirty == s.dirty
    ensures r.event == None <==> r.state == s
    ensures r.event.Some? ==> r.event.value == Change(s.volume, r.state.volume)
    ensures key in store ==> (r.event == None <==> Approx(Clamp01(store[key]), s.volume))
    ensures key in store && r.event.Some? ==> r.state.volume == Clamp01(store[key])
    ensures key !in store ==> (r.event == None <==> Approx(1.0, s.volume))
    ensures key !in store && r.event.Some? ==> r.state.volume == 1.0
  {
    if key !in store then SetVolume(s, 1.0, true) else SetVolume(s, store[key], false)
  }

  /** Re-applying the current volume of a valid setting changes nothing and raises nothing. */
  lemma ReApplyIsNoOp(s: State)
    requires Valid(s)
    ensures ReApplyVolume(s) == Step(s, None)
  {
    ApproxReflexive(s.volume);
  }

  /** Load without a saved entry never dirties and ends at volume 1 (up to the tolerance
      under which the setter refuses to move). */
  lemma LoadMissingKey(s: State, key: string, store: map<string, real>)
    requires key !in store
    ensures Load(s, key, store).state.dirty == s.dirty
    ensures Load(s, key, store).state.volume == 1.0 || Approx(1.0, s.volume)
  {
  }

  /** Load with a saved entry, from any state, moves the volume to the clamped saved value
      unless that is approximately the current volume, and dirties exactly when it moves. */
  lemma LoadPresentKey(s: State, key: string, store: map<string, real>)
    requires key in store
    ensures Load(s, key, store).state.dirty == (s.dirty || !Approx(Clamp01(store[key]), s.volume))
    ensures Load(s, key, store).state.volume ==
              if Approx(Clamp01(store[key]), s.volume) then s.volume else Clamp01(store[key])
  {
  }

  /** Save on a dirty setting followed by Load on a freshly constructed one restores the saved
      volume, unless it is within tolerance of the fresh volume 1; the restored setting is
      dirty exactly when the volume moved. A clean setting saves nothing. */
  lemma SaveThenLoadRestores(saved: State, key: string, store: map<string, real>, defaultVolume: real)
    requires Valid(saved)
    ensures var loaded := Load(Initial(defaultVolume), key, Save(saved, key, store)).state;
            saved.dirty ==>
              && (loaded.volume == saved.volume || (Approx(saved.volume, 1.0) && loaded.volume == 1.0))
              && loaded.dirty == !Approx(saved.volume, 1.0)
              && loaded.defaultVolume == defaultVolume
    ensures !saved.dirty ==> Save(saved, key, store) == store
  {
  }

  /** The operations a setting goes through, for reasoning about sequences of them. */
  datatype Op =
    | SetVolumeOp(newVolume: real, ignoreDirty: bool)
    | SetDefaultVolumeOp(newDefaultVolume: real)
    | ReApplyVolumeOp
    | LoadOp(key: string, store: map<string, real>)

  function Apply(s: State, op: Op): Step {
    match op
    case SetVolumeOp(v, ignore) => SetVolume(s, v, ignore)
    case SetDefaultVolumeOp(d) => SetDefaultVolume(s, d)
    case ReApplyVolumeOp => ReApplyVolume(s)
    case LoadOp(key, store) => Load(s, key, store)
  }

  /** Final state and every event raised, in order, by a sequence of operations. */
  datatype Trace = Trace(state: State, events: seq<Change>)

  function Run(s: State, ops: seq<Op>): Trace
    decreases |ops|
  {
    if ops == [] then Trace(s, [])
    else
      var step := Apply(s, ops[0]);
      var rest := Run(step.state, ops[1..]);
      Trace(rest.state, (if step.event.Some? then [step.event.value] else []) + rest.events)
  }

  /** Events form a chain from the start volume to the end volume: each event's previous
      volume is the last announced one, and the volume never moves silently. */
  ghost predicate Chained(start: real, events: seq<Change>, end: real)
    decreases |events|
  {
    if events == [] then start == end
    else events[0].prev == start && Chained(events[0].next, events[1..], end)
  }

  /** Once dirty, a setting stays dirty through any sequence of operations. */
  lemma {:induction false} DirtyIsSticky(s: State, ops: seq<Op>)
    requires s.dirty
    ensures Run(s, ops).state.dirty
    decreases |ops|
  {
    if ops != [] {
      DirtyIsSticky(Apply(s, ops[0]).state, ops[1..]);
    }
  }

  /** The volume stays in [0, 1] through any sequence of operations. */
  lemma {:induction false} RunKeepsValid(s: State, ops: seq<Op>)
    requires Valid(s)
    ensures Valid(Run(s, ops).state)
    decreases |ops|
  {
    if ops != [] {
      RunKeepsValid(Apply(s, ops[0]).state, ops[1..]);
    }
  }

  /** Listeners that follow the events see every volume change, in order, with consistent
      previous values. */
  lemma {:induction false} RunEventsChained(s: State, ops: seq<Op>)
    ensures Chained(s.volume, Run(s, ops).events, Run(s, ops).state.volume)
    decreases |ops|
  {
    if ops != [] {
      var step := Apply(s, ops[0]);
      RunEventsChained(step.state, ops[1..]);
      var events := Run(s, ops).events;
      if step.event.Some? {
        assert events[1..] == Run(step.state, ops[1..]).events;
        assert step.event.value.next == step.state.volume;
      } else {
        assert step.state.volume == s.volume;
        assert events == Run(step.state, ops[1..]).events;
      }
    }
  }

  /** Operations that never dirty: defaults, sets that ignore the dirty flag, and loads
      without a saved entry. They keep a clean setting clean. */
  predicate NeverDirties(op: Op) {
    op.SetDefaultVolumeOp? || (op.SetVolumeOp? && op.ignoreDirty) || (op.LoadOp? && op.key !in op.store)
  }

  lemma {:induction false} CleanStaysClean(s: State, ops: seq<Op>)
    requires !s.dirty
    requires forall i :: 0 <= i < |ops| ==> NeverDirties(ops[i])
    ensures !Run(s, ops).state.dirty
    decreases |ops|
  {
    if ops != [] {
      CleanStaysClean(Apply(s, ops[0]).state, ops[1..]);
    }
  }
}
