/** The A/B update coordinator against the device it drives: two image slots and a boot
    marker. Every operation of the device may fail, and a failed write may leave a torn image. */
module OtaCoordinator {
  datatype State =
    | Idle | Downloading | Downloaded | Installing | Switching | HealthGate | Committed | RolledBack

  datatype Result = Accepted | RejectedSignature | RejectedVersion | RejectedState | Aborted

  datatype Image = Torn | Whole(version: int)

  /** home is the slot the rollback operation points the marker back to. */
  datatype Device = Device(slots: map<char, Image>, marker: char, home: char) {
    predicate Bootable() {
      marker in slots && slots[marker].Whole?
    }
  }

  /** Which of the injected operations are provided. */
  datatype Ops = Ops(fetch: bool, write: bool, setBootTarget: bool, rollbackMarker: bool)

  /** Untouched and Broken are both reported as a failed write. */
  datatype WriteOutcome = Untouched | Broken | Written

  datatype Control = Control(
    state: State,
    activeSlot: char,
    activeVersion: int,
    securityCounter: int,
    candidate: int)

  /** trail holds every state the device has passed through, those inside a write included. */
  datatype World = World(ctl: Control, dev: Device, trail: seq<Device>) {
    function In(s: State): World { this.(ctl := ctl.(state := s)) }
    function Drive(d: Device): World { World(ctl, d, trail + [d]) }
  }

  /** The calls of the interface, with the outcomes of the operations they trigger. */
  datatype Call =
    | RequestUpdate(version: int, signatureValid: bool)
    | OnDownloadComplete
    | BeginInstall(written: WriteOutcome)
    | OnInstallComplete
    | SwitchBootTarget(switched: bool)
    | OnHealth(ok: bool, restored: bool)
    | ForceRollback(restored: bool)
    | RunUpdate(version: int, signatureValid: bool, fetched: bool, written: WriteOutcome, switched: bool)

  function OtherSlot(s: char): (r: char)
    ensures r != s
    ensures s == 'A' || s == 'B' ==> r == 'A' || r == 'B'
  {
    if s == 'A' then 'B' else 'A'
  }

  // ---- the calls ----

  function Requested(w: World, version: int, signatureValid: bool): (World, Result) {
    if !w.ctl.state.Idle? then (w, RejectedState)
    else if !signatureValid then (w, RejectedSignature)
    else if version < w.ctl.securityCounter then (w, RejectedVersion)
    else (w.(ctl := w.ctl.(candidate := version, state := Downloading)), Accepted)
  }

  function Advanced(w: World, from: State, to: State): (World, Result) {
    if w.ctl.state != from then (w, RejectedState) else (w.In(to), Accepted)
  }

  /** A write that starts tears the image first and makes it whole only if it succeeds. */
  function Burned(w: World, slot: char, o: WriteOutcome): World {
    if o.Untouched? then w
    else
      var torn := w.Drive(w.dev.(slots := w.dev.slots[slot := Torn]));
      if o.Broken? then torn
      else torn.Drive(torn.dev.(slots := torn.dev.slots[slot := Whole(w.ctl.candidate)]))
  }

  function Installed(ops: Ops, w: World, o: WriteOutcome): (World, Result) {
    if !w.ctl.state.Downloaded? then (w, RejectedState)
    else if !ops.write then (w.In(Idle), Aborted)
    else
      var burned := Burned(w, OtherSlot(w.ctl.activeSlot), o);
      if o.Written? then (burned.In(Installing), Accepted) else (burned.In(Idle), Aborted)
  }

  function Switched(ops: Ops, w: World, switched: bool): (World, Result) {
    if !w.ctl.state.Switching? then (w, RejectedState)
    else if !ops.setBootTarget || !switched then (w, Aborted)
    else (w.Drive(w.dev.(marker := OtherSlot(w.ctl.activeSlot))).In(HealthGate), Accepted)
  }

  function Withdrawn(ops: Ops, w: World, restored: bool): (World, Result) {
    if !w.ctl.state.HealthGate? then (w, RejectedState)
    else
      var back := if ops.rollbackMarker && restored then w.Drive(w.dev.(marker := w.dev.home)) else w;
      (back.In(RolledBack), Accepted)
  }

  function Judged(ops: Ops, w: World, ok: bool, restored: bool): (World, Result) {
    if !w.ctl.state.HealthGate? || !ok then Withdrawn(ops, w, restored)
    else
      var c := w.ctl;
      var counter := if c.candidate > c.securityCounter then c.candidate else c.securityCounter;
      (w.(ctl := Control(Committed, OtherSlot(c.activeSlot), c.candidate, counter, c.candidate)), Accepted)
  }

  /** The one-call facade drives the same machine and stops at the first refusal. */
  function Updated(ops: Ops, w: World, call: Call): (World, Result)
    requires call.RunUpdate?
  {
    var (w1, r1) := Requested(w, call.version, call.signatureValid);
    if r1 != Accepted then (w1, r1)
    else if ops.fetch && !call.fetched then (w1.In(Idle), Aborted)
    else
      var (w2, r2) := Advanced(w1, Downloading, Downloaded);
      if r2 != Accepted then (w2, r2)
      else
        var (w3, r3) := Installed(ops, w2, call.written);
        if r3 != Accepted then (w3, r3)
        else
          var (w4, r4) := Advanced(w3, Installing, Switching);
          if r4 != Accepted then (w4, r4) else Switched(ops, w4, call.switched)
  }

  function Apply(ops: Ops, w: World, call: Call): (World, Result) {
    match call
    case RequestUpdate(v, valid) => Requested(w, v, valid)
    case OnDownloadComplete => Advanced(w, Downloading, Downloaded)
    case BeginInstall(o) => Installed(ops, w, o)
    case OnInstallComplete => Advanced(w, Installing, Switching)
    case SwitchBootTarget(switched) => Switched(ops, w, switched)
    case OnHealth(ok, restored) => Judged(ops, w, ok, restored)
    case ForceRollback(restored) => Withdrawn(ops, w, restored)
    case RunUpdate(_, _, _, _, _) => Updated(ops, w, call)
  }

  function Run(ops: Ops, w0: World, calls: seq<Call>): World {
    if calls == [] then w0
    else Apply(ops, Run(ops, w0, calls[..|calls| - 1]), calls[|calls| - 1]).0
  }

  // ---- what every call keeps ----

  /** A fresh coordinator over a device that boots the active slot. */
  predicate Start(w0: World) {
    && w0.ctl.state.Idle?
    && w0.dev.Bootable()
    && w0.dev.marker == w0.dev.home == w0.ctl.activeSlot
    && w0.trail == [w0.dev]
  }

  /** At this instant the device boots, and the original active slot is as it was. */
  predicate Safe(w0: World, d: Device)
    requires Start(w0)
  {
    var home := w0.ctl.activeSlot;
    && d.Bootable()
    && d.home == home
    && home in d.slots && d.slots[home] == w0.dev.slots[home]
  }

  predicate Holds(d: Device, slot: char, version: int) {
    slot in d.slots && d.slots[slot] == Whole(version)
  }

  predicate Inv(w0: World, w: World)
    requires Start(w0)
  {
    var home := w0.ctl.activeSlot;
    var c := w.ctl;
    && |w.trail| > 0 && w.trail[|w.trail| - 1] == w.dev
    && (forall i :: 0 <= i < |w.trail| ==> Safe(w0, w.trail[i]))
    && (c.state.Idle? || c.candidate >= w0.ctl.securityCounter)
    && (c.state.Installing? || c.state.Switching? || c.state.HealthGate? || c.state.Committed? || c.state.RolledBack?
        ==> Holds(w.dev, OtherSlot(home), c.candidate))
    && (if c.state.HealthGate? || c.state.Committed? then w.dev.marker == OtherSlot(home)
        else if c.state.RolledBack? then w.dev.marker == home || w.dev.marker == OtherSlot(home)
        else w.dev.marker == home)
    && (if c.state.Committed? then
          c.activeSlot == OtherSlot(home) && c.activeVersion == c.candidate && c.securityCounter == c.candidate
        else
          && c.activeSlot == home && c.activeVersion == w0.ctl.activeVersion
          && c.securityCounter == w0.ctl.securityCounter)
  }

  lemma DriveKeeps(w0: World, w: World, d: Device, s: State)
    requires Start(w0) && Inv(w0, w) && Safe(w0, d)
    requires Inv(w0, World(w.ctl.(state := s), d, [d]))
    ensures Inv(w0, w.Drive(d).In(s))
  {
  }

  lemma InstallKeeps(ops: Ops, w0: World, w: World, o: WriteOutcome)
    requires Start(w0) && Inv(w0, w)
    ensures Inv(w0, Installed(ops, w, o).0)
  {
    if w.ctl.state.Downloaded? && ops.write && !o.Untouched? {
      var slot := OtherSlot(w.ctl.activeSlot);
      var torn := w.Drive(w.dev.(slots := w.dev.slots[slot := Torn]));
      assert Safe(w0, w.trail[|w.trail| - 1]);
      DriveKeeps(w0, w, torn.dev, Downloaded);
      if o.Written? {
        var whole := torn.dev.(slots := torn.dev.slots[slot := Whole(w.ctl.candidate)]);
        DriveKeeps(w0, torn.In(Downloaded), whole, Installing);
      }
    }
  }

  lemma SwitchKeeps(ops: Ops, w0: World, w: World, switched: bool)
    requires Start(w0) && Inv(w0, w)
    ensures Inv(w0, Switched(ops, w, switched).0)
  {
    if w.ctl.state.Switching? {
      assert Safe(w0, w.trail[|w.trail| - 1]);
      DriveKeeps(w0, w, w.dev.(marker := OtherSlot(w.ctl.activeSlot)), HealthGate);
    }
  }

  lemma WithdrawKeeps(ops: Ops, w0: World, w: World, restored: bool)
    requires Start(w0) && Inv(w0, w)
    ensures Inv(w0, Withdrawn(ops, w, restored).0)
  {
    if w.ctl.state.HealthGate? {
      assert Safe(w0, w.trail[|w.trail| - 1]);
      DriveKeeps(w0, w, w.dev.(marker := w.dev.home), RolledBack);
    }
  }

  lemma RequestKeeps(w0: World, w: World, version: int, valid: bool)
    requires Start(w0) && Inv(w0, w)
    ensures Inv(w0, Requested(w, version, valid).0)
    ensures Inv(w0, Requested(w, version, valid).0.In(Idle)) || !w.ctl.state.Idle?
  {
  }

  lemma AdvanceKeeps(w0: World, w: World)
    requires Start(w0) && Inv(w0, w)
    ensures Inv(w0, Advanced(w, Downloading, Downloaded).0)
    ensures Inv(w0, Advanced(w, Installing, Switching).0)
  {
  }

  lemma UpdateKeeps(ops: Ops, w0: World, w: World, call: Call)
    requires Start(w0) && Inv(w0, w) && call.RunUpdate?
    ensures Inv(w0, Updated(ops, w, call).0)
  {
    hide Inv, Start, Installed, Switched;
    RequestKeeps(w0, w, call.version, call.signatureValid);
    var w1 := Requested(w, call.version, call.signatureValid).0;
    AdvanceKeeps(w0, w1);
    var w2 := Advanced(w1, Downloading, Downloaded).0;
    InstallKeeps(ops, w0, w2, call.written);
    var w3 := Installed(ops, w2, call.written).0;
    AdvanceKeeps(w0, w3);
    SwitchKeeps(ops, w0, Advanced(w3, Installing, Switching).0, call.switched);
  }

  lemma ApplyKeeps(ops: Ops, w0: World, w: World, call: Call)
    requires Start(w0) && Inv(w0, w)
    ensures Inv(w0, Apply(ops, w, call).0)
  {
    match call
    case BeginInstall(o) => InstallKeeps(ops, w0, w, o);
    case SwitchBootTarget(switched) => SwitchKeeps(ops, w0, w, switched);
    case OnHealth(_, restored) => WithdrawKeeps(ops, w0, w, restored);
    case ForceRollback(restored) => WithdrawKeeps(ops, w0, w, restored);
    case RunUpdate(_, _, _, _, _) => UpdateKeeps(ops, w0, w, call);
    case _ =>
  }

  lemma {:induction false} RunKeeps(ops: Ops, w0: World, calls: seq<Call>)
    requires Start(w0)
    ensures Inv(w0, Run(ops, w0, calls))
  {
    if calls != [] {
      var before := calls[..|calls| - 1];
      RunKeeps(ops, w0, before);
      ApplyKeeps(ops, w0, Run(ops, w0, before), calls[|calls| - 1]);
    }
  }

  // ---- crash safety ----

  /** Losing power at any instant of any run leaves a device that boots a completely
      written image, and the slot that was active holds exactly what it held. */
  lemma CrashSafe(ops: Ops, w0: World, calls: seq<Call>, i: nat)
    requires Start(w0)
    requires i < |Run(ops, w0, calls).trail|
    ensures
      var d := Run(ops, w0, calls).trail[i];
      && d.marker in d.slots && d.slots[d.marker].Whole?
      && w0.ctl.activeSlot in d.slots && d.slots[w0.ctl.activeSlot] == w0.dev.slots[w0.ctl.activeSlot]
  {
    RunKeeps(ops, w0, calls);
  }

  /** From w to r the device only moves on, and nothing but one slot and the marker changes. */
  predicate OnlyTouches(w: World, r: World, slot: char) {
    && r.ctl.activeSlot == w.ctl.activeSlot
    && r.dev.slots - {slot} == w.dev.slots - {slot}
    && |w.trail| <= |r.trail| && r.trail[..|w.trail|] == w.trail
    && forall i :: |w.trail| <= i < |r.trail| ==> r.trail[i].slots - {slot} == w.dev.slots - {slot}
  }

  lemma TouchesTransitive(a: World, b: World, c: World, slot: char)
    requires OnlyTouches(a, b, slot) && OnlyTouches(b, c, slot)
    ensures OnlyTouches(a, c, slot)
  {
    assert c.trail[..|a.trail|] == c.trail[..|b.trail|][..|a.trail|];
    forall i | |a.trail| <= i < |c.trail|
      ensures c.trail[i].slots - {slot} == a.dev.slots - {slot}
    {
      if i < |b.trail| {
        assert c.trail[i] == c.trail[..|b.trail|][i];
      }
    }
  }

  lemma InstallTouches(ops: Ops, w: World, o: WriteOutcome)
    ensures OnlyTouches(w, Installed(ops, w, o).0, OtherSlot(w.ctl.activeSlot))
  {
  }

  lemma SwitchTouches(ops: Ops, w: World, switched: bool)
    ensures OnlyTouches(w, Switched(ops, w, switched).0, OtherSlot(w.ctl.activeSlot))
  {
  }

  /** At every instant of every call, a write under way included, every slot but the one
      that is not active is as it was before the call. */
  lemma OnlyInactiveWritten(ops: Ops, w: World, call: Call, i: nat)
    requires |w.trail| <= i < |Apply(ops, w, call).0.trail|
    ensures
      var inactive := OtherSlot(w.ctl.activeSlot);
      && w.trail == Apply(ops, w, call).0.trail[..|w.trail|]
      && Apply(ops, w, call).0.trail[i].slots - {inactive} == w.dev.slots - {inactive}
  {
    match call
    case BeginInstall(o) => InstallTouches(ops, w, o);
    case SwitchBootTarget(switched) => SwitchTouches(ops, w, switched);
    case RunUpdate(v, valid, _, o, switched) =>
      hide Installed, Switched;
      var w2 := Advanced(Requested(w, v, valid).0, Downloading, Downloaded).0;
      InstallTouches(ops, w2, o);
      var w4 := Advanced(Installed(ops, w2, o).0, Installing, Switching).0;
      SwitchTouches(ops, w4, switched);
      TouchesTransitive(w2, w4, Switched(ops, w4, switched).0, OtherSlot(w.ctl.activeSlot));
    case _ =>
  }

  /** What the coordinator calls active is what is on the device: slot and version agree. */
  lemma ActiveIsInstalled(ops: Ops, w0: World, calls: seq<Call>)
    requires Start(w0) && w0.dev.slots[w0.ctl.activeSlot] == Whole(w0.ctl.activeVersion)
    ensures
      var w := Run(ops, w0, calls);
      Holds(w.dev, w.ctl.activeSlot, w.ctl.activeVersion)
  {
    RunKeeps(ops, w0, calls);
    var w := Run(ops, w0, calls);
    assert Safe(w0, w.trail[|w.trail| - 1]);
  }

  lemma TerminalStates(ops: Ops, w: World, call: Call)
    requires w.ctl.state.Committed? || w.ctl.state.RolledBack?
    ensures Apply(ops, w, call) == (w, RejectedState)
  {
  }

  /** In SWITCHING, where a failed switch of the marker leaves the coordinator, every call but
      another attempt to switch is refused, run_update included. */
  lemma OnlySwitchGoesOn(ops: Ops, w: World, call: Call)
    requires w.ctl.state.Switching?
    ensures Apply(ops, w, call) == (w, RejectedState) <==> !call.SwitchBootTarget?
  {
  }

  /** The call that aborts does so at the boot marker, not before. */
  predicate ReachesSwitch(ops: Ops, call: Call) {
    || call.SwitchBootTarget?
    || (call.RunUpdate? && (ops.fetch ==> call.fetched) && ops.write && call.written.Written?)
  }

  /** A refusal comes before anything is touched; an abort leaves the boot marker, the
      active slot, its version and the counter alone. */
  lemma RefusalsTouchNothing(ops: Ops, w0: World, w: World, call: Call)
    requires Start(w0) && Inv(w0, w)
    ensures
      var (w', r) := Apply(ops, w, call);
      && (r != Accepted && r != Aborted ==> w' == w)
      && (r == Aborted ==>
            && w'.dev.marker == w.dev.marker
            && w'.ctl == w.ctl.(state := w'.ctl.state, candidate := w'.ctl.candidate)
            && w'.ctl.state == if ReachesSwitch(ops, call) then Switching else Idle)
  {
  }

  // ---- the boot marker ----

  predicate MarkerExact(w: World) {
    w.dev.marker != w.ctl.activeSlot <==> w.ctl.state.HealthGate?
  }

  /** A rollback that is called for but does not reach the marker. */
  predicate Slips(ops: Ops, w: World, call: Call) {
    && w.ctl.state.HealthGate?
    && (call.ForceRollback? || (call.OnHealth? && !call.ok))
    && !(ops.rollbackMarker && call.restored)
  }

  predicate Slipped(ops: Ops, w0: World, calls: seq<Call>) {
    calls != [] &&
    var before := calls[..|calls| - 1];
    Slipped(ops, w0, before) || Slips(ops, Run(ops, w0, before), calls[|calls| - 1])
  }

  /** The marker names a slot other than the active one exactly in HEALTH_GATE — as long as
      no rollback slipped, and never again once one did. */
  lemma {:induction false} MarkerExactIff(ops: Ops, w0: World, calls: seq<Call>)
    requires Start(w0)
    ensures MarkerExact(Run(ops, w0, calls)) <==> !Slipped(ops, w0, calls)
    ensures Slipped(ops, w0, calls) ==> Run(ops, w0, calls).ctl.state.RolledBack?
  {
    RunKeeps(ops, w0, calls);
    if calls != [] {
      var before := calls[..|calls| - 1];
      var w, call := Run(ops, w0, before), calls[|calls| - 1];
      RunKeeps(ops, w0, before);
      MarkerExactIff(ops, w0, before);
      if Slipped(ops, w0, before) {
        TerminalStates(ops, w, call);
      } else if w.ctl.state.RolledBack? {
        TerminalStates(ops, w, call);
      }
      assert Safe(w0, w.trail[|w.trail| - 1]);
    }
  }

  /** The calls of an update that is accepted at every step. */
  function Upgrade(v: int): seq<Call> {
    [RequestUpdate(v, true), OnDownloadComplete, BeginInstall(Written), OnInstallComplete, SwitchBootTarget(true)]
  }

  lemma UpgradeReachesGate(ops: Ops, w0: World, v: int)
    requires Start(w0) && v >= w0.ctl.securityCounter && ops.write && ops.setBootTarget
    ensures Run(ops, w0, Upgrade(v)).ctl == w0.ctl.(state := HealthGate, candidate := v)
    ensures Run(ops, w0, Upgrade(v)) == Apply(ops, w0, RunUpdate(v, true, true, Written, true)).0
  {
    var calls := Upgrade(v);
    assert calls[..4][..3] == calls[..3] && calls[..3][..2] == calls[..2] && calls[..2][..1] == calls[..1];
    assert calls[..1][..0] == [];
    assert Run(ops, w0, calls[..1]) == Requested(w0, v, true).0;
    assert Run(ops, w0, calls[..2]).ctl.state.Downloaded?;
    assert Run(ops, w0, calls[..3]).ctl.state.Installing?;
    assert Run(ops, w0, calls[..4]).ctl.state.Switching?;
  }

  lemma RunAppend(ops: Ops, w0: World, calls: seq<Call>, call: Call)
    ensures Run(ops, w0, calls + [call]) == Apply(ops, Run(ops, w0, calls), call).0
    ensures Slipped(ops, w0, calls + [call]) <==> Slipped(ops, w0, calls) || Slips(ops, Run(ops, w0, calls), call)
  {
    assert (calls + [call])[..|calls + [call]| - 1] == calls;
  }

  /** The promise about the marker fails on some run exactly when an update can get as far as
      the marker and the rollback operation is missing, however well every provided operation
      works. */
  lemma MarkerNeedsRollback(ops: Ops, w0: World)
    requires Start(w0)
    ensures ops.rollbackMarker || !ops.write || !ops.setBootTarget <==>
            forall calls: seq<Call> :: Restoring(calls) ==> MarkerExact(Run(ops, w0, calls))
  {
    if !ops.write || !ops.setBootTarget {
      forall calls: seq<Call>
        ensures MarkerExact(Run(ops, w0, calls))
      {
        NeverAtGate(ops, w0, calls);
        RunKeeps(ops, w0, calls);
      }
    } else if ops.rollbackMarker {
      forall calls: seq<Call> | Restoring(calls)
        ensures MarkerExact(Run(ops, w0, calls))
      {
        NoSlip(ops, w0, calls);
        MarkerExactIff(ops, w0, calls);
      }
    } else {
      var v := w0.ctl.securityCounter;
      UpgradeReachesGate(ops, w0, v);
      RunAppend(ops, w0, Upgrade(v), ForceRollback(true));
      MarkerExactIff(ops, w0, Upgrade(v) + [ForceRollback(true)]);
      assert Restoring(Upgrade(v) + [ForceRollback(true)]);
    }
  }

  predicate BeforeGate(w: World) {
    !w.ctl.state.HealthGate? && !w.ctl.state.Committed? && !w.ctl.state.RolledBack?
  }

  /** Without a write or a switch operation no run gets as far as the marker. */
  lemma {:induction false} NeverAtGate(ops: Ops, w0: World, calls: seq<Call>)
    requires Start(w0) && (!ops.write || !ops.setBootTarget)
    ensures BeforeGate(Run(ops, w0, calls))
    ensures !ops.write ==> !Run(ops, w0, calls).ctl.state.Installing? && !Run(ops, w0, calls).ctl.state.Switching?
  {
    if calls != [] {
      NeverAtGate(ops, w0, calls[..|calls| - 1]);
    }
  }

  /** No rollback operation of the run fails. */
  predicate Restoring(calls: seq<Call>) {
    forall i :: 0 <= i < |calls| ==> calls[i].OnHealth? || calls[i].ForceRollback? ==> calls[i].restored
  }

  lemma {:induction false} NoSlip(ops: Ops, w0: World, calls: seq<Call>)
    requires Restoring(calls) && ops.rollbackMarker
    ensures !Slipped(ops, w0, calls)
  {
    if calls != [] {
      NoSlip(ops, w0, calls[..|calls| - 1]);
    }
  }

  // ---- one state for each call ----

  function StateFor(call: Call): State {
    match call
    case RequestUpdate(_, _) => Idle
    case OnDownloadComplete => Downloading
    case BeginInstall(_) => Downloaded
    case OnInstallComplete => Installing
    case SwitchBootTarget(_) => Switching
    case OnHealth(_, _) => HealthGate
    case ForceRollback(_) => HealthGate
    case RunUpdate(_, _, _, _, _) => Idle
  }

  /** A call out of turn, and no other one, is rejected for the state; nothing else happens. An
      accepted call leads on to the state of the next one. */
  lemma OutOfTurnIff(ops: Ops, w: World, call: Call)
    ensures var (r, result) := Apply(ops, w, call);
      && (result == RejectedState <==> w.ctl.state != StateFor(call))
      && (result == RejectedState ==> r == w)
      && (result == Accepted ==>
            r.ctl.state == match call
              case RequestUpdate(_, _) => Downloading
              case OnDownloadComplete => Downloaded
              case BeginInstall(_) => Installing
              case OnInstallComplete => Switching
              case SwitchBootTarget(_) => HealthGate
              case OnHealth(ok, _) => if ok then Committed else RolledBack
              case ForceRollback(_) => RolledBack
              case RunUpdate(_, _, _, _, _) => HealthGate)
  {
  }

  // ---- the write ----

  /** An install that gets as far as the write touches the other slot only. A write that starts
      leaves it torn on the way, and a write that breaks leaves it torn for good. */
  lemma InstallExact(ops: Ops, w: World, o: WriteOutcome)
    requires w.ctl.state.Downloaded? && ops.write
    ensures var (r, result) := Apply(ops, w, BeginInstall(o));
      var s := OtherSlot(w.ctl.activeSlot);
      && (result == Accepted <==> o.Written?)
      && r.dev.marker == w.dev.marker && r.dev.home == w.dev.home
      && r.dev.slots == (match o
           case Untouched => w.dev.slots
           case Broken => w.dev.slots[s := Torn]
           case Written => w.dev.slots[s := Whole(w.ctl.candidate)])
      && (o.Untouched? ==> r.trail == w.trail)
      && (!o.Untouched? ==> exists d :: d in r.trail[|w.trail|..] && d.slots == w.dev.slots[s := Torn])
  {
    if !o.Untouched? {
      var r := Apply(ops, w, BeginInstall(o)).0;
      assert r.trail[|w.trail|].slots == w.dev.slots[OtherSlot(w.ctl.activeSlot) := Torn];
      assert r.trail[|w.trail|] in r.trail[|w.trail|..];
    }
  }

  // ---- the health gate ----

  /** The calls that withdraw a candidate: a failed health report, and the watchdog. */
  predicate Withdraws(call: Call) {
    call.ForceRollback? || (call.OnHealth? && !call.ok)
  }

  /** A candidate that is withdrawn leaves the coordinator on the old slot, version and counter,
      and the marker back at home exactly if the rollback operation is provided and works. */
  lemma FailureRollsBack(ops: Ops, w: World, call: Call)
    requires w.ctl.state.HealthGate? && Withdraws(call)
    ensures var (r, result) := Apply(ops, w, call);
      && result == Accepted
      && r.ctl.state == RolledBack
      && r.ctl.activeSlot == w.ctl.activeSlot && r.ctl.activeVersion == w.ctl.activeVersion
      && r.ctl.securityCounter == w.ctl.securityCounter
      && r.dev.slots == w.dev.slots
      && r.dev.marker == if ops.rollbackMarker && call.restored then w.dev.home else w.dev.marker
  {
  }

  /** A healthy candidate becomes the active one where it stands. */
  lemma HealthCommits(ops: Ops, w: World, restored: bool)
    requires w.ctl.state.HealthGate?
    ensures var (r, result) := Apply(ops, w, OnHealth(true, restored));
      && result == Accepted
      && r.ctl.state == Committed
      && r.ctl.activeSlot == OtherSlot(w.ctl.activeSlot) && r.ctl.activeVersion == w.ctl.candidate
      && r.ctl.securityCounter >= w.ctl.securityCounter && r.ctl.securityCounter >= w.ctl.candidate
      && (r.ctl.securityCounter == w.ctl.securityCounter || r.ctl.securityCounter == w.ctl.candidate)
      && r.dev == w.dev
  {
  }

  /** Call number i of the run was made at the gate and reported the candidate healthy. */
  ghost predicate HealthyAt(ops: Ops, w0: World, calls: seq<Call>, i: nat)
    requires i < |calls|
  {
    calls[i].OnHealth? && calls[i].ok && Run(ops, w0, calls[..i]).ctl.state.HealthGate?
  }

  lemma StateAfter(ops: Ops, w: World, call: Call)
    ensures var r := Apply(ops, w, call).0;
      && (r.ctl.state.Committed? <==>
            w.ctl.state.Committed? || (w.ctl.state.HealthGate? && call.OnHealth? && call.ok))
      && (r.ctl.state.RolledBack? <==> w.ctl.state.RolledBack? || (w.ctl.state.HealthGate? && Withdraws(call)))
  {
  }

  /** Over every run: committed exactly if some call made at the gate reported the candidate
      healthy. */
  lemma {:induction false} CommittedIffHealthy(ops: Ops, w0: World, calls: seq<Call>)
    requires Start(w0)
    ensures Run(ops, w0, calls).ctl.state.Committed? <==> exists i: nat :: i < |calls| && HealthyAt(ops, w0, calls, i)
  {
    hide Apply;
    if calls != [] {
      var n := |calls| - 1;
      var before := calls[..n];
      CommittedIffHealthy(ops, w0, before);
      StateAfter(ops, Run(ops, w0, before), calls[n]);
      forall i: nat | i < n ensures HealthyAt(ops, w0, before, i) <==> HealthyAt(ops, w0, calls, i) {
        assert before[..i] == calls[..i];
      }
      assert HealthyAt(ops, w0, calls, n) <==>
        calls[n].OnHealth? && calls[n].ok && Run(ops, w0, before).ctl.state.HealthGate?;
    }
  }

  // ---- versions ----

  /** The counter never goes back, and a committed version is at least the counter that
      was in force before the commit and becomes the new one. */
  lemma CounterMonotone(ops: Ops, w0: World, calls: seq<Call>, call: Call)
    requires Start(w0)
    ensures
      var w := Run(ops, w0, calls);
      var w' := Apply(ops, w, call).0;
      && w'.ctl.securityCounter >= w.ctl.securityCounter >= w0.ctl.securityCounter
      && (w'.ctl.state.Committed? ==> w'.ctl.activeVersion == w'.ctl.securityCounter == w.ctl.candidate)
  {
    RunKeeps(ops, w0, calls);
    ApplyKeeps(ops, w0, Run(ops, w0, calls), call);
  }

  /** The active version never goes back on any run exactly when it did not exceed the
      security counter the coordinator was built with, or no update can be completed. */
  lemma NoDowngradeIff(ops: Ops, w0: World)
    requires Start(w0)
    ensures w0.ctl.activeVersion <= w0.ctl.securityCounter || !ops.write || !ops.setBootTarget <==>
            forall calls: seq<Call> :: Run(ops, w0, calls).ctl.activeVersion >= w0.ctl.activeVersion
  {
    if !ops.write || !ops.setBootTarget {
      forall calls: seq<Call>
        ensures Run(ops, w0, calls).ctl.activeVersion >= w0.ctl.activeVersion
      {
        NeverAtGate(ops, w0, calls);
        RunKeeps(ops, w0, calls);
      }
    } else if w0.ctl.activeVersion <= w0.ctl.securityCounter {
      forall calls: seq<Call>
        ensures Run(ops, w0, calls).ctl.activeVersion >= w0.ctl.activeVersion
      {
        RunKeeps(ops, w0, calls);
      }
    } else {
      var v := w0.ctl.securityCounter;
      UpgradeReachesGate(ops, w0, v);
      RunAppend(ops, w0, Upgrade(v), OnHealth(true, true));
      assert Run(ops, w0, Upgrade(v) + [OnHealth(true, true)]).ctl.activeVersion == v;
    }
  }

  /** The facade reaches HEALTH_GATE exactly when every check and every operation succeeds. */
  lemma FacadeOutcome(ops: Ops, w: World, call: Call)
    requires call.RunUpdate?
    ensures
      var (w', r) := Apply(ops, w, call);
      && (r == Accepted <==>
            && w.ctl.state.Idle? && call.signatureValid && call.version >= w.ctl.securityCounter
            && (ops.fetch ==> call.fetched) && ops.write && call.written.Written?
            && ops.setBootTarget && call.switched)
      && (r == Accepted ==>
            && w'.ctl == w.ctl.(state := HealthGate, candidate := call.version)
            && w'.dev == w.dev.(slots := w.dev.slots[OtherSlot(w.ctl.activeSlot) := Whole(call.version)],
                                marker := OtherSlot(w.ctl.activeSlot)))
  {
    if w.ctl.state.Idle? && call.written.Written? {
      var slot := OtherSlot(w.ctl.activeSlot);
      assert w.dev.slots[slot := Torn][slot := Whole(call.version)] == w.dev.slots[slot := Whole(call.version)];
    }
  }

  // ---- the coordinator itself ----

  class OtaCoordinator {
    var state: State
    var activeSlot: char
    var activeVersion: int
    var securityCounter: int
    var candidateVersion: int
    var device: Device
    const ops: Ops
    ghost var trail: seq<Device>

    ghost function View(): World
      reads this
    {
      World(Control(state, activeSlot, activeVersion, securityCounter, candidateVersion), device, trail)
    }

    constructor (slot: char, version: int, counter: int, ops: Ops, device: Device)
      ensures View() == World(Control(Idle, slot, version, counter, 0), device, [device])
      ensures this.ops == ops
      ensures device.Bootable() && device.marker == device.home == slot ==> Start(View())
    {
      state, activeSlot, activeVersion, securityCounter, candidateVersion := Idle, slot, version, counter, 0;
      this.ops, this.device, trail := ops, device, [device];
    }

    /** One physical step of the device. */
    method Drive(d: Device)
      modifies this
      ensures View() == old(View()).Drive(d)
    {
      device := d;
      trail := trail + [d];
    }

    /** The injected write: it may be refused, stop half way, or finish. */
    method WriteSlot(slot: char, version: int, o: WriteOutcome) returns (ok: bool)
      requires version == candidateVersion
      modifies this
      ensures View() == Burned(old(View()), slot, o) && ok == o.Written?
    {
      if o.Untouched? {
        return false;
      }
      Drive(device.(slots := device.slots[slot := Torn]));
      if o.Broken? {
        return false;
      }
      Drive(device.(slots := device.slots[slot := Whole(version)]));
      return true;
    }

    method RequestUpdate(version: int, signatureValid: bool) returns (r: Result)
      modifies this
      ensures (View(), r) == Requested(old(View()), version, signatureValid)
    {
      if state != Idle { return RejectedState; }
      if !signatureValid { return RejectedSignature; }
      if version < securityCounter { return RejectedVersion; }
      candidateVersion := version;
      state := Downloading;
      return Accepted;
    }

    method OnDownloadComplete() returns (r: Result)
      modifies this
      ensures (View(), r) == Advanced(old(View()), Downloading, Downloaded)
    {
      if state != Downloading { return RejectedState; }
      state := Downloaded;
      return Accepted;
    }

    method BeginInstall(written: WriteOutcome) returns (r: Result)
      modifies this
      ensures (View(), r) == Installed(ops, old(View()), written)
    {
      if state != Downloaded { return RejectedState; }
      var inactive := OtherSlot(activeSlot);
      var ok := false;
      if ops.write {
        ok := WriteSlot(inactive, candidateVersion, written);
      }
      if !ok {
        state := Idle;
        return Aborted;
      }
      state := Installing;
      return Accepted;
    }

    method OnInstallComplete() returns (r: Result)
      modifies this
      ensures (View(), r) == Advanced(old(View()), Installing, Switching)
    {
      if state != Installing { return RejectedState; }
      state := Switching;
      return Accepted;
    }

    method SwitchBootTarget(switched: bool) returns (r: Result)
      modifies this
      ensures (View(), r) == Switched(ops, old(View()), switched)
    {
      if state != Switching { return RejectedState; }
      var inactive := OtherSlot(activeSlot);
      if !ops.setBootTarget || !switched { return Aborted; }
      Drive(device.(marker := inactive));
      state := HealthGate;
      return Accepted;
    }

    method OnHealth(ok: bool, restored: bool) returns (r: Result)
      modifies this
      ensures (View(), r) == Judged(ops, old(View()), ok, restored)
    {
      if state != HealthGate { return RejectedState; }
      if ok {
        activeSlot := OtherSlot(activeSlot);
        activeVersion := candidateVersion;
        if candidateVersion > securityCounter {
          securityCounter := candidateVersion;
        }
        state := Committed;
        return Accepted;
      }
      if ops.rollbackMarker && restored {
        Drive(device.(marker := device.home));
      }
      state := RolledBack;
      return Accepted;
    }

    method ForceRollback(restored: bool) returns (r: Result)
      modifies this
      ensures (View(), r) == Withdrawn(ops, old(View()), restored)
    {
      if state != HealthGate { return RejectedState; }
      if ops.rollbackMarker && restored {
        Drive(device.(marker := device.home));
      }
      state := RolledBack;
      return Accepted;
    }

    method RunUpdate(version: int, signatureValid: bool, fetched: bool, written: WriteOutcome, switched: bool)
      returns (r: Result)
      modifies this
      ensures (View(), r) ==
              Updated(ops, old(View()), Call.RunUpdate(version, signatureValid, fetched, written, switched))
    {
      r := RequestUpdate(version, signatureValid);
      if r != Accepted { return; }
      if ops.fetch && !fetched {
        state := Idle;
        return Aborted;
      }
      r := OnDownloadComplete();
      if r != Accepted { return; }
      r := BeginInstall(written);
      if r != Accepted { return; }
      r := OnInstallComplete();
      if r != Accepted { return; }
      r := SwitchBootTarget(switched);
    }
  }
}
