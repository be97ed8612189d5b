/** The kill switch: a hysteresis ladder over drift reports. */
module Authority {
  import Drift

  datatype AuthorityState = Calibrated | Warned | Degraded | AutomationHalted | Recalibrated

  const HEALTHY_WINDOWS_FOR_RECOVERY := 2
  const SEVERE_WINDOWS_TO_DEGRADE := 2
  const SEVERE_WINDOWS_TO_HALT := 3

  predicate Grants(s: AuthorityState) {
    s.Calibrated? || s.Warned? || s.Recalibrated?
  }

  predicate Revoked(s: AuthorityState) {
    !Grants(s)
  }

  datatype Rule = A0WindowRefused | A1Watch | A1Warn | A2Degrade | A3Halt | A4RecoveryPending
                | A4RecoveryNeedsNewCalibration | A5Clear | A6Recalibrated

  datatype AuthorityDecision = AuthorityDecision(
    state: AuthorityState, previous: AuthorityState, rule: Rule, calibrationId: string,
    severity: Drift.Severity, windowHash: string, n: int, consecutiveSevere: nat, consecutiveHealthy: nat)

  /** One call's input: the drift report and the calibration id in force. */
  datatype Window = Window(report: Drift.DriftReport, calibrationId: string)

  predicate UsableSevere(w: Window) {
    w.report.usable && w.report.severity == Drift.Severe
  }

  predicate UsableHealthy(w: Window) {
    w.report.usable && w.report.severity == Drift.Healthy
  }

  /** The controller's fields as a value. */
  datatype Ladder = Ladder(calibrationId: string, state: AuthorityState, severe: nat, healthy: nat)

  // ------------------------------------------------------------ the ladder as a function

  function EscalatedState(severe: nat): AuthorityState {
    if severe >= SEVERE_WINDOWS_TO_HALT then AutomationHalted
    else if severe >= SEVERE_WINDOWS_TO_DEGRADE then Degraded
    else Warned
  }

  function EscalationRule(severe: nat): Rule {
    if severe >= SEVERE_WINDOWS_TO_HALT then A3Halt
    else if severe >= SEVERE_WINDOWS_TO_DEGRADE then A2Degrade
    else A1Warn
  }

  function HealRule(l: Ladder, calibrationId: string): Rule {
    if !Revoked(l.state) then A5Clear
    else if l.healthy + 1 < HEALTHY_WINDOWS_FOR_RECOVERY then A4RecoveryPending
    else if calibrationId == l.calibrationId then A4RecoveryNeedsNewCalibration
    else A6Recalibrated
  }

  function Heal(l: Ladder, calibrationId: string): Ladder {
    match HealRule(l, calibrationId)
    case A5Clear =>
      l.(state := if l.state.Warned? then Calibrated else l.state, severe := 0, healthy := l.healthy + 1)
    case A6Recalibrated => Ladder(calibrationId, Recalibrated, 0, 0)
    case _ => l.(severe := 0, healthy := l.healthy + 1)
  }

  function Next(l: Ladder, w: Window): Ladder {
    if UsableSevere(w) then l.(state := EscalatedState(l.severe + 1), severe := l.severe + 1, healthy := 0)
    else if UsableHealthy(w) then Heal(l, w.calibrationId)
    else l
  }

  function RuleFired(l: Ladder, w: Window): Rule {
    if !w.report.usable then A0WindowRefused
    else if UsableSevere(w) then EscalationRule(l.severe + 1)
    else if UsableHealthy(w) then HealRule(l, w.calibrationId)
    else A1Watch
  }

  function DecisionOf(l: Ladder, w: Window): AuthorityDecision {
    var l' := Next(l, w);
    AuthorityDecision(l'.state, l.state, RuleFired(l, w), l'.calibrationId, w.report.severity,
                      w.report.windowHash, w.report.n, l'.severe, l'.healthy)
  }

  // ------------------------------------------------------------ the controller

  class AuthorityController {
    var calibrationId: string
    var state: AuthorityState
    var consecutiveSevere: nat
    var consecutiveHealthy: nat
    var history: seq<AuthorityDecision>

    function Value(): Ladder
      reads this
    {
      Ladder(calibrationId, state, consecutiveSevere, consecutiveHealthy)
    }

    constructor (calibrationId: string, state: AuthorityState)
      requires calibrationId != ""
      ensures Value() == Ladder(calibrationId, state, 0, 0) && history == []
    {
      this.calibrationId, this.state := calibrationId, state;
      consecutiveSevere, consecutiveHealthy, history := 0, 0, [];
    }

    method Apply(report: Drift.DriftReport, calibrationId: string) returns (decision: AuthorityDecision)
      modifies this
      ensures Value() == Next(old(Value()), Window(report, calibrationId))
      ensures decision == DecisionOf(old(Value()), Window(report, calibrationId))
      ensures history == old(history) + [decision]
    {
      var previous := state;
      if !report.usable {
        decision := Record(previous, A0WindowRefused, report);
      } else if report.severity == Drift.Severe {
        consecutiveSevere := consecutiveSevere + 1;
        consecutiveHealthy := 0;
        decision := Escalate(previous, report);
      } else if report.severity == Drift.Healthy {
        consecutiveHealthy := consecutiveHealthy + 1;
        consecutiveSevere := 0;
        decision := HealFrom(previous, calibrationId, report);
      } else {
        decision := Record(previous, A1Watch, report);
      }
    }

    method Escalate(previous: AuthorityState, report: Drift.DriftReport) returns (decision: AuthorityDecision)
      modifies this
      ensures Value() == old(Value()).(state := EscalatedState(old(consecutiveSevere)))
      ensures decision == Recorded(previous, EscalationRule(old(consecutiveSevere)), report)
      ensures history == old(history) + [decision]
    {
      var rule: Rule;
      if consecutiveSevere >= SEVERE_WINDOWS_TO_HALT {
        state, rule := AutomationHalted, A3Halt;
      } else if consecutiveSevere >= SEVERE_WINDOWS_TO_DEGRADE {
        state, rule := Degraded, A2Degrade;
      } else {
        state, rule := Warned, A1Warn;
      }
      decision := Record(previous, rule, report);
    }

    method HealFrom(previous: AuthorityState, calibrationId: string, report: Drift.DriftReport)
      returns (decision: AuthorityDecision)
      requires previous == state && consecutiveSevere == 0 && consecutiveHealthy > 0
      modifies this
      ensures var before := old(Value()).(healthy := old(consecutiveHealthy) - 1);
              Value() == Heal(before, calibrationId)
              && decision == Recorded(previous, HealRule(before, calibrationId), report)
      ensures history == old(history) + [decision]
    {
      if !Revoked(previous) {
        state := if previous.Warned? then Calibrated else previous;
        decision := Record(previous, A5Clear, report);
        return;
      }
      if consecutiveHealthy < HEALTHY_WINDOWS_FOR_RECOVERY {
        decision := Record(previous, A4RecoveryPending, report);
        return;
      }
      if calibrationId == this.calibrationId {
        decision := Record(previous, A4RecoveryNeedsNewCalibration, report);
        return;
      }
      this.calibrationId := calibrationId;
      state := Recalibrated;
      consecutiveSevere := 0;
      consecutiveHealthy := 0;
      decision := Record(previous, A6Recalibrated, report);
    }

    function Recorded(previous: AuthorityState, rule: Rule, report: Drift.DriftReport): AuthorityDecision
      reads this
    {
      AuthorityDecision(state, previous, rule, calibrationId, report.severity, report.windowHash, report.n,
                        consecutiveSevere, consecutiveHealthy)
    }

    method Record(previous: AuthorityState, rule: Rule, report: Drift.DriftReport) returns (decision: AuthorityDecision)
      modifies this`history
      ensures decision == Recorded(previous, rule, report)
      ensures history == old(history) + [decision]
    {
      decision := Recorded(previous, rule, report);
      history := history + [decision];
    }
  }

  // ------------------------------------------------------------ runs

  ghost function Start(calibrationId: string, state: AuthorityState): Ladder {
    Ladder(calibrationId, state, 0, 0)
  }

  /** The ladder after a whole sequence of windows. */
  ghost function Run(l: Ladder, ws: seq<Window>): Ladder {
    if ws == [] then l else Next(Run(l, ws[..|ws| - 1]), ws[|ws| - 1])
  }

  ghost function Decisions(l: Ladder, ws: seq<Window>): (ds: seq<AuthorityDecision>)
    ensures |ds| == |ws|
  {
    if ws == [] then []
    else Decisions(l, ws[..|ws| - 1]) + [DecisionOf(Run(l, ws[..|ws| - 1]), ws[|ws| - 1])]
  }

  /** Usable severe windows since the last usable healthy one. */
  ghost function SevereSinceHealthy(ws: seq<Window>): nat {
    if ws == [] then 0
    else
      var last, before := ws[|ws| - 1], SevereSinceHealthy(ws[..|ws| - 1]);
      if UsableHealthy(last) then 0
      else if UsableSevere(last) then before + 1
      else before
  }

  /** The counter counts exactly those windows, and while it is not zero it alone fixes the state. */
  lemma {:induction false} SevereCounterFixesState(id: string, s: AuthorityState, ws: seq<Window>)
    ensures var l := Run(Start(id, s), ws);
            l.severe == SevereSinceHealthy(ws) && (l.severe > 0 ==> l.state == EscalatedState(l.severe))
  {
    if ws != [] {
      SevereCounterFixesState(id, s, ws[..|ws| - 1]);
    }
  }

  /** History entries chain: each starts from the state the one before ended in. */
  lemma {:induction false} HistoryChains(l: Ladder, ws: seq<Window>, i: nat)
    requires i < |ws|
    ensures var ds := Decisions(l, ws);
            ds[i].previous == (if i == 0 then l.state else ds[i - 1].state) && ds[i].state == Run(l, ws[..i + 1]).state
  {
    var rest := ws[..|ws| - 1];
    if i < |ws| - 1 {
      HistoryChains(l, rest, i);
      assert rest[..i + 1] == ws[..i + 1];
    } else {
      assert ws[..i + 1] == ws;
      if i > 0 {
        HistoryChains(l, rest, i - 1);
        assert rest[..i] == rest;
      }
    }
  }

  /** The step from a revoked to a granting state. */
  ghost predicate Restores(l: Ladder, w: Window) {
    Revoked(l.state) && Grants(Next(l, w).state)
  }

  /** Two healthy windows running, and a calibration id other than the one that was in force. */
  ghost predicate Recalibrates(l: Ladder, w: Window) {
    && Revoked(l.state) && UsableHealthy(w)
    && l.healthy + 1 >= HEALTHY_WINDOWS_FOR_RECOVERY
    && w.calibrationId != l.calibrationId
  }

  /** A severe window while the counter stands at zero: the escalation writes WARNING over a revoked state. */
  ghost predicate Relapses(l: Ladder, w: Window) {
    Revoked(l.state) && l.severe == 0 && UsableSevere(w)
  }

  /** Authority comes back in exactly two ways, and only the first is the documented one. */
  lemma RestoringSteps(l: Ladder, w: Window)
    ensures Restores(l, w) <==> Recalibrates(l, w) || Relapses(l, w)
    ensures Recalibrates(l, w) <==> RuleFired(l, w) == A6Recalibrated
    ensures Recalibrates(l, w) ==> Next(l, w) == Ladder(w.calibrationId, Recalibrated, 0, 0)
    ensures Relapses(l, w) ==> Next(l, w).state == Warned && Next(l, w).calibrationId == l.calibrationId
  {
  }

  /** Every return of authority in the run is a recalibration. */
  ghost predicate Latched(l: Ladder, ws: seq<Window>) {
    forall i :: 0 <= i < |ws| && Restores(Run(l, ws[..i]), ws[i]) ==> RuleFired(Run(l, ws[..i]), ws[i]) == A6Recalibrated
  }

  /** Some severe window arrives while authority is revoked and no severe window has come since the last healthy one. */
  ghost predicate SevereAfterHealthyWhileRevoked(l: Ladder, ws: seq<Window>) {
    exists i :: 0 <= i < |ws| && UsableSevere(ws[i]) && Revoked(Run(l, ws[..i]).state) && SevereSinceHealthy(ws[..i]) == 0
  }

  /** The latch holds on exactly the runs in which no severe window follows a healthy one while revoked. */
  lemma LatchExact(id: string, s: AuthorityState, ws: seq<Window>)
    ensures Latched(Start(id, s), ws) <==> !SevereAfterHealthyWhileRevoked(Start(id, s), ws)
  {
    var l := Start(id, s);
    forall i | 0 <= i < |ws|
      ensures Restores(Run(l, ws[..i]), ws[i]) && RuleFired(Run(l, ws[..i]), ws[i]) != A6Recalibrated
         <==> UsableSevere(ws[i]) && Revoked(Run(l, ws[..i]).state) && SevereSinceHealthy(ws[..i]) == 0
    {
      RestoringSteps(Run(l, ws[..i]), ws[i]);
      SevereCounterFixesState(id, s, ws[..i]);
    }
  }

  /** Three severe windows halt; one healthy and one more severe leave the state at WARNING, authority back. */
  lemma LatchCounterexample(id: string, severe: Window, healthy: Window)
    requires UsableSevere(severe) && UsableHealthy(healthy) && healthy.calibrationId == id
    ensures var ws := [severe, severe, severe, healthy, severe];
            var l := Start(id, Calibrated);
            Run(l, ws[..3]).state == AutomationHalted && Run(l, ws).state == Warned && !Latched(l, ws)
  {
    var ws, l := [severe, severe, severe, healthy, severe], Start(id, Calibrated);
    assert ws[..1] == [severe] && ws[..1][..0] == [];
    assert ws[..2] == [severe, severe] && ws[..2][..1] == ws[..1];
    assert ws[..3] == [severe, severe, severe] && ws[..3][..2] == ws[..2];
    assert ws[..4] == [severe, severe, severe, healthy] && ws[..4][..3] == ws[..3];
    assert Run(l, ws[..1]) == Ladder(id, Warned, 1, 0);
    assert Run(l, ws[..2]) == Ladder(id, Degraded, 2, 0);
    assert Run(l, ws[..3]) == Ladder(id, AutomationHalted, 3, 0);
    assert Run(l, ws[..4]) == Ladder(id, AutomationHalted, 0, 1);
    assert Relapses(Run(l, ws[..4]), ws[4]);
    RestoringSteps(Run(l, ws[..4]), ws[4]);
  }

  /** Only a severe window can revoke, and only as the second or later one since the last healthy window. */
  lemma RevokingSteps(l: Ladder, w: Window)
    ensures Grants(l.state) && Revoked(Next(l, w).state) <==> Grants(l.state) && UsableSevere(w) && l.severe >= 1
  {
  }

  lemma OnlyRecalibrationChangesId(l: Ladder, w: Window)
    ensures Next(l, w).calibrationId != l.calibrationId ==> RuleFired(l, w) == A6Recalibrated
  {
  }

  /** The calibration id in force changes only through a recalibration. */
  lemma {:induction false} CalibrationChangesOnlyByRecalibration(l: Ladder, ws: seq<Window>)
    requires Run(l, ws).calibrationId != l.calibrationId
    ensures exists i :: 0 <= i < |ws| && RuleFired(Run(l, ws[..i]), ws[i]) == A6Recalibrated
  {
    hide Next, RuleFired;
    var rest := ws[..|ws| - 1];
    OnlyRecalibrationChangesId(Run(l, rest), ws[|ws| - 1]);
    if Run(l, rest).calibrationId != l.calibrationId {
      CalibrationChangesOnlyByRecalibration(l, rest);
      var i :| 0 <= i < |rest| && RuleFired(Run(l, rest[..i]), rest[i]) == A6Recalibrated;
      assert rest[..i] == ws[..i] && rest[i] == ws[i];
    } else {
      var i := |ws| - 1;
      assert RuleFired(Run(l, ws[..i]), ws[i]) == A6Recalibrated;
    }
  }

  /** An earlier usable healthy window with no usable severe one after it. */
  ghost predicate HealthySinceSevere(ws: seq<Window>) {
    exists j :: 0 <= j < |ws| && UsableHealthy(ws[j]) && forall k :: j < k < |ws| ==> !UsableSevere(ws[k])
  }

  lemma HealthyGrows(ws: seq<Window>)
    requires ws != []
    ensures var last := ws[|ws| - 1];
            HealthySinceSevere(ws) <==> !UsableSevere(last) && (UsableHealthy(last) || HealthySinceSevere(ws[..|ws| - 1]))
  {
    var n := |ws| - 1;
    var rest := ws[..n];
    if HealthySinceSevere(ws) {
      var j :| 0 <= j < |ws| && UsableHealthy(ws[j]) && forall k :: j < k < |ws| ==> !UsableSevere(ws[k]);
      if j < n {
        assert rest[j] == ws[j];
      }
    }
    if HealthySinceSevere(rest) && !UsableSevere(ws[n]) {
      var j :| 0 <= j < |rest| && UsableHealthy(rest[j]) && forall k :: j < k < |rest| ==> !UsableSevere(rest[k]);
      assert UsableHealthy(ws[j]) && forall k :: j < k < |ws| ==> !UsableSevere(ws[k]);
    }
    if UsableHealthy(ws[n]) {
      assert 0 <= n < |ws|;
    }
  }

  /** While authority is revoked the healthy counter is positive exactly after such a window. */
  lemma {:induction false} HealthyCounterMeans(id: string, s: AuthorityState, ws: seq<Window>)
    ensures var l := Run(Start(id, s), ws); Revoked(l.state) ==> (l.healthy >= 1 <==> HealthySinceSevere(ws))
  {
    hide HealthySinceSevere;
    if ws == [] {
      assert !HealthySinceSevere([]) by {
        NothingHealthy();
      }
    } else {
      HealthyCounterMeans(id, s, ws[..|ws| - 1]);
      HealthyGrows(ws);
    }
  }

  lemma NothingHealthy()
    ensures !HealthySinceSevere([])
  {
  }

  /** Recovery takes two healthy windows with no severe one between them, the second under another calibration, and no less. */
  lemma RecoveryTakesTwoHealthy(id: string, s: AuthorityState, ws: seq<Window>, w: Window)
    ensures var l := Run(Start(id, s), ws);
            RuleFired(l, w) == A6Recalibrated
            <==> Revoked(l.state) && UsableHealthy(w) && w.calibrationId != l.calibrationId && HealthySinceSevere(ws)
  {
    hide HealthySinceSevere;
    HealthyCounterMeans(id, s, ws);
  }

  /** One severe window since the last healthy one warns, two degrade, three or more halt. */
  lemma SevereWindowsEscalate(id: string, s: AuthorityState, ws: seq<Window>)
    ensures var l, n := Run(Start(id, s), ws), SevereSinceHealthy(ws);
            && (n == 1 ==> l.state.Warned?) && (n == 2 ==> l.state.Degraded?) && (n >= 3 ==> l.state.AutomationHalted?)
            && (Grants(l.state) <==> l.state != Degraded && l.state != AutomationHalted)
  {
    SevereCounterFixesState(id, s, ws);
  }

  /** While authority stands, a healthy window turns a warning back into calibrated and leaves every other state alone. */
  lemma HealthyWindowClears(l: Ladder, w: Window)
    requires Grants(l.state) && UsableHealthy(w)
    ensures Next(l, w).state == if l.state.Warned? then Calibrated else l.state
    ensures Next(l, w).severe == 0 && Next(l, w).calibrationId == l.calibrationId
  {
  }

  /** A window that is undersized or merely warns changes neither state nor counters. */
  lemma OtherWindowsPass(l: Ladder, w: Window)
    requires !UsableSevere(w) && !UsableHealthy(w)
    ensures Next(l, w) == l
  {
  }
}
