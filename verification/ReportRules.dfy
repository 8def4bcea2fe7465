/** When an observation is a gate, progress or a heartbeat, and what its report holds, event by event. */
module ReportRules {
  import opened Prelude
  import opened Text
  import opened Model
  import opened Progress

  const GATE_STATUS := {"blocked", "failed", "error", "aborted", "cancelled", "canceled", "waiting_for_approval",
                        "waiting_for_user_input"}
  const TERMINAL_SUCCESS := {"completed", "complete", "succeeded", "success", "done"}
  const FAILED_VALIDATION := {"failed", "failure", "error"}
  const PROGRESS_METHODS := ["item/completed", "item/failed", "turn/diff/updated", "turn/completed", "turn/failed",
                             "item/status/updated"]

  lemma StatusWords(status: Option<string>)
    ensures GateStatus(status) <==> status.Some? && Lower(status.value) in GATE_STATUS
    ensures TerminalSuccess(status) <==> status.Some? && Lower(status.value) in TERMINAL_SUCCESS
  {
    hide Lower;
  }

  lemma ValidationWords(v: Validation)
    ensures FailedValidation(v) <==> v.status.Some? && Lower(v.status.value) in FAILED_VALIDATION
  {
    hide Lower;
  }

  // ---- the provider-neutral snapshot ----

  /** Something in the snapshot needs the Supervisor at once. */
  predicate NeedsSupervisor(a: AgentReport) {
    || a.interactions > 0
    || a.report.blockers != []
    || (a.status != "" && (Lower(a.status) in GATE_STATUS || Lower(a.status) == "unknown"))
    || (a.report.validation.status.Some? && Lower(a.report.validation.status.value) in FAILED_VALIDATION)
  }

  /** The snapshot reports something, or a status the latest checkpoint does not have. */
  predicate Moved(a: AgentReport, previous: Option<Previous>) {
    || a.report.completed != [] || a.report.inProgress != [] || a.report.files != []
    || a.report.validation != Validation(None, map[])
    || a.report.assumptions != [] || a.report.deviations != [] || a.report.risks != [] || a.report.nextSteps != []
    || (previous.Some? && a.status != "" && previous.value.status != Some(a.status))
  }

  lemma AgentGatesExactly(a: AgentReport)
    ensures AgentGates(a) != [] <==> NeedsSupervisor(a)
  {
    hide Lower, GateStatus, FailedValidation, NeedsInput, HasBlockers, ValidationFailed, StatusGate;
    StatusWords(AgentStatus(a));
    ValidationWords(a.report.validation);
    if a.status != "" {
      UnknownWord(a.status);
    }
  }

  lemma UnknownWord(status: string)
    ensures UnknownOutcome(Some(status)) <==> Lower(status) == "unknown"
  {
  }

  /** The three kinds of an agent snapshot. */
  lemma AgentTypeExactly(a: AgentReport, previous: Option<Previous>, force: bool, bucket: int)
    ensures NormalizedAgent(a, previous, force, bucket).checkpointType
            == if NeedsSupervisor(a) then Gate
               else if Moved(a, previous) then CheckpointType.Progress
               else Heartbeat
  {
    hide AgentGates, NeedsSupervisor, TriggerOf, Bounded;
    AgentGatesExactly(a);
  }

  /** What the snapshot becomes: the fingerprint takes the lists as they came, the report takes them bounded. */
  lemma AgentRecordExactly(a: AgentReport, previous: Option<Previous>, force: bool, bucket: int)
    ensures var n := NormalizedAgent(a, previous, force, bucket);
            && n.status == (if a.status == "" then None else Some(a.status))
            && n.nextAction == (if a.report.nextSteps == [] then None else Some(a.report.nextSteps[0]))
            && n.rawEvents == a.rawEvents
            && n.fingerprint == Fingerprint(n.checkpointType, n.status, None, a.report, a.interactions,
                                            if n.checkpointType == Heartbeat then Some(bucket) else None)
    ensures var r := NormalizedAgent(a, previous, force, bucket).report;
            && r.validation == a.report.validation
            && r.completed == Unique(a.report.completed, 12) && r.inProgress == Unique(a.report.inProgress, 12)
            && r.files == Unique(a.report.files, 12) && r.assumptions == Unique(a.report.assumptions, 12)
            && r.deviations == Unique(a.report.deviations, 12) && r.blockers == Unique(a.report.blockers, 12)
            && r.risks == Unique(a.report.risks, 12) && r.nextSteps == Unique(a.report.nextSteps, 12)
  {
    hide AgentGates, Unique, TriggerOf;
  }

  // ---- the events of the control plane ----

  predicate OccursAt(text: string, part: string, i: nat) {
    i + |part| <= |text| && text[i..i + |part|] == part
  }

  lemma OccursShifted(text: string, part: string, i: nat)
    requires text != ""
    ensures OccursAt(text[1..], part, i) <==> OccursAt(text, part, i + 1)
  {
    if i + 1 + |part| <= |text| {
      assert text[1..][i..i + |part|] == text[i + 1..i + 1 + |part|];
    }
  }

  lemma OccursFirst(text: string, part: string)
    ensures OccursAt(text, part, 0) <==> part <= text
  {
    if |part| <= |text| {
      assert text[0..0 + |part|] == text[..|part|];
    }
  }

  lemma {:induction false} ContainsExactly(text: string, part: string)
    ensures Contains(text, part) <==> exists i :: 0 <= i <= |text| && OccursAt(text, part, i)
  {
    hide OccursAt;
    OccursFirst(text, part);
    if text == "" {
      if Contains(text, part) {
        assert OccursAt(text, part, 0);
      }
    } else {
      ContainsExactly(text[1..], part);
      forall i | 0 <= i < |text| ensures OccursAt(text[1..], part, i) <==> OccursAt(text, part, i + 1) {
        OccursShifted(text, part, i);
      }
      if part <= text {
        assert OccursAt(text, part, 0);
      } else if Contains(text[1..], part) {
        var i :| 0 <= i <= |text[1..]| && OccursAt(text[1..], part, i);
        assert OccursAt(text, part, i + 1);
      } else {
        forall i | 0 <= i <= |text| ensures !OccursAt(text, part, i) {
          if i > 0 {
            assert !OccursAt(text[1..], part, i - 1);
          }
        }
      }
    }
  }

  lemma ProgressMethodExactly(name: string)
    ensures ProgressMethod(name) <==> exists k :: 0 <= k < 6 && Contains(name, PROGRESS_METHODS[k])
  {
    hide Contains;
    assert PROGRESS_METHODS[0] == "item/completed" && PROGRESS_METHODS[1] == "item/failed";
    assert PROGRESS_METHODS[2] == "turn/diff/updated" && PROGRESS_METHODS[3] == "turn/completed";
    assert PROGRESS_METHODS[4] == "turn/failed" && PROGRESS_METHODS[5] == "item/status/updated";
  }

  lemma HighSignalExactly(e: ProgressEvent, p: Patterns)
    ensures HighSignal(e, p)
            <==> && e.ProgressEvent?
                 && (p.gateWord(e.text) || exists k :: 0 <= k < 6 && Contains(Lower(e.name), PROGRESS_METHODS[k]))
  {
    hide ProgressMethod, Contains, Lower;
    if e.ProgressEvent? {
      ProgressMethodExactly(Lower(e.name));
    }
  }

  /** These positions, in order, are those of the high-signal events and of no others. */
  ghost predicate Selects(events: seq<ProgressEvent>, p: Patterns, at: seq<nat>) {
    && (forall k :: 0 <= k < |at| ==> at[k] < |events|)
    && (forall j, k :: 0 <= j < k < |at| ==> at[j] < at[k])
    && (forall i :: 0 <= i < |events| ==> (i in at <==> HighSignal(events[i], p)))
  }

  lemma SelectsOneMore(events: seq<ProgressEvent>, p: Patterns, before: seq<nat>)
    requires events != [] && Selects(events[..|events| - 1], p, before)
    ensures Selects(events, p, if HighSignal(events[|events| - 1], p) then before + [|events| - 1] else before)
  {
    hide HighSignal;
    var n := |events| - 1;
    assert forall i :: 0 <= i < n ==> events[..n][i] == events[i];
    assert n !in before;
  }

  /** The selection keeps the high-signal events and no others, each once, in the order they came. */
  lemma {:induction false} SelectedExactly(events: seq<ProgressEvent>, p: Patterns) returns (at: seq<nat>)
    ensures Selects(events, p, at) && |at| == |Filtered(events, p)|
    ensures forall k :: 0 <= k < |at| ==> Filtered(events, p)[k] == events[at[k]]
  {
    hide HighSignal;
    if events == [] {
      at := [];
    } else {
      var n := |events| - 1;
      var before := SelectedExactly(events[..n], p);
      SelectsOneMore(events, p, before);
      hide Selects;
      at := if HighSignal(events[n], p) then before + [n] else before;
    }
  }

  /** Where one event goes, list by list. */
  lemma TalliedExactly(t: Tallied, e: ProgressEvent, p: Patterns)
    requires e.ProgressEvent?
    ensures var name := Lower(e.name);
            var text := Lower(e.text);
            var completed := Contains(name, "completed");
            var failed := !completed && Contains(name, "failed");
            var moving := !completed && !failed && (Contains(name, "diff") || Contains(name, "status"));
            var u := TallyOne(t, e, p);
            && u.completed == t.completed + (if completed then [e.text] else [])
            && u.inProgress == t.inProgress + (if moving then [e.text] else [])
            && u.blockers == t.blockers + (if failed then [e.text] else [])
                             + (if p.testFailed(e.text) then [e.text] else [])
            && u.validation == t.validation + (if p.testFailed(e.text) || p.testPassed(e.text) then [e.text] else [])
            && u.assumptions == t.assumptions + (if Contains(text, "assum") then [e.text] else [])
            && u.deviations == t.deviations
                               + (if Contains(text, "deviat") || Contains(text, "scope change") then [e.text] else [])
            && u.risks == t.risks + (if Contains(text, "risk") || Contains(text, "warning") then [e.text] else [])
            && u.files == t.files + (if |t.files| < 20 then p.pathsIn(e, |t.files|) else [])
  {
    hide Contains, Lower, ItemFailed, ValidationFailed, HighRisk;
    var walked := t.(files := t.files + Walked(e, |t.files|, p));
    NamedExactly(walked, Lower(e.name), e.text);
    TestedExactly(ByName(walked, Lower(e.name), e.text), e.text, p);
    hide ByName, ByTests;
    WordedExactly(ByTests(ByName(walked, Lower(e.name), e.text), e.text, p), e.text, p);
    hide ByWords;
  }

  lemma NamedExactly(t: Tallied, name: string, text: string)
    ensures var completed := Contains(name, "completed");
            var failed := !completed && Contains(name, "failed");
            var moving := !completed && !failed && (Contains(name, "diff") || Contains(name, "status"));
            var u := ByName(t, name, text);
            && u == t.(completed := u.completed, inProgress := u.inProgress, blockers := u.blockers, gates := u.gates)
            && u.completed == t.completed + (if completed then [text] else [])
            && u.inProgress == t.inProgress + (if moving then [text] else [])
            && u.blockers == t.blockers + (if failed then [text] else [])
  {
    hide Contains, ItemFailed;
    assert forall x: seq<string> :: x + [] == x;
  }

  lemma TestedExactly(t: Tallied, text: string, p: Patterns)
    ensures var u := ByTests(t, text, p);
            && u == t.(blockers := u.blockers, validation := u.validation, gates := u.gates)
            && u.blockers == t.blockers + (if p.testFailed(text) then [text] else [])
            && u.validation == t.validation + (if p.testFailed(text) || p.testPassed(text) then [text] else [])
  {
    hide ValidationFailed;
    assert forall x: seq<string> :: x + [] == x;
  }

  lemma WordedExactly(t: Tallied, text: string, p: Patterns)
    ensures var lower := Lower(text);
            var u := ByWords(t, text, p);
            && u == t.(gates := u.gates, assumptions := u.assumptions, deviations := u.deviations, risks := u.risks)
            && u.assumptions == t.assumptions + (if Contains(lower, "assum") then [text] else [])
            && u.deviations == t.deviations
                               + (if Contains(lower, "deviat") || Contains(lower, "scope change") then [text] else [])
            && u.risks == t.risks + (if Contains(lower, "risk") || Contains(lower, "warning") then [text] else [])
  {
    hide Contains, Lower, HighRisk;
    assert forall x: seq<string> :: x + [] == x;
  }

  // ---- the control-plane report ----

  predicate Finishes(e: ProgressEvent) {
    e.ProgressEvent? && Contains(Lower(e.name), "completed")
  }

  predicate Advances(e: ProgressEvent) {
    && e.ProgressEvent? && !Contains(Lower(e.name), "completed") && !Contains(Lower(e.name), "failed")
    && (Contains(Lower(e.name), "diff") || Contains(Lower(e.name), "status"))
  }

  predicate Tests(e: ProgressEvent, p: Patterns) {
    e.ProgressEvent? && (p.testFailed(e.text) || p.testPassed(e.text))
  }

  predicate TouchesFiles(e: ProgressEvent, p: Patterns) {
    e.ProgressEvent? && p.pathsIn(e, 0) != []
  }

  predicate RaisesAlarm(e: ProgressEvent, p: Patterns) {
    && e.ProgressEvent?
    && (p.gateWord(e.text) || p.testFailed(e.text)
        || (Contains(Lower(e.name), "failed") && !Contains(Lower(e.name), "completed")))
  }

  lemma AlarmExactly(e: ProgressEvent, p: Patterns)
    ensures Alarming(e, p) <==> RaisesAlarm(e, p)
  {
    hide Contains, Lower;
  }

  /** Which lists the events leave empty. */
  lemma {:induction false} EmptyListsExactly(events: seq<ProgressEvent>, p: Patterns)
    ensures var t := Tally(events, p);
            && (t.completed == [] <==> forall i :: 0 <= i < |events| ==> !Finishes(events[i]))
            && (t.inProgress == [] <==> forall i :: 0 <= i < |events| ==> !Advances(events[i]))
            && (t.validation == [] <==> forall i :: 0 <= i < |events| ==> !Tests(events[i], p))
            && (t.files == [] <==> forall i :: 0 <= i < |events| ==> !TouchesFiles(events[i], p))
  {
    hide TallyOne, Finishes, Advances, Tests, TouchesFiles;
    if events != [] {
      var n := |events| - 1;
      var e := events[n];
      EmptyListsExactly(events[..n], p);
      if e.ProgressEvent? {
        EmptyAfterOne(Tally(events[..n], p), e, p);
      }
      NoDictionaryIsSilent(e, p);
      assert forall i :: 0 <= i < n ==> events[..n][i] == events[i];
    }
  }

  lemma NoDictionaryIsSilent(e: ProgressEvent, p: Patterns)
    ensures e.NoDictionary? ==> !Finishes(e) && !Advances(e) && !Tests(e, p) && !TouchesFiles(e, p)
  {
  }

  lemma EmptyAfterOne(t: Tallied, e: ProgressEvent, p: Patterns)
    requires e.ProgressEvent?
    ensures var u := TallyOne(t, e, p);
            && (u.completed == [] <==> t.completed == [] && !Finishes(e))
            && (u.inProgress == [] <==> t.inProgress == [] && !Advances(e))
            && (u.validation == [] <==> t.validation == [] && !Tests(e, p))
            && (u.files == [] <==> t.files == [] && !TouchesFiles(e, p))
  {
    TalliedExactly(t, e, p);
    hide TallyOne, Contains, Lower;
  }

  /** The last twenty high-signal events: what a report is made of. */
  function Considered(r: ControlReport, p: Patterns): seq<ProgressEvent> {
    var high := Filtered(r.events, p);
    if |high| > 20 then high[|high| - 20..] else high
  }

  predicate StatusIn(status: Option<string>, words: set<string>) {
    status.Some? && Lower(status.value) in words
  }

  /** An error, a question to the user, a gate status or an alarming event. */
  predicate ControlNeedsSupervisor(r: ControlReport, p: Patterns) {
    || (r.lastError.Some? && r.lastError.value != "")
    || r.interactions != []
    || StatusIn(r.status, GATE_STATUS)
    || exists i :: 0 <= i < |Considered(r, p)| && RaisesAlarm(Considered(r, p)[i], p)
  }

  predicate Newly(now: Option<string>, before: Option<string>) {
    now != None && now != Some("") && now != before
  }

  /** A finished or moving item, a test result, a file, a terminal success, or a changed status or next action. */
  predicate ControlMoves(r: ControlReport, p: Patterns, previous: Option<Previous>) {
    || (exists i :: 0 <= i < |Considered(r, p)|
                    && (Finishes(Considered(r, p)[i]) || Advances(Considered(r, p)[i]) || Tests(Considered(r, p)[i], p)
                        || TouchesFiles(Considered(r, p)[i], p)))
    || StatusIn(r.status, TERMINAL_SUCCESS)
    || (previous.Some? && (Newly(r.status, previous.value.status) || Newly(r.nextAction, previous.value.nextAction)))
  }

  lemma ControlGatesExactly(r: ControlReport, p: Patterns)
    ensures ControlTally(r, p).gates != [] <==> ControlNeedsSupervisor(r, p)
  {
    hide Tally, Lower, GateStatus, TerminalSuccess, Clip, Unique, Join, Kinds, LastErrorSeen, NeedsInput, StatusGate,
         PendingInteraction, ReachedTerminal, RaisesAlarm, Alarming, Filtered;
    var events := Considered(r, p);
    GateReasonsFromEvents(events, p);
    forall i | 0 <= i < |events| ensures Alarming(events[i], p) <==> RaisesAlarm(events[i], p) {
      AlarmExactly(events[i], p);
    }
    StatusWords(r.status);
  }

  lemma ControlOwnExactly(r: ControlReport, p: Patterns)
    ensures ControlOwn(ControlTally(r, p)) <==> ControlMoves(r, p, None)
  {
    hide Tally, Lower, GateStatus, TerminalSuccess, Clip, Unique, Join, Kinds, LastErrorSeen, NeedsInput, StatusGate,
         PendingInteraction, ReachedTerminal, Filtered, Finishes, Advances, Tests, TouchesFiles;
    EmptyListsExactly(Considered(r, p), p);
    StatusWords(r.status);
  }

  /** The three kinds of a control-plane report. */
  lemma ControlTypeExactly(r: ControlReport, p: Patterns, previous: Option<Previous>, force: bool, bucket: int)
    ensures NormalizedControl(r, p, previous, force, bucket).checkpointType
            == if ControlNeedsSupervisor(r, p) then Gate
               else if ControlMoves(r, p, previous) then CheckpointType.Progress
               else Heartbeat
  {
    hide ControlTally, ControlOwn, ControlNeedsSupervisor, TriggerOf, ControlReportOf, StatusIn, Finishes, Advances,
         Tests,
         TouchesFiles, Considered;
    ControlGatesExactly(r, p);
    ControlOwnExactly(r, p);
  }

  /** What the report adds to the lists of its events. */
  lemma ControlListsExactly(r: ControlReport, p: Patterns)
    ensures var e := Tally(Considered(r, p), p);
            var t := ControlTally(r, p);
            && t.inProgress == e.inProgress && t.files == e.files && t.validation == e.validation
            && t.assumptions == e.assumptions && t.deviations == e.deviations && t.risks == e.risks
            && e.completed <= t.completed && e.blockers <= t.blockers
            && |t.completed| == |e.completed| + (if StatusIn(r.status, TERMINAL_SUCCESS) then 1 else 0)
            && |t.blockers| == |e.blockers| + (if Truthy(r.lastError) then 1 else 0)
                               + (if r.interactions != [] then 1 else 0)
            && (Truthy(r.lastError) ==> t.blockers[|e.blockers|] == Clip(r.lastError.value, 280))
  {
    hide Tally, Lower, GateStatus, TerminalSuccess, Clip, Unique, Join, Kinds, LastErrorSeen, NeedsInput, StatusGate,
         PendingInteraction, ReachedTerminal, Filtered;
    StatusWords(r.status);
  }

  /** A validation verdict is there iff a test spoke, and it is "failed" iff one of them failed. */
  lemma ValidationExactly(signals: seq<string>, p: Patterns)
    ensures var v := ValidationOf(signals, p);
            && (signals == [] <==> v == Validation(None, map[]))
            && (signals != [] ==>
                  && v.status.Some? && v.entries == map["signals" := Unique(signals, 6)]
                  && (v.status.value == "failed" <==> exists i :: 0 <= i < |signals| && p.testFailed(signals[i]))
                  && (v.status.value == "passed" <==> forall i :: 0 <= i < |signals| ==> !p.testFailed(signals[i])))
  {
    hide Unique;
    var failed, passed := "failed", "passed";
    assert failed[0] == 'f' && passed[0] == 'p';
  }

  /** The record of a control-plane report. */
  lemma ControlRecordExactly(r: ControlReport, p: Patterns, previous: Option<Previous>, force: bool, bucket: int)
    ensures var n := NormalizedControl(r, p, previous, force, bucket);
            var t := ControlTally(r, p);
            && n.status == r.status && n.nextAction == r.nextAction && n.rawEvents == |r.events|
            && n.fingerprint == Fingerprint(n.checkpointType, r.status, Some(r.nextAction), n.report, |r.interactions|,
                                            if n.checkpointType == Heartbeat then Some(bucket) else None)
            && n.report.completed == Unique(t.completed, 12) && n.report.inProgress == Unique(t.inProgress, 12)
            && n.report.files == Unique(t.files, 12) && n.report.validation == ValidationOf(t.validation, p)
            && n.report.assumptions == Unique(t.assumptions, 12) && n.report.deviations == Unique(t.deviations, 12)
            && n.report.blockers == Unique(t.blockers, 12) && n.report.risks == Unique(t.risks, 12)
            && n.report.nextSteps == (if Truthy(r.nextAction) then [r.nextAction.value] else [])
  {
    hide ControlTally, Unique, ControlOwn, TriggerOf, ValidationOf;
  }
}
