/** supervisor/checkpoints.py: an observation of the Codex runtime becomes a typed, bounded, deduplicated report. */
module Progress {
  import opened Prelude
  import opened Text
  import opened Model

  /** The regular expressions and the path walk; the walk may look at how many paths are already listed. */
  datatype Patterns = Patterns(
    gateWord: string -> bool, testFailed: string -> bool, testPassed: string -> bool,
    pathsIn: (ProgressEvent, nat) -> seq<string>)

  /** One entry of progressEvents: its method name and its clipped text, unless it is no dictionary at all. */
  datatype ProgressEvent = NoDictionary | ProgressEvent(name: string, text: string)

  /** What the control plane reported, after key lookup. */
  datatype ControlReport = ControlReport(
    status: Option<string>, nextAction: Option<string>, lastError: Option<string>,
    interactions: seq<Option<string>>, events: seq<ProgressEvent>)

  datatype AgentReport = AgentReport(
    status: string, interactions: nat, report: Report, evidence: seq<string>, identity: RemoteIdentity, rawEvents: nat)

  /** remote_status and next_action of the latest checkpoint. */
  datatype Previous = Previous(status: Option<string>, nextAction: Option<string>)

  datatype NormalizedProgress = NormalizedProgress(
    checkpointType: CheckpointType, trigger: string, fingerprint: Fingerprint, status: Option<string>,
    nextAction: Option<string>, report: Report, rawEvents: nat)

  function Max(a: nat, b: nat): nat { if a < b then b else a }

  function Take<T>(xs: seq<T>, n: nat): seq<T> {
    if |xs| <= n then xs else xs[..n]
  }

  function Last<T>(xs: seq<T>, n: nat): seq<T> {
    if |xs| <= n then xs else xs[|xs| - n..]
  }

  /** The stripped values, blank ones dropped, each at its first occurrence. */
  function Distinct(values: seq<string>): (r: seq<string>)
    ensures forall i :: 0 <= i < |r| ==> r[i] != ""
    ensures forall i, j :: 0 <= i < j < |r| ==> r[i] != r[j]
    ensures forall v :: v in r <==> v != "" && exists k :: 0 <= k < |values| && Strip(values[k]) == v
  {
    if values == [] then []
    else
      var n := |values| - 1;
      var before := Distinct(values[..n]);
      var v := Strip(values[n]);
      assert forall k :: 0 <= k < n ==> values[..n][k] == values[k];
      if v == "" || v in before then before else before + [v]
  }

  /** `_unique`, on values. */
  function Unique(values: seq<string>, limit: nat): (r: seq<string>)
    ensures |r| <= Max(limit, 1)
    ensures forall i :: 0 <= i < |r| ==> r[i] != ""
    ensures forall i, j :: 0 <= i < j < |r| ==> r[i] != r[j]
    ensures |r| < Max(limit, 1) ==> r == Distinct(values)
  {
    Take(Distinct(values), Max(limit, 1))
  }

  lemma {:induction false} DistinctGrows(values: seq<string>, k: nat)
    requires k <= |values|
    ensures Distinct(values[..k]) <= Distinct(values)
  {
    if k == |values| {
      assert values[..k] == values;
    } else {
      var n := |values| - 1;
      DistinctGrows(values[..n], k);
      assert values[..n][..k] == values[..k];
    }
  }

  /** `_unique`: stops as soon as the limit is reached. */
  method CollectUnique(values: seq<string>, limit: nat) returns (result: seq<string>)
    ensures result == Unique(values, limit)
  {
    hide Strip;
    result := [];
    var seen: set<string> := {};
    assert values[..0] == [];
    for k := 0 to |values|
      invariant result == Distinct(values[..k])
      invariant forall v :: v in seen <==> v in result
      invariant result == [] || |result| < limit
    {
      var normalized := Strip(values[k]);
      assert values[..k + 1][..k] == values[..k];
      if normalized == "" || normalized in seen { continue; }
      seen := seen + {normalized};
      result := result + [normalized];
      assert result == Distinct(values[..k + 1]);
      if |result| >= limit {
        DistinctGrows(values, k + 1);
        assert |result| == Max(limit, 1);
        return;
      }
    }
    assert values[..|values|] == values;
  }

  predicate Contains(text: string, part: string) {
    part <= text || (text != "" && Contains(text[1..], part))
  }

  /** A method name that marks progress. */
  predicate ProgressMethod(name: string) {
    || Contains(name, "item/completed") || Contains(name, "item/failed") || Contains(name, "turn/diff/updated")
    || Contains(name, "turn/completed") || Contains(name, "turn/failed") || Contains(name, "item/status/updated")
  }

  predicate HighSignal(e: ProgressEvent, p: Patterns) {
    e.ProgressEvent? && (ProgressMethod(Lower(e.name)) || p.gateWord(e.text))
  }

  function Filtered(events: seq<ProgressEvent>, p: Patterns): (r: seq<ProgressEvent>)
    ensures forall i :: 0 <= i < |r| ==> HighSignal(r[i], p)
  {
    if events == [] then []
    else
      var n := |events| - 1;
      if HighSignal(events[n], p) then Filtered(events[..n], p) + [events[n]] else Filtered(events[..n], p)
  }

  /** `_high_signal_events`. */
  method HighSignalEvents(events: seq<ProgressEvent>, p: Patterns) returns (result: seq<ProgressEvent>)
    ensures result == Last(Filtered(events, p), 20)
    ensures |result| <= 20 && forall i :: 0 <= i < |result| ==> HighSignal(result[i], p)
  {
    result := [];
    assert events[..0] == [];
    for k := 0 to |events|
      invariant result == Filtered(events[..k], p)
    {
      assert events[..k + 1][..k] == events[..k];
      if events[k].NoDictionary? { continue; }
      if ProgressMethod(Lower(events[k].name)) || p.gateWord(events[k].text) {
        result := result + [events[k]];
      }
    }
    assert events[..|events|] == events;
    return if |result| <= 20 then result else result[|result| - 20..];
  }

  lemma {:induction false} FilteredThrough(a: seq<ProgressEvent>, b: seq<ProgressEvent>, p: Patterns)
    ensures Filtered(a + b, p) == Filtered(a, p) + Filtered(b, p)
  {
    if b == [] {
      assert a + b == a;
    } else {
      var n := |b| - 1;
      FilteredThrough(a, b[..n], p);
      assert (a + b)[..|a + b| - 1] == a + b[..n];
    }
  }

  /** Low-signal events may be inserted anywhere: the selection does not change. */
  lemma NoiseIsIgnored(a: seq<ProgressEvent>, noise: seq<ProgressEvent>, b: seq<ProgressEvent>, p: Patterns)
    requires forall i :: 0 <= i < |noise| ==> !HighSignal(noise[i], p)
    ensures Filtered(a + noise + b, p) == Filtered(a + b, p)
  {
    FilteredThrough(a + noise, b, p);
    FilteredThrough(a, noise, p);
    FilteredThrough(a, b, p);
    Silence(noise, p);
  }

  lemma {:induction false} Silence(noise: seq<ProgressEvent>, p: Patterns)
    requires forall i :: 0 <= i < |noise| ==> !HighSignal(noise[i], p)
    ensures Filtered(noise, p) == []
  {
    if noise != [] {
      Silence(noise[..|noise| - 1], p);
    }
  }

  /** The lists that the loop over the events fills. */
  datatype Tallied = Tallied(
    completed: seq<string>, inProgress: seq<string>, blockers: seq<string>, assumptions: seq<string>,
    deviations: seq<string>, risks: seq<string>, validation: seq<string>, files: seq<string>, gates: seq<string>)

  const EMPTY_TALLY := Tallied([], [], [], [], [], [], [], [], [])

  function ItemFailed(): string { "Codex reported a failed item/turn" }
  function ValidationFailed(): string { "validation failure detected" }
  function HighRisk(): string { "high-risk progress signal detected" }
  function LastErrorSeen(): string { "Codex runtime exposes lastError" }
  function NeedsInput(): string { "Codex requires approval or user input" }
  function HasBlockers(): string { "Agent snapshot contains blockers" }
  function StatusGate(status: string): string { "runtime status is " + status }

  predicate Completed(name: string) { Contains(name, "completed") }
  predicate Failed(name: string) { !Completed(name) && Contains(name, "failed") }
  predicate Moving(name: string) {
    !Completed(name) && !Failed(name) && (Contains(name, "diff") || Contains(name, "status"))
  }

  /** The method name decides between finished, failed and moving work. */
  function ByName(t: Tallied, name: string, text: string): Tallied {
    if Completed(name) then t.(completed := t.completed + [text])
    else if Failed(name) then t.(blockers := t.blockers + [text], gates := t.gates + [ItemFailed()])
    else if Moving(name) then t.(inProgress := t.inProgress + [text])
    else t
  }

  function ByTests(t: Tallied, text: string, p: Patterns): Tallied {
    if p.testFailed(text) then
      t.(blockers := t.blockers + [text], validation := t.validation + [text], gates := t.gates + [ValidationFailed()])
    else if p.testPassed(text) then t.(validation := t.validation + [text])
    else t
  }

  function ByWords(t: Tallied, text: string, p: Patterns): Tallied {
    var lower := Lower(text);
    t.(gates := if p.gateWord(text) then t.gates + [HighRisk()] else t.gates,
       assumptions := if Contains(lower, "assum") then t.assumptions + [text] else t.assumptions,
       deviations := if Contains(lower, "deviat") || Contains(lower, "scope change") then t.deviations + [text]
                     else t.deviations,
       risks := if Contains(lower, "risk") || Contains(lower, "warning") then t.risks + [text] else t.risks)
  }

  /** What one event adds to the lists. */
  function TallyOne(t: Tallied, e: ProgressEvent, p: Patterns): Tallied
    requires e.ProgressEvent?
  {
    var walked := t.(files := t.files + Walked(e, |t.files|, p));
    ByWords(ByTests(ByName(walked, Lower(e.name), e.text), e.text, p), e.text, p)
  }

  /** `_paths` adds nothing once twenty paths are listed. */
  function Walked(e: ProgressEvent, listed: nat, p: Patterns): seq<string> {
    if listed >= 20 then [] else p.pathsIn(e, listed)
  }

  function Tally(events: seq<ProgressEvent>, p: Patterns): Tallied {
    if events == [] then EMPTY_TALLY
    else
      var n := |events| - 1;
      var before := Tally(events[..n], p);
      if events[n].NoDictionary? then before else TallyOne(before, events[n], p)
  }

  /** The loop over the selected events. */
  method TallyEvents(events: seq<ProgressEvent>, p: Patterns) returns (t: Tallied)
    ensures t == Tally(events, p)
  {
    hide TallyOne;
    t := EMPTY_TALLY;
    assert events[..0] == [];
    for k := 0 to |events|
      invariant t == Tally(events[..k], p)
    {
      assert events[..k + 1][..k] == events[..k];
      if events[k].ProgressEvent? {
        t := TallyOne(t, events[k], p);
      }
    }
    assert events[..|events|] == events;
  }

  /** An event that alone makes the report a gate. */
  predicate Alarming(e: ProgressEvent, p: Patterns) {
    e.ProgressEvent? && (Failed(Lower(e.name)) || p.testFailed(e.text) || p.gateWord(e.text))
  }

  /** The events give a gate reason exactly when one of them is alarming. */
  lemma {:induction false} GateReasonsFromEvents(events: seq<ProgressEvent>, p: Patterns)
    ensures Tally(events, p).gates == [] <==> forall i :: 0 <= i < |events| ==> !Alarming(events[i], p)
  {
    hide Contains, Lower, Completed, Failed, Moving;
    if events != [] {
      var n := |events| - 1;
      GateReasonsFromEvents(events[..n], p);
      if events[n].ProgressEvent? {
        FailedIsNotCompleted(Lower(events[n].name));
      }
      assert forall i :: 0 <= i < n ==> events[..n][i] == events[i];
    }
  }

  lemma FailedIsNotCompleted(name: string)
    ensures Failed(name) ==> !Completed(name)
  {
    hide Contains;
  }

  function WordEnd(text: string): (n: nat)
    ensures n <= |text|
    ensures text != "" && !IsSpace(text[0]) ==> n > 0
  {
    if text == "" || IsSpace(text[0]) then 0 else 1 + WordEnd(text[1..])
  }

  /** str.split(). */
  function Words(text: string): seq<string>
    decreases |text|
  {
    LStripFacts(text);
    var t := LStrip(text);
    if t == "" then [] else [t[..WordEnd(t)]] + Words(t[WordEnd(t)..])
  }

  function Join(parts: seq<string>, separator: string): string {
    if parts == [] then ""
    else if |parts| == 1 then parts[0]
    else parts[0] + separator + Join(parts[1..], separator)
  }

  /** `_clip`. */
  function Clip(text: string, limit: nat): (r: string)
    requires limit > 0
    ensures |r| <= limit
  {
    var flat := Join(Words(text), " ");
    if |flat| <= limit then flat
    else
      RStripFacts(flat[..limit - 1]);
      RStrip(flat[..limit - 1]) + ['\U{2026}']
  }

  predicate GateStatus(status: Option<string>): (r: bool)
    ensures r ==> status.Some?
  {
    status.Some?
    && var s := Lower(status.value);
       s == "blocked" || s == "failed" || s == "error" || s == "aborted" || s == "cancelled" || s == "canceled"
       || s == "waiting_for_approval" || s == "waiting_for_user_input"
  }

  predicate TerminalSuccess(status: Option<string>): (r: bool)
    ensures r ==> status.Some?
  {
    status.Some?
    && var s := Lower(status.value);
       s == "completed" || s == "complete" || s == "succeeded" || s == "success" || s == "done"
  }

  predicate FailedValidation(v: Validation) {
    v.status.Some? && var s := Lower(v.status.value); s == "failed" || s == "failure" || s == "error"
  }

  function TypeOf(gates: seq<string>, material: bool): CheckpointType {
    if gates != [] then Gate else if material then CheckpointType.Progress else Heartbeat
  }

  function TriggerOf(gates: seq<string>, material: bool, movement: string, force: bool): string {
    if gates != [] then Join(Unique(gates, 4), "; ")
    else if material then movement
    else if force then Forced() else Quiet()
  }

  function Forced(): string { "forced heartbeat" }
  function Quiet(): string { "no high-signal progress change" }
  function ControlMoved(): string { "meaningful Codex progress/state change" }
  function AgentMoved(): string { "meaningful agent progress/state change" }
  function PendingInteraction(): string { "Pending Codex interaction: " }
  function ReachedTerminal(): string { "Codex turn reached terminal status: " }

  /** Only a heartbeat carries the three-minute bucket. */
  function BucketOf(kind: CheckpointType, bucket: int): Option<int> {
    if kind == Heartbeat then Some(bucket) else None
  }

  predicate Changed(now: Option<string>, before: Option<string>) {
    Truthy(now) && now != before
  }

  function Bounded(r: Report): Report {
    Report(Unique(r.completed, 12), Unique(r.inProgress, 12), Unique(r.files, 12), r.validation,
           Unique(r.assumptions, 12), Unique(r.deviations, 12), Unique(r.blockers, 12), Unique(r.risks, 12),
           Unique(r.nextSteps, 12))
  }

  // ---- the provider-neutral path ----

  function AgentStatus(a: AgentReport): Option<string> {
    if a.status == "" then None else Some(a.status)
  }

  predicate UnknownOutcome(status: Option<string>) {
    status.Some? && Lower(status.value) == "unknown"
  }

  function AgentGates(a: AgentReport): seq<string> {
    var status := AgentStatus(a);
    (if a.interactions > 0 then [NeedsInput()] else [])
    + (if a.report.blockers != [] then [HasBlockers()] else [])
    + (if GateStatus(status) || UnknownOutcome(status) then [StatusGate(a.status)] else [])
    + (if FailedValidation(a.report.validation) then [ValidationFailed()] else [])
  }

  /** Progress that the observation shows by itself, whatever was seen before. */
  predicate OwnProgress(r: Report) {
    || r.completed != [] || r.inProgress != [] || r.files != [] || r.validation != NO_VALIDATION || r.assumptions != []
    || r.deviations != [] || r.risks != [] || r.nextSteps != []
  }

  predicate AgentMaterial(a: AgentReport, previous: Option<Previous>) {
    OwnProgress(a.report) || (previous.Some? && Changed(AgentStatus(a), previous.value.status))
  }

  /** `normalize_agent_snapshot`, on values. */
  function NormalizedAgent(a: AgentReport, previous: Option<Previous>, force: bool, bucket: int): NormalizedProgress {
    var gates := AgentGates(a);
    var material := AgentMaterial(a, previous);
    var kind := TypeOf(gates, material);
    NormalizedProgress(
      kind, TriggerOf(gates, material, AgentMoved(), force),
      Fingerprint(kind, AgentStatus(a), None, a.report, a.interactions, BucketOf(kind, bucket)),
      AgentStatus(a), if a.report.nextSteps != [] then Some(a.report.nextSteps[0]) else None,
      Bounded(a.report), a.rawEvents)
  }

  method BoundReport(r: Report) returns (b: Report)
    ensures b == Bounded(r)
  {
    hide Unique;
    var completed := CollectUnique(r.completed, 12);
    var inProgress := CollectUnique(r.inProgress, 12);
    var files := CollectUnique(r.files, 12);
    var assumptions := CollectUnique(r.assumptions, 12);
    var deviations := CollectUnique(r.deviations, 12);
    var blockers := CollectUnique(r.blockers, 12);
    var risks := CollectUnique(r.risks, 12);
    var nextSteps := CollectUnique(r.nextSteps, 12);
    return Report(completed, inProgress, files, r.validation, assumptions, deviations, blockers, risks, nextSteps);
  }

  method Trigger(gates: seq<string>, material: bool, movement: string, force: bool) returns (text: string)
    ensures text == TriggerOf(gates, material, movement, force)
  {
    hide Unique, Forced, Quiet, Join;
    if gates != [] {
      var distinct := CollectUnique(gates, 4);
      return Join(distinct, "; ");
    }
    return if material then movement else if force then Forced() else Quiet();
  }

  /** `normalize_agent_snapshot`. */
  method NormalizeAgentSnapshot(a: AgentReport, previous: Option<Previous>, force: bool, bucket: int)
    returns (n: NormalizedProgress)
    ensures n == NormalizedAgent(a, previous, force, bucket)
  {
    hide Unique, GateStatus, FailedValidation, TriggerOf, UnknownOutcome, OwnProgress, NeedsInput, HasBlockers,
         ValidationFailed, StatusGate, AgentMoved, Bounded;
    var status := AgentStatus(a);
    var gates: seq<string> := [];
    if a.interactions > 0 { gates := gates + [NeedsInput()]; }
    if a.report.blockers != [] { gates := gates + [HasBlockers()]; }
    if GateStatus(status) || UnknownOutcome(status) { gates := gates + [StatusGate(a.status)]; }
    if FailedValidation(a.report.validation) { gates := gates + [ValidationFailed()]; }
    assert gates == AgentGates(a);
    var material := OwnProgress(a.report) || (previous.Some? && Changed(status, previous.value.status));
    var kind := TypeOf(gates, material);
    var trigger := Trigger(gates, material, AgentMoved(), force);
    var bounded := BoundReport(a.report);
    return NormalizedProgress(
      kind, trigger, Fingerprint(kind, status, None, a.report, a.interactions, BucketOf(kind, bucket)),
      status, if a.report.nextSteps != [] then Some(a.report.nextSteps[0]) else None, bounded, a.rawEvents);
  }

  // ---- the control-plane path ----

  function Kinds(interactions: seq<Option<string>>): seq<string> {
    if interactions == [] then []
    else
      var n := |interactions| - 1;
      Kinds(interactions[..n]) + (if interactions[n].Some? then [interactions[n].value] else [])
  }

  predicate SomeFailed(texts: seq<string>, p: Patterns) {
    exists i :: 0 <= i < |texts| && p.testFailed(texts[i])
  }

  function ValidationOf(signals: seq<string>, p: Patterns): Validation {
    if signals == [] then NO_VALIDATION
    else Validation(Some(if SomeFailed(signals, p) then "failed" else "passed"), map["signals" := Unique(signals, 6)])
  }

  /** The lists after the loop, completed from the report's own fields. */
  function ControlTally(r: ControlReport, p: Patterns): Tallied {
    var t := Tally(Last(Filtered(r.events, p), 20), p);
    t.(blockers := t.blockers
                   + (if Truthy(r.lastError) then [Clip(r.lastError.value, 280)] else [])
                   + (if r.interactions != []
                      then [PendingInteraction() + Join(Unique(Kinds(r.interactions), 5), ", ")] else []),
       completed := t.completed
                    + (if TerminalSuccess(r.status) then [ReachedTerminal() + r.status.value] else []),
       gates := t.gates
                + (if Truthy(r.lastError) then [LastErrorSeen()] else [])
                + (if r.interactions != [] then [NeedsInput()] else [])
                + (if GateStatus(r.status) then [StatusGate(r.status.value)] else []))
  }

  function NextSteps(r: ControlReport): seq<string> {
    if Truthy(r.nextAction) then [r.nextAction.value] else []
  }

  function ControlReportOf(r: ControlReport, t: Tallied, p: Patterns): Report {
    Report(Unique(t.completed, 12), Unique(t.inProgress, 12), Unique(t.files, 12), ValidationOf(t.validation, p),
           Unique(t.assumptions, 12), Unique(t.deviations, 12), Unique(t.blockers, 12), Unique(t.risks, 12),
           NextSteps(r))
  }

  predicate ControlOwn(t: Tallied) {
    t.completed != [] || t.inProgress != [] || t.files != [] || t.validation != []
  }

  predicate ControlMaterial(r: ControlReport, t: Tallied, previous: Option<Previous>) {
    || ControlOwn(t)
    || (previous.Some? && (Changed(r.status, previous.value.status)
                           || Changed(r.nextAction, previous.value.nextAction)))
  }

  /** `normalize_progress_snapshot`, on values. */
  function NormalizedControl(r: ControlReport, p: Patterns, previous: Option<Previous>, force: bool, bucket: int)
    : NormalizedProgress
  {
    FromTally(r, ControlTally(r, p), p, previous, force, bucket)
  }

  function FromTally(r: ControlReport, t: Tallied, p: Patterns, previous: Option<Previous>, force: bool, bucket: int)
    : NormalizedProgress
  {
    var material := ControlMaterial(r, t, previous);
    var kind := TypeOf(t.gates, material);
    var report := ControlReportOf(r, t, p);
    NormalizedProgress(
      kind, TriggerOf(t.gates, material, ControlMoved(), force),
      Fingerprint(kind, r.status, Some(r.nextAction), report, |r.interactions|, BucketOf(kind, bucket)),
      r.status, r.nextAction, report, |r.events|)
  }

  method CompleteTally(r: ControlReport, p: Patterns) returns (t: Tallied)
    ensures t == ControlTally(r, p)
  {
    hide Unique, Tally, GateStatus, TerminalSuccess, Clip, StatusGate, NeedsInput, LastErrorSeen, PendingInteraction,
         ReachedTerminal, Join, Kinds;
    var events := HighSignalEvents(r.events, p);
    t := TallyEvents(events, p);
    if Truthy(r.lastError) {
      t := t.(blockers := t.blockers + [Clip(r.lastError.value, 280)], gates := t.gates + [LastErrorSeen()]);
    }
    if r.interactions != [] {
      var kinds := CollectUnique(Kinds(r.interactions), 5);
      t := t.(blockers := t.blockers + [PendingInteraction() + Join(kinds, ", ")], gates := t.gates + [NeedsInput()]);
    }
    if GateStatus(r.status) { t := t.(gates := t.gates + [StatusGate(r.status.value)]); }
    if TerminalSuccess(r.status) { t := t.(completed := t.completed + [ReachedTerminal() + r.status.value]); }
  }

  /** `normalize_progress_snapshot`. */
  method NormalizeProgressSnapshot(r: ControlReport, p: Patterns, previous: Option<Previous>, force: bool, bucket: int)
    returns (n: NormalizedProgress)
    ensures n == NormalizedControl(r, p, previous, force, bucket)
  {
    hide Unique, ControlTally, TriggerOf, SomeFailed, ControlMoved;
    var t := CompleteTally(r, p);
    var validation := NO_VALIDATION;
    if t.validation != [] {
      var signals := CollectUnique(t.validation, 6);
      validation := Validation(Some(if SomeFailed(t.validation, p) then "failed" else "passed"),
                               map["signals" := signals]);
    }
    var material := ControlMaterial(r, t, previous);
    var kind := TypeOf(t.gates, material);
    var trigger := Trigger(t.gates, material, ControlMoved(), force);
    var lists := BoundReport(Report(t.completed, t.inProgress, t.files, validation, t.assumptions, t.deviations,
                                    t.blockers, t.risks, []));
    hide Bounded;
    var report := lists.(nextSteps := NextSteps(r));
    assert report == ControlReportOf(r, t, p);
    return NormalizedProgress(
      kind, trigger, Fingerprint(kind, r.status, Some(r.nextAction), report, |r.interactions|, BucketOf(kind, bucket)),
      r.status, r.nextAction, report, |r.events|);
  }

  // ---- what the fingerprint depends on ----

  /** A gate, or progress of its own, or no status at all: the previous checkpoint cannot matter. */
  lemma AgentFingerprintFixed(a: AgentReport, bucket: int)
    ensures (AgentGates(a) != [] || OwnProgress(a.report) || a.status == "")
            <==> forall x, y, f, g ::
                   NormalizedAgent(a, x, f, bucket).fingerprint == NormalizedAgent(a, y, g, bucket).fingerprint
  {
    hide AgentGates, OwnProgress, TriggerOf, Bounded;
    if AgentGates(a) == [] && !OwnProgress(a.report) && a.status != "" {
      assert NormalizedAgent(a, None, false, bucket).fingerprint.checkpointType == Heartbeat;
      var moved := NormalizedAgent(a, Some(Previous(None, None)), false, bucket);
      assert moved.fingerprint.checkpointType == CheckpointType.Progress;
    }
  }

  /** A gate or progress of its own: neither the previous checkpoint nor the clock matters, and nothing else changes. */
  lemma AgentObservationFixed(a: AgentReport, x: Option<Previous>, y: Option<Previous>, f: bool, g: bool, b: int,
                              c: int)
    requires AgentGates(a) != [] || OwnProgress(a.report)
    ensures NormalizedAgent(a, x, f, b) == NormalizedAgent(a, y, g, c)
  {
    hide AgentGates, OwnProgress, Bounded, Unique;
  }

  /** The same for the control plane; here the next action counts as well. */
  lemma ControlFingerprintFixed(r: ControlReport, p: Patterns, bucket: int)
    ensures var t := ControlTally(r, p);
            (t.gates != [] || ControlOwn(t) || (!Truthy(r.status) && !Truthy(r.nextAction)))
            <==> forall x, y, f, g ::
                   NormalizedControl(r, p, x, f, bucket).fingerprint
                   == NormalizedControl(r, p, y, g, bucket).fingerprint
  {
    hide ControlTally, ControlReportOf, ControlOwn, TriggerOf;
    var t := ControlTally(r, p);
    if t.gates == [] && !ControlOwn(t) && (Truthy(r.status) || Truthy(r.nextAction)) {
      assert NormalizedControl(r, p, None, false, bucket).fingerprint.checkpointType == Heartbeat;
      assert NormalizedControl(r, p, Some(Previous(None, None)), false, bucket).fingerprint.checkpointType
          == CheckpointType.Progress;
    }
  }

  lemma ControlObservationFixed(r: ControlReport, p: Patterns, x: Option<Previous>, y: Option<Previous>, f: bool,
                                g: bool, b: int, c: int)
    requires var t := ControlTally(r, p); t.gates != [] || ControlOwn(t)
    ensures NormalizedControl(r, p, x, f, b) == NormalizedControl(r, p, y, g, c)
  {
    hide ControlTally, ControlReportOf, ControlOwn, Unique;
  }

  /** Low-signal events anywhere change nothing but raw_event_count. */
  lemma NoiseOnlyCounts(r: ControlReport, noise: seq<ProgressEvent>, at: nat, p: Patterns, previous: Option<Previous>,
                        force: bool, bucket: int)
    requires at <= |r.events| && forall i :: 0 <= i < |noise| ==> !HighSignal(noise[i], p)
    ensures var noisy := r.(events := r.events[..at] + noise + r.events[at..]);
            NormalizedControl(noisy, p, previous, force, bucket)
            == NormalizedControl(r, p, previous, force, bucket).(rawEvents := |r.events| + |noise|)
  {
    hide Tally, Unique, GateStatus, TerminalSuccess, Clip, TriggerOf, ValidationOf, HighSignal, Join, Kinds;
    NoiseIsIgnored(r.events[..at], noise, r.events[at..], p);
    assert r.events == r.events[..at] + r.events[at..];
    var noisy := r.(events := r.events[..at] + noise + r.events[at..]);
    assert ControlTally(noisy, p) == ControlTally(r, p);
  }

  /** A text list as the reports keep them: at most twelve distinct texts, stripped and not blank. */
  predicate Tidy(texts: seq<string>) {
    && |texts| <= 12
    && (forall i :: 0 <= i < |texts| ==> texts[i] != "" && Strip(texts[i]) == texts[i])
    && (forall i, j :: 0 <= i < j < |texts| ==> texts[i] != texts[j])
  }

  lemma UniqueTidy(values: seq<string>)
    ensures Tidy(Unique(values, 12))
  {
    hide Strip;
    var r := Unique(values, 12);
    forall i | 0 <= i < |r| ensures Strip(r[i]) == r[i] {
      assert r[i] in Distinct(values);
      var k :| 0 <= k < |values| && Strip(values[k]) == r[i];
      StripEnds(values[k]);
      Trimmed(r[i]);
    }
  }

  predicate TidyReport(r: Report) {
    && Tidy(r.completed) && Tidy(r.inProgress) && Tidy(r.files) && Tidy(r.assumptions) && Tidy(r.deviations)
    && Tidy(r.blockers) && Tidy(r.risks)
  }

  /** A normalised report's lists are tidy: all of them for an agent, all but next_steps for the control plane. */
  lemma ReportsTidy(a: AgentReport, r: ControlReport, p: Patterns, previous: Option<Previous>, force: bool, bucket: int)
    ensures TidyReport(NormalizedAgent(a, previous, force, bucket).report)
    ensures Tidy(NormalizedAgent(a, previous, force, bucket).report.nextSteps)
    ensures TidyReport(NormalizedControl(r, p, previous, force, bucket).report)
  {
    hide Unique, Tidy, ControlTally, AgentGates, TriggerOf;
    forall values: seq<string> ensures Tidy(Unique(values, 12)) {
      UniqueTidy(values);
    }
  }

  /** The control plane's next steps are the next action as it came: tidy exactly when that is absent or stripped. */
  lemma ControlNextStepsTidyExactly(r: ControlReport, p: Patterns, previous: Option<Previous>, force: bool, bucket: int)
    ensures Tidy(NormalizedControl(r, p, previous, force, bucket).report.nextSteps)
            <==> !Truthy(r.nextAction) || Strip(r.nextAction.value) == r.nextAction.value
  {
    hide Unique, Strip, ControlTally, TriggerOf, ValidationOf;
    var steps := NormalizedControl(r, p, previous, force, bucket).report.nextSteps;
    assert steps == NextSteps(r);
    if Truthy(r.nextAction) {
      assert steps[0] == r.nextAction.value;
    }
  }
}
