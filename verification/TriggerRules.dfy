/** The words of a report: which reasons a gate gives, how they are joined and clipped, and what the report quotes. */
module TriggerRules {
  import opened Prelude
  import opened Text
  import opened Model
  import opened Progress
  import opened TextRules
  import opened ReportRules

  lemma Reasons()
    ensures ItemFailed() == "Codex reported a failed item/turn" && ValidationFailed() == "validation failure detected"
    ensures HighRisk() == "high-risk progress signal detected" && LastErrorSeen() == "Codex runtime exposes lastError"
    ensures NeedsInput() == "Codex requires approval or user input"
    ensures HasBlockers() == "Agent snapshot contains blockers"
    ensures forall status :: StatusGate(status) == "runtime status is " + status
  {
  }

  /** No two reasons read the same, whatever the status. */
  lemma ReasonsDiffer(status: string)
    ensures ItemFailed() !in {ValidationFailed(), HighRisk(), LastErrorSeen(), NeedsInput(), StatusGate(status)}
    ensures ValidationFailed() !in {HighRisk(), LastErrorSeen(), NeedsInput(), HasBlockers(), StatusGate(status)}
    ensures HighRisk() !in {LastErrorSeen(), NeedsInput(), StatusGate(status)}
    ensures LastErrorSeen() !in {NeedsInput(), StatusGate(status)}
    ensures NeedsInput() !in {HasBlockers(), StatusGate(status)}
    ensures HasBlockers() != StatusGate(status)
  {
    var failed, invalid, risky, error, input, blocked, word :=
      ItemFailed(), ValidationFailed(), HighRisk(), LastErrorSeen(), NeedsInput(), HasBlockers(), StatusGate(status);
    assert failed[0] == 'C' && failed[8] == 'p' && invalid[0] == 'v' && risky[0] == 'h';
    assert error[0] == 'C' && error[7] == 'u' && input[0] == 'C' && input[7] == 'e' && input[8] == 'q';
    assert blocked[0] == 'A' && word[0] == 'r' && failed[7] == 'e';
  }

  /** A provider-neutral snapshot gives each reason exactly when it applies. */
  lemma AgentReasonsExactly(a: AgentReport)
    ensures var g := AgentGates(a);
            && (NeedsInput() in g <==> a.interactions > 0)
            && (HasBlockers() in g <==> a.report.blockers != [])
            && (StatusGate(a.status) in g
                <==> a.status != "" && (Lower(a.status) in GATE_STATUS || Lower(a.status) == "unknown"))
            && (ValidationFailed() in g <==> a.report.validation.status.Some?
                                             && Lower(a.report.validation.status.value) in FAILED_VALIDATION)
            && forall r :: r in g ==> r in {NeedsInput(), HasBlockers(), StatusGate(a.status), ValidationFailed()}
  {
    ReasonsDiffer(a.status);
    hide Lower, GateStatus, FailedValidation, NeedsInput, HasBlockers, ValidationFailed, StatusGate;
    StatusWords(AgentStatus(a));
    ValidationWords(a.report.validation);
  }

  /** A failed item or turn, unless its method also speaks of completion. */
  predicate Fails(e: ProgressEvent) {
    e.ProgressEvent? && Contains(Lower(e.name), "failed") && !Contains(Lower(e.name), "completed")
  }

  /** The reasons of the events. */
  lemma {:induction false} EventReasonsExactly(events: seq<ProgressEvent>, p: Patterns)
    ensures var g := Tally(events, p).gates;
            && (ItemFailed() in g
                <==> exists i :: 0 <= i < |events| && Fails(events[i]))
            && (ValidationFailed() in g
                <==> exists i :: 0 <= i < |events| && events[i].ProgressEvent? && p.testFailed(events[i].text))
            && (HighRisk() in g
                <==> exists i :: 0 <= i < |events| && events[i].ProgressEvent? && p.gateWord(events[i].text))
            && forall r :: r in g ==> r in {ItemFailed(), ValidationFailed(), HighRisk()}
  {
    ReasonsDiffer("");
    hide Fails, Contains, Lower, ItemFailed, ValidationFailed, HighRisk, TallyOne;
    if events != [] {
      var n := |events| - 1;
      EventReasonsExactly(events[..n], p);
      NoDictionaryFails(events[n]);
      assert forall i :: 0 <= i < n ==> events[..n][i] == events[i];
      if events[n].ProgressEvent? {
        OneEventsReasons(Tally(events[..n], p), events[n], p);
      }
    }
  }

  lemma NoDictionaryFails(e: ProgressEvent)
    ensures e.NoDictionary? ==> !Fails(e)
  {
  }

  lemma OneEventsReasons(t: Tallied, e: ProgressEvent, p: Patterns)
    requires e.ProgressEvent?
    ensures var g := TallyOne(t, e, p).gates;
            forall r :: r in g <==> || r in t.gates
                                    || (r == ItemFailed() && Fails(e))
                                    || (r == ValidationFailed() && p.testFailed(e.text))
                                    || (r == HighRisk() && p.gateWord(e.text))
  {
    hide Contains, Lower, ItemFailed, ValidationFailed, HighRisk;
  }

  /** A control-plane report gives each reason exactly when it applies. */
  lemma ControlReasonsExactly(r: ControlReport, p: Patterns)
    ensures var g := ControlTally(r, p).gates;
            var events := Considered(r, p);
            && (LastErrorSeen() in g <==> r.lastError.Some? && r.lastError.value != "")
            && (NeedsInput() in g <==> r.interactions != [])
            && (r.status.Some? ==> (StatusGate(r.status.value) in g <==> Lower(r.status.value) in GATE_STATUS))
            && (ItemFailed() in g
                <==> exists i :: 0 <= i < |events| && Fails(events[i]))
            && (ValidationFailed() in g
                <==> exists i :: 0 <= i < |events| && events[i].ProgressEvent? && p.testFailed(events[i].text))
            && (HighRisk() in g
                <==> exists i :: 0 <= i < |events| && events[i].ProgressEvent? && p.gateWord(events[i].text))
  {
    hide ControlTally, Tally, Lower, LastErrorSeen, NeedsInput, StatusGate, Considered, Fails, ItemFailed,
         ValidationFailed, HighRisk, HasBlockers;
    ReasonsDiffer(if r.status.Some? then r.status.value else "");
    EventReasonsExactly(Considered(r, p), p);
    ControlGatesAre(r, p);
  }

  lemma ControlGatesAre(r: ControlReport, p: Patterns)
    ensures forall x :: x in ControlTally(r, p).gates
              <==> || x in Tally(Considered(r, p), p).gates
                   || (x == LastErrorSeen() && r.lastError.Some? && r.lastError.value != "")
                   || (x == NeedsInput() && r.interactions != [])
                   || (r.status.Some? && x == StatusGate(r.status.value) && Lower(r.status.value) in GATE_STATUS)
  {
    hide Tally, Lower, GateStatus, TerminalSuccess, Clip, Unique, Join, Kinds, LastErrorSeen, NeedsInput, StatusGate,
         PendingInteraction, ReachedTerminal, Filtered;
    StatusWords(r.status);
  }

  /** A gate names its first four distinct reasons; the other kinds have a wording of their own. */
  lemma TriggersExactly(a: AgentReport, r: ControlReport, p: Patterns, previous: Option<Previous>, force: bool,
                        bucket: int)
    ensures var n := NormalizedAgent(a, previous, force, bucket);
            n.trigger == match n.checkpointType
                         case Gate => Join(Unique(AgentGates(a), 4), "; ")
                         case Progress => "meaningful agent progress/state change"
                         case Heartbeat => if force then "forced heartbeat" else "no high-signal progress change"
    ensures var n := NormalizedControl(r, p, previous, force, bucket);
            n.trigger == match n.checkpointType
                         case Gate => Join(Unique(ControlTally(r, p).gates, 4), "; ")
                         case Progress => "meaningful Codex progress/state change"
                         case Heartbeat => if force then "forced heartbeat" else "no high-signal progress change"
  {
    Wordings();
    hide AgentGates, ControlTally, Unique, Join, Forced, Quiet, ControlMoved, AgentMoved, AgentMaterial,
         ControlMaterial, ControlReportOf, Bounded;
  }

  lemma Wordings()
    ensures Forced() == "forced heartbeat" && Quiet() == "no high-signal progress change"
    ensures ControlMoved() == "meaningful Codex progress/state change"
    ensures AgentMoved() == "meaningful agent progress/state change"
    ensures PendingInteraction() == "Pending Codex interaction: "
    ensures ReachedTerminal() == "Codex turn reached terminal status: "
  {
  }

  /** What the report quotes of interactions and of a terminal status. */
  lemma QuotedExactly(r: ControlReport, p: Patterns)
    ensures var t := ControlTally(r, p);
            && (r.interactions != [] ==>
                  t.blockers != []
                  && t.blockers[|t.blockers| - 1]
                     == "Pending Codex interaction: " + Join(Unique(Kinds(r.interactions), 5), ", "))
            && (StatusIn(r.status, TERMINAL_SUCCESS) ==>
                  t.completed != []
                  && t.completed[|t.completed| - 1] == "Codex turn reached terminal status: " + r.status.value)
  {
    Wordings();
    hide Tally, Lower, GateStatus, TerminalSuccess, Clip, Unique, Join, Kinds, LastErrorSeen, NeedsInput, StatusGate,
         PendingInteraction, ReachedTerminal, Filtered;
    StatusWords(r.status);
  }

  /** str.join: one part is itself, and the separator stands between two lists. */
  lemma {:induction false} JoinExactly(a: seq<string>, b: seq<string>, separator: string)
    ensures Join([], separator) == ""
    ensures |a| == 1 ==> Join(a, separator) == a[0]
    ensures a != [] && b != [] ==> Join(a + b, separator) == Join(a, separator) + separator + Join(b, separator)
  {
    if |a| == 1 && b != [] {
      assert (a + b)[1..] == b;
    } else if a != [] && b != [] {
      assert (a + b)[1..] == a[1..] + b;
      JoinExactly(a[1..], b, separator);
      assert a[0] + separator + (Join(a[1..], separator) + separator + Join(b, separator))
             == a[0] + separator + Join(a[1..], separator) + separator + Join(b, separator);
    }
  }

  /** The kinds that are there, in order. */
  lemma {:induction false} KindsExactly(a: seq<Option<string>>, b: seq<Option<string>>)
    ensures Kinds([]) == [] && forall x :: Kinds([Some(x)]) == [x]
    ensures Kinds([None]) == []
    ensures Kinds(a + b) == Kinds(a) + Kinds(b)
  {
    forall x: Option<string> ensures [x][..0] == [] {}
    if b == [] {
      assert a + b == a;
    } else {
      var n := |b| - 1;
      assert (a + b)[..|a + b| - 1] == a + b[..n];
      KindsExactly(a, b[..n]);
    }
  }

  /** A clipped text is the words with single blanks, or a beginning of them less blanks at its end, and an ellipsis. */
  lemma ClipExactly(text: string, limit: nat)
    requires limit > 0
    ensures var flat := Join(Words(text), " ");
            && (|flat| <= limit ==> Clip(text, limit) == flat)
            && (|flat| > limit ==>
                  exists n :: 0 <= n < limit && Clip(text, limit) == flat[..n] + ['\U{2026}']
                              && AllSpace(flat[n..limit - 1]) && (n > 0 ==> !IsSpace(flat[n - 1])))
  {
    hide Words, Join, IsSpace;
    var flat := Join(Words(text), " ");
    if |flat| > limit {
      var head := flat[..limit - 1];
      var n := RStripExactly(head);
      assert head[..n] == flat[..n];
      assert head[n..] == flat[n..limit - 1];
      assert Clip(text, limit) == flat[..n] + ['\U{2026}'];
    }
  }
}
