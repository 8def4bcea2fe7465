/** The Context Pack section by section, and the row that a collection stores. */
module PackRules {
  import opened Prelude
  import opened Text
  import opened Model
  import opened CheckpointTx
  import opened Steps
  import opened Progress
  import opened Collection
  import opened ContextPack
  import opened TextRules

  /** A section: its title, a rule of dashes as long, and the body without outer blanks, each on its own lines. */
  lemma RenderedExactly(title: string, body: string)
    ensures var r := Rendered(title, body);
            var n := |title|;
            && |r| == 2 * n + 2 + |Strip(body)|
            && r[..n] == title && r[n] == '\n' && (forall i :: n < i <= 2 * n ==> r[i] == '-') && r[2 * n + 1] == '\n'
            && r[2 * n + 2..] == Strip(body)
  {
    hide Strip;
    var n, rule, r := |title|, Repeat('-', |title|), Rendered(title, body);
    assert forall i :: 0 <= i < n ==> rule[i] == '-';
    assert r == title + ("\n" + rule + "\n" + Strip(body));
    assert forall i :: n < i <= 2 * n ==> r[i] == rule[i - n - 1];
  }

  /** The mandatory text: section after section, a blank line between two of them. */
  lemma {:induction false} JoinedExactly(a: seq<Section>, b: seq<Section>)
    ensures Joined([]) == ""
    ensures |a| == 1 ==> Joined(a) == Rendered(a[0].title, a[0].body)
    ensures a != [] && b != [] ==> Joined(a + b) == Joined(a) + "\n\n" + Joined(b)
  {
    hide Rendered;
    if a != [] && b != [] {
      var n := |b| - 1;
      assert (a + b)[..|a + b| - 1] == a + b[..n];
      if n == 0 {
        assert a + b[..0] == a;
      } else {
        JoinedExactly(a, b[..n]);
        var last := Rendered(b[n].title, b[n].body);
        assert (Joined(a) + "\n\n" + Joined(b[..n])) + GAP + last == Joined(a) + "\n\n" + (Joined(b[..n]) + GAP + last);
      }
    }
  }

  /** A cut text keeps as much of the value as the limit leaves beside the marker, less blanks at its end. */
  lemma TruncatedExactly(value: string, maxChars: int)
    ensures |value| <= maxChars ==> Truncated(value, maxChars) == value
    ensures |value| > maxChars ==>
              var keep := if maxChars < |Marker()| then 0 else maxChars - |Marker()|;
              exists n :: 0 <= n <= keep && keep <= |value| && Truncated(value, maxChars) == value[..n] + Marker()
                          && AllSpace(value[n..keep]) && (n > 0 ==> !IsSpace(value[n - 1]))
  {
    hide Marker, IsSpace;
    if |value| > maxChars {
      var keep := if maxChars < |Marker()| then 0 else maxChars - |Marker()|;
      var n := RStripExactly(value[..keep]);
      assert value[..keep][..n] == value[..n];
      assert value[..keep][n..] == value[n..keep];
      assert Truncated(value, maxChars) == value[..n] + Marker();
    }
  }

  lemma MarkerLength()
    ensures |Marker()| == 57
  {
  }

  /** One turn of the budget loop, in lengths: whole up to the target, else cut if there is room for it. */
  lemma PlacedExactly(p: Packed, s: Section, b: Budget)
    ensures var gap := if p.content == "" then 0 else 2;
            var whole := |p.content| + gap + 2 * |s.title| + 2 + |Strip(s.body)|;
            var room := b.hardMax - |p.content| - gap;
            var q := Place(p, s, b);
            && (q.truncated == p.truncated <==> whole <= b.target)
            && (whole <= b.target ==> |q.content| == whole)
            && (whole > b.target ==> q.truncated == p.truncated + [s.title])
            && (whole > b.target && room <= |s.title| + 24 ==> q.content == p.content)
    ensures var gap := if p.content == "" then "" else "\n\n";
            var room := b.hardMax - |p.content| - |gap|;
            var trimmed := Rendered(s.title, Truncated(s.body, room - |s.title| - 12));
            |p.content| + |gap| + 2 * |s.title| + 2 + |Strip(s.body)| > b.target && room > |s.title| + 24 ==>
              Place(p, s, b).content == if |trimmed| <= room then p.content + gap + trimmed else p.content
  {
    hide Strip, Truncated;
    RenderedExactly(s.title, s.body);
    hide Rendered;
  }

  /** A quarter of the characters, rounded up. */
  lemma TokensExactly(content: string)
    ensures |content| <= 4 * Tokens(content) < |content| + 4
  {
  }

  /** What a collection submits: whose turn, what it said, and where the evidence is. */
  lemma ObservationExactly(s: Store, later: Store, source: Source, force: bool, bucket: int)
    requires s.runtime.Some?
    ensures var o := Observation(s, later, source, force, bucket);
            var n := Collection.Normalized(source, Latest(later.checkpoints), force, bucket);
            && o.checkpointType == n.checkpointType && o.fingerprint == n.fingerprint && o.trigger == n.trigger
            && o.remoteStatus == n.status && o.nextAction == n.nextAction && o.report == n.report
            && o.rawEvents == n.rawEvents
            && o.identity == (if source.FromAgent? then source.agent.identity else s.runtime.value.identity)
    ensures var o := Observation(s, later, source, force, bucket);
            var own := if source.FromAgent? then source.agent.evidence else [];
            var id := s.runtime.value.identity;
            && own <= o.evidence
            && |o.evidence| == |own| + (if Truthy(id.operation) then 1 else 0) + (if Truthy(id.workflow) then 1 else 0)
            && (Truthy(id.operation) ==> o.evidence[|own|] == "codex-operation:" + id.operation.value)
            && (Truthy(id.workflow) ==> o.evidence[|o.evidence| - 1] == "codex-workflow:" + id.workflow.value)
  {
    hide NormalizedAgent, NormalizedControl;
  }

  /** Without a runtime row the observation is an empty heartbeat without identity or evidence. */
  lemma NothingToObserve(s: Store, later: Store, source: Source, force: bool, bucket: int)
    requires s.runtime.None?
    ensures var o := Observation(s, later, source, force, bucket);
            && o.checkpointType == Heartbeat && o.identity == NO_IDENTITY && o.evidence == [] && o.rawEvents == 0
            && o.remoteStatus == None && o.nextAction == None
  {
    hide TriggerOf, Unique;
    var p := Patterns(_ => false, _ => false, _ => false, (_, _) => []);
    EmptyTally(Effective(s.runtime, source).patterns);
  }

  lemma EmptyTally(p: Patterns)
    ensures ControlTally(NOTHING, p) == EMPTY_TALLY
  {
    hide Unique;
    assert Filtered([], p) == [] && Tally([], p) == EMPTY_TALLY;
  }

  /** The latest checkpoint is the row of highest sequence. */
  lemma LatestExactly(checkpoints: seq<Checkpoint>)
    ensures checkpoints == [] ==> Latest(checkpoints) == None
    ensures checkpoints != [] ==>
              var c := checkpoints[|checkpoints| - 1]; Latest(checkpoints) == Some(Previous(c.remoteStatus,
                                                                                            c.nextAction))
  {
  }
}
