/** memory/context_pack.py: the budget loop that packs mandatory and optional sections into one text. */
module ContextPack {
  import opened Prelude
  import opened Text
  import opened Model
  import opened MemoryTx
  import opened MemoryStores

  datatype Section = Section(title: string, body: string)
  datatype Budget = Budget(target: nat, hardMax: nat)

  datatype Packed = Packed(content: string, truncated: seq<string>)
  datatype BuiltPack = BuiltPack(content: string, tokens: nat, truncated: seq<string>, overBudget: bool)

  const GAP := "\n\n"

  function Marker(): string {
    "\n...[truncated; retrieve details by evidence/search tool]"
  }

  /** The constructor's check: 0 < target_chars <= hard_max_chars, or ValueError. */
  function NewBudget(target: int, hardMax: int): (b: Option<Budget>)
    ensures b.Some? <==> 0 < target <= hardMax
    ensures b.Some? ==> b.value == Budget(target, hardMax) && Usable(b.value)
  {
    if target <= 0 || hardMax < target then None else Some(Budget(target, hardMax))
  }

  predicate Usable(b: Budget) {
    0 < b.target <= b.hardMax
  }

  function Repeat(c: char, n: nat): (r: string)
    ensures |r| == n
  {
    seq(n, _ => c)
  }

  /** `_section`. */
  function Rendered(title: string, body: string): string {
    title + "\n" + Repeat('-', |title|) + "\n" + Strip(body)
  }

  /** `_truncate`. */
  function Truncated(value: string, maxChars: int): string {
    if |value| <= maxChars then value
    else
      var keep := if maxChars < |Marker()| then 0 else maxChars - |Marker()|;
      RStrip(value[..if keep < |value| then keep else |value|]) + Marker()
  }

  /** A text that is cut never exceeds the limit, unless the marker alone does. */
  lemma TruncationBound(value: string, maxChars: int)
    requires |value| > maxChars
    ensures |Truncated(value, maxChars)| <= if |Marker()| < maxChars then maxChars else |Marker()|
    ensures Marker() <= Truncated(value, maxChars)[|Truncated(value, maxChars)| - |Marker()|..]
  {
    hide Marker;
    var keep := if maxChars < |Marker()| then 0 else maxChars - |Marker()|;
    RStripFacts(value[..if keep < |value| then keep else |value|]);
  }

  function Separator(content: string): string {
    if content != "" then GAP else ""
  }

  /** The mandatory text: its sections, joined. */
  function Joined(sections: seq<Section>): string {
    if sections == [] then ""
    else if |sections| == 1 then Rendered(sections[0].title, sections[0].body)
    else Joined(sections[..|sections| - 1])
         + GAP + Rendered(sections[|sections| - 1].title, sections[|sections| - 1].body)
  }

  /** One turn of the budget loop. */
  function Place(p: Packed, s: Section, b: Budget): Packed {
    var separator := Separator(p.content);
    var section := Rendered(s.title, s.body);
    if |p.content| + |separator| + |section| <= b.target then p.(content := p.content + separator + section)
    else
      var remaining := b.hardMax - |p.content| - |separator|;
      var reported := p.truncated + [s.title];
      if remaining <= |s.title| + 24 then p.(truncated := reported)
      else
        var trimmed := Rendered(s.title, Truncated(s.body, remaining - |s.title| - 12));
        if |p.content| + |separator| + |trimmed| <= b.hardMax
        then Packed(p.content + separator + trimmed, reported)
        else p.(truncated := reported)
  }

  function Pack(mandatory: string, optional: seq<Section>, b: Budget): Packed {
    if optional == [] then Packed(mandatory, [])
    else Place(Pack(mandatory, optional[..|optional| - 1], b), optional[|optional| - 1], b)
  }

  /** What became of one optional section. */
  datatype Fate = Whole | Shortened(text: string) | Omitted

  /** The text a section adds to what is already there. */
  function Piece(content: string, s: Section, fate: Fate): string {
    match fate
    case Whole => Separator(content) + Rendered(s.title, s.body)
    case Shortened(text) => Separator(content) + text
    case Omitted => ""
  }

  /** The content that the fates describe, section after section. */
  function Told(mandatory: string, optional: seq<Section>, fates: seq<Fate>): string
    requires |fates| == |optional|
  {
    if optional == [] then mandatory
    else
      var n := |optional| - 1;
      var before := Told(mandatory, optional[..n], fates[..n]);
      before + Piece(before, optional[n], fates[n])
  }

  /** The titles of the sections that are not whole. */
  function Reported(optional: seq<Section>, fates: seq<Fate>): seq<string>
    requires |fates| == |optional|
  {
    if optional == [] then []
    else
      var n := |optional| - 1;
      Reported(optional[..n], fates[..n]) + (if fates[n] == Whole then [] else [optional[n].title])
  }

  /** The text is the section with its body cut somewhere. */
  ghost predicate CutFrom(s: Section, text: string) {
    exists maxChars: int :: text == Rendered(s.title, Truncated(s.body, maxChars))
  }

  /** Every section that is not reported truncated appears whole, and all of them in order. */
  lemma {:induction false} PackTells(mandatory: string, optional: seq<Section>, b: Budget) returns (fates: seq<Fate>)
    ensures |fates| == |optional|
    ensures Pack(mandatory, optional, b) == Packed(Told(mandatory, optional, fates), Reported(optional, fates))
    ensures forall i :: 0 <= i < |fates| && fates[i].Shortened? ==> CutFrom(optional[i], fates[i].text)
  {
    hide Rendered, Truncated;
    if optional == [] {
      fates := [];
    } else {
      var n := |optional| - 1;
      var s := optional[n];
      var earlier := PackTells(mandatory, optional[..n], b);
      var p := Pack(mandatory, optional[..n], b);
      var q := Place(p, s, b);
      var fate := if q.truncated == p.truncated then Whole
                  else if q.content == p.content then Omitted
                  else Shortened(q.content[|p.content| + |Separator(p.content)|..]);
      fates := earlier + [fate];
      assert fates[..n] == earlier;
      PlaceTells(p, s, b, fate);
    }
  }

  lemma PlaceTells(p: Packed, s: Section, b: Budget, fate: Fate)
    requires var q := Place(p, s, b);
             fate == if q.truncated == p.truncated then Whole
                     else if q.content == p.content then Omitted
                     else Shortened(q.content[|p.content| + |Separator(p.content)|..])
    ensures Place(p, s, b).content == p.content + Piece(p.content, s, fate)
    ensures Place(p, s, b).truncated == p.truncated + (if fate == Whole then [] else [s.title])
    ensures fate.Shortened? ==> CutFrom(s, fate.text)
  {
    hide Rendered, Truncated;
    assert p.truncated + [] == p.truncated;
  }

  /** The budget: the mandatory text comes first and in full, and only it may exceed the hard maximum. */
  lemma {:induction false} PackBudget(mandatory: string, optional: seq<Section>, b: Budget)
    requires Usable(b)
    ensures var p := Pack(mandatory, optional, b);
            && mandatory <= p.content
            && |p.content| <= (if |mandatory| < b.hardMax then b.hardMax else |mandatory|)
            && (|mandatory| > b.hardMax ==> p.content == mandatory && |p.truncated| == |optional|)
  {
    hide Rendered, Truncated;
    if optional != [] {
      PackBudget(mandatory, optional[..|optional| - 1], b);
    }
  }

  /** The text with every optional section whole. */
  function Full(mandatory: string, optional: seq<Section>): string {
    Told(mandatory, optional, seq(|optional|, _ => Whole))
  }

  lemma {:induction false} FullGrows(mandatory: string, optional: seq<Section>)
    ensures optional != [] ==> |Full(mandatory, optional[..|optional| - 1])| <= |Full(mandatory, optional)|
    ensures optional != [] ==>
              var before := Full(mandatory, optional[..|optional| - 1]);
              Full(mandatory, optional)
              == before + Separator(before) + Rendered(optional[|optional| - 1].title, optional[|optional| - 1].body)
  {
    hide Rendered;
    if optional != [] {
      var n := |optional| - 1;
      assert seq(|optional|, _ => Whole)[..n] == seq(n, _ => Whole);
      var before := Full(mandatory, optional[..n]);
      var section := Rendered(optional[n].title, optional[n].body);
      assert before + (Separator(before) + section) == before + Separator(before) + section;
    }
  }

  /** Nothing is reported truncated exactly when the whole text fits the target. */
  lemma {:induction false} NothingTruncatedIffFits(mandatory: string, optional: seq<Section>, b: Budget)
    requires optional != []
    ensures Pack(mandatory, optional, b).truncated == [] <==> |Full(mandatory, optional)| <= b.target
    ensures Pack(mandatory, optional, b).truncated == []
            ==> Pack(mandatory, optional, b).content == Full(mandatory, optional)
  {
    hide Rendered, Truncated, Told;
    var n := |optional| - 1;
    FullGrows(mandatory, optional);
    if n == 0 {
      EmptyFull(mandatory);
      assert optional[..n] == [];
    } else {
      NothingTruncatedIffFits(mandatory, optional[..n], b);
    }
  }

  lemma EmptyFull(mandatory: string)
    ensures Full(mandatory, []) == mandatory
  {
  }

  /** `estimate_tokens`: a quarter of the length, rounded up. */
  function Tokens(content: string): nat {
    (|content| + 3) / 4
  }

  class ContextPackBuilder {
    const store: MemoryStore
    const budget: Budget

    constructor (store: MemoryStore, budget: Budget)
      ensures this.store == store && this.budget == budget
    {
      this.store, this.budget := store, budget;
    }

    /** The budget loop of `build`. */
    method Fill(mandatory: string, optional: seq<Section>) returns (p: Packed)
      ensures p == Pack(mandatory, optional, budget)
    {
      hide Rendered, Truncated;
      var content, truncated := mandatory, [];
      assert optional[..0] == [];
      for k := 0 to |optional|
        invariant Packed(content, truncated) == Pack(mandatory, optional[..k], budget)
      {
        assert optional[..k + 1][..k] == optional[..k];
        var s := optional[k];
        var section, separator := Rendered(s.title, s.body), Separator(content);
        if |content| + |separator| + |section| <= budget.target {
          content := content + separator + section;
          continue;
        }
        var remaining := budget.hardMax - |content| - |separator|;
        if remaining <= |s.title| + 24 {
          truncated := truncated + [s.title];
          continue;
        }
        var trimmed := Rendered(s.title, Truncated(s.body, remaining - |s.title| - 12));
        if |content| + |separator| + |trimmed| <= budget.hardMax {
          content := content + separator + trimmed;
        }
        truncated := truncated + [s.title];
      }
      assert optional[..|optional|] == optional;
      return Packed(content, truncated);
    }

    /** `build`, from the sections on; saving the Context Pack is one more transaction. */
    method Build(mode: string, mandatory: seq<Section>, optional: seq<Section>, persist: bool) returns (pack: BuiltPack)
      modifies store
      ensures var p := Pack(Joined(mandatory), optional, budget);
              pack == BuiltPack(p.content, Tokens(p.content), p.truncated, |Joined(mandatory)| > budget.hardMax)
      ensures store.db
           == if persist then After(old(store.db), SaveContextSnapshot(old(store.db), mode, pack.content, pack.tokens))
                          else old(store.db)
    {
      hide Pack, Joined;
      var text := Joined(mandatory);
      var p := Fill(text, optional);
      pack := BuiltPack(p.content, Tokens(p.content), p.truncated, |text| > budget.hardMax);
      if persist {
        var r := store.SaveContext(mode, pack.content, pack.tokens);
      }
    }
  }
}
