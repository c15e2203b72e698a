/**
 * The prompt assembler (`buildPrompt`, App.tsx): up to seven sections in a
 * fixed order, two of them always present and five gated by the selected
 * techniques, joined with a blank line.
 *
 * The specification is the function `BuildPrompt`, defined through the
 * fixed section order; `Assemble` is the step-by-step construction of the
 * original program, proved to produce the same string.
 */
module Assembler {
  import opened Wrappers
  import opened Types
  import opened Text

  /** What `join` puts between two sections. */
  const Separator: string := "\n\n"
  /** What an empty subject field renders as. */
  const NotEntered: string := "(미입력)"
  /** What an empty task renders as. */
  const TaskPlaceholder: string := "수행할 과제를 입력해주세요."
  /** What an empty resolved role renders as. */
  const RolePlaceholder: string := "(역할 지정)"

  /** The seven section slots. */
  datatype Section = Persona | Subject | Strategy | Request | Reasoning | Reference | Tone

  /** The slots in the order they appear in a prompt. */
  const SectionOrder: seq<Section> := [Persona, Subject, Strategy, Request, Reasoning, Reference, Tone]

  /** The position of a slot in `SectionOrder`. */
  function Rank(k: Section): (n: nat)
    ensures n < |SectionOrder| && SectionOrder[n] == k
  {
    match k
    case Persona => 0
    case Subject => 1
    case Strategy => 2
    case Request => 3
    case Reasoning => 4
    case Reference => 5
    case Tone => 6
  }

  /** The technique that gates a slot; `None` for the two slots that are always emitted. */
  function Gate(k: Section): Option<TechniqueType> {
    match k
    case Persona => Some(Role)
    case Subject => None
    case Strategy => Some(StepBack)
    case Request => None
    case Reasoning => Some(Cot)
    case Reference => Some(FewShot)
    case Tone => Some(Emotion)
  }

  /** The slot a technique gates; zero-shot gates none. This is the inverse of `Gate`. */
  function SectionOf(t: TechniqueType): (k: Option<Section>)
    ensures k.None? <==> t == ZeroShot
    ensures k.Some? ==> Gate(k.value) == Some(t)
    ensures forall s :: Gate(s) == Some(t) ==> k == Some(s)
  {
    match t
    case ZeroShot => None
    case Cot => Some(Reasoning)
    case FewShot => Some(Reference)
    case Role => Some(Persona)
    case Emotion => Some(Tone)
    case StepBack => Some(Strategy)
  }

  /** A slot is emitted when it is ungated or its technique is selected (`includes`). */
  predicate Emits(k: Section, selected: seq<TechniqueType>) {
    Gate(k).None? || Gate(k).value in selected
  }

  /**
   * The slots of `order` that the selection emits, in the order of `order`:
   * the slots before the last one, then the last one if it is emitted.
   */
  function EmittedFrom(order: seq<Section>, selected: seq<TechniqueType>): seq<Section>
    decreases |order|
  {
    if order == [] then []
    else
      var last := order[|order| - 1];
      EmittedFrom(order[..|order| - 1], selected) + (if Emits(last, selected) then [last] else [])
  }

  /** A slot is among the emitted ones exactly when it is in `order` and the selection emits it. */
  lemma {:induction false} EmittedFromMembers(order: seq<Section>, selected: seq<TechniqueType>)
    ensures forall k :: k in EmittedFrom(order, selected) <==> k in order && Emits(k, selected)
    decreases |order|
  {
    if order != [] {
      EmittedFromMembers(order[..|order| - 1], selected);
      assert order == order[..|order| - 1] + [order[|order| - 1]];
    }
  }

  /** The slots a selection emits. */
  function Emitted(selected: seq<TechniqueType>): seq<Section> {
    EmittedFrom(SectionOrder, selected)
  }

  /** The role the persona section names: the free-text role in direct-input mode, the chosen one otherwise. */
  function ResolvedRole(inputs: PromptInputs, customRole: string, directInputMode: bool): string {
    if directInputMode then customRole else inputs.role
  }

  function PersonaSection(finalRole: string, perspective: string): string {
    "너는 **" + Or(finalRole, RolePlaceholder) + "** 전문가야. 특히 **" + perspective
    + "**의 시각으로 문제를 분석하고 최적의 대안을 제시해줘."
  }

  function SubjectSection(inputs: PromptInputs): string {
    "## 대상 정보\n- **제품/브랜드**: " + Or(inputs.productName, NotEntered)
    + "\n- **분류**: " + Or(inputs.category, NotEntered)
    + "\n- **타깃 대상**: " + Or(inputs.targetAudience, NotEntered)
    + "\n- **핵심 특징**: " + Or(inputs.keyFeatures, NotEntered)
  }

  function StrategySection(inputs: PromptInputs): string {
    "## 상위 전략\n작업 시작 전, 우리의 궁극적 목표인 **" + inputs.goal
    + "**와 성공 기준인 **" + inputs.criteria + "**를 명확히 반영해."
  }

  function RequestSection(inputs: PromptInputs): string {
    "## 요청 과제\n" + Or(inputs.task, TaskPlaceholder)
  }

  function ReasoningSection(inputs: PromptInputs): string {
    "## 단계적 사고 절차\n다음의 로직을 따라 순차적으로 생각해서 결과를 도출해줘:\n" + inputs.steps
  }

  function ReferenceSection(inputs: PromptInputs): string {
    "## 참고 예시\n다음 형식과 어조를 가이드로 삼아줘:\n" + inputs.examples
  }

  function ToneSection(inputs: PromptInputs): string {
    "## 감성 및 문체\n전체적으로 **" + inputs.emotion + "** 느낌이 나도록 하며, **"
    + inputs.attitude + "**를 유지해줘."
  }

  /** The text of one slot. It depends on the inputs and the resolved role only, never on the selection. */
  function Render(k: Section, inputs: PromptInputs, finalRole: string): string {
    match k
    case Persona => PersonaSection(finalRole, inputs.perspective)
    case Subject => SubjectSection(inputs)
    case Strategy => StrategySection(inputs)
    case Request => RequestSection(inputs)
    case Reasoning => ReasoningSection(inputs)
    case Reference => ReferenceSection(inputs)
    case Tone => ToneSection(inputs)
  }

  /** The texts of a list of slots, in the same order. */
  function RenderAll(ks: seq<Section>, inputs: PromptInputs, finalRole: string): seq<string> {
    seq(|ks|, i requires 0 <= i < |ks| => Render(ks[i], inputs, finalRole))
  }

  /** Rendering distributes over concatenation of slot lists. */
  lemma RenderAllAppend(a: seq<Section>, b: seq<Section>, inputs: PromptInputs, finalRole: string)
    ensures RenderAll(a + b, inputs, finalRole) == RenderAll(a, inputs, finalRole) + RenderAll(b, inputs, finalRole)
  {
    var l, r := RenderAll(a + b, inputs, finalRole), RenderAll(a, inputs, finalRole) + RenderAll(b, inputs, finalRole);
    forall i | 0 <= i < |l| ensures l[i] == r[i] {
      if i < |a| {
        assert (a + b)[i] == a[i];
      } else {
        assert (a + b)[i] == b[i - |a|];
      }
    }
  }

  /** Pushing a slot when `emitted` onto slots that render as `texts` pushes its text onto `texts`. */
  lemma RenderAllPush(ks: seq<Section>, texts: seq<string>, emitted: bool, k: Section,
                      inputs: PromptInputs, finalRole: string) returns (texts': seq<string>)
    requires RenderAll(ks, inputs, finalRole) == texts
    ensures texts' == texts + (if emitted then [Render(k, inputs, finalRole)] else [])
    ensures RenderAll(ks + (if emitted then [k] else []), inputs, finalRole) == texts'
  {
    RenderAllAppend(ks, if emitted then [k] else [], inputs, finalRole);
    RenderAllGated(emitted, k, inputs, finalRole);
    texts' := texts + (if emitted then [Render(k, inputs, finalRole)] else []);
  }

  /** A slot list of one slot when `emitted` and none otherwise renders accordingly. */
  lemma RenderAllGated(emitted: bool, k: Section, inputs: PromptInputs, finalRole: string)
    ensures RenderAll(if emitted then [k] else [], inputs, finalRole)
      == if emitted then [Render(k, inputs, finalRole)] else []
  {
  }

  /** The sections of the prompt, before joining. */
  function Parts(inputs: PromptInputs, selected: seq<TechniqueType>, customRole: string, directInputMode: bool): seq<string> {
    RenderAll(Emitted(selected), inputs, ResolvedRole(inputs, customRole, directInputMode))
  }

  /** `buildPrompt`: the emitted sections joined with a blank line. */
  function BuildPrompt(inputs: PromptInputs, selected: seq<TechniqueType>, customRole: string, directInputMode: bool): string {
    Join(Parts(inputs, selected, customRole, directInputMode), Separator)
  }

  // ---------------------------------------------------------------------------
  // Properties of the specification

  /** Filtering a list of strictly increasing rank keeps the ranks strictly increasing. */
  lemma {:induction false} EmittedFromInOrder(order: seq<Section>, selected: seq<TechniqueType>)
    requires forall i, j :: 0 <= i < j < |order| ==> Rank(order[i]) < Rank(order[j])
    ensures forall i, j :: 0 <= i < j < |EmittedFrom(order, selected)| ==>
      Rank(EmittedFrom(order, selected)[i]) < Rank(EmittedFrom(order, selected)[j])
    decreases |order|
  {
    if order != [] {
      var init, last := order[..|order| - 1], order[|order| - 1];
      EmittedFromInOrder(init, selected);
      EmittedFromMembers(init, selected);
      var front := EmittedFrom(init, selected);
      forall k | k in front ensures Rank(k) < Rank(last) {
        var j :| 0 <= j < |init| && init[j] == k;
        assert order[j] == k;
      }
    }
  }

  /**
   * The sections appear in the fixed order persona, subject, strategy,
   * request, reasoning, reference, tone, whatever order the techniques
   * were selected in; each slot is emitted exactly when it is ungated or its
   * technique is selected, so subject and request are always there.
   */
  lemma SectionsInFixedOrder(selected: seq<TechniqueType>)
    ensures forall i, j :: 0 <= i < j < |Emitted(selected)| ==> Rank(Emitted(selected)[i]) < Rank(Emitted(selected)[j])
    ensures forall k :: k in Emitted(selected) <==> Emits(k, selected)
    ensures Subject in Emitted(selected) && Request in Emitted(selected)
  {
    forall i, j | 0 <= i < j < |SectionOrder| ensures Rank(SectionOrder[i]) < Rank(SectionOrder[j]) {
    }
    EmittedFromInOrder(SectionOrder, selected);
    EmittedFromMembers(SectionOrder, selected);
    forall k ensures k in SectionOrder {
      assert SectionOrder[Rank(k)] == k;
    }
  }

  /** With every technique selected, all seven sections are emitted in the fixed order. */
  lemma AllSelectedEmitsEverySection(selected: seq<TechniqueType>)
    requires forall t :: t in selected
    ensures Emitted(selected) == SectionOrder
  {
    EmittedUnfolded(selected);
  }

  /** With zero-shot alone selected the prompt is the subject section, a blank line and the request section. */
  lemma ZeroShotOnlyPrompt(inputs: PromptInputs, customRole: string, directInputMode: bool)
    ensures BuildPrompt(inputs, [ZeroShot], customRole, directInputMode)
      == SubjectSection(inputs) + Separator + RequestSection(inputs)
  {
    var sel := [ZeroShot];
    PartsUnfolded(inputs, sel, customRole, directInputMode);
    var parts := Parts(inputs, sel, customRole, directInputMode);
    assert Role !in sel && StepBack !in sel && Cot !in sel && FewShot !in sel && Emotion !in sel;
    assert parts == [SubjectSection(inputs), RequestSection(inputs)];
    assert parts[..1] == [SubjectSection(inputs)];
    assert Join(parts[..1], Separator) == SubjectSection(inputs);
    assert Join(parts, Separator) == Join(parts[..1], Separator) + Separator + parts[1];
  }

  /** Which slots are emitted depends only on which techniques are selected, not on their order or repetition. */
  lemma {:induction false} EmittedFromMembershipOnly(order: seq<Section>, s1: seq<TechniqueType>, s2: seq<TechniqueType>)
    requires forall t :: t in s1 <==> t in s2
    ensures EmittedFrom(order, s1) == EmittedFrom(order, s2)
    decreases |order|
  {
    if order != [] {
      EmittedFromMembershipOnly(order[..|order| - 1], s1, s2);
    }
  }

  /** The prompt depends on the selection only through membership (`includes`). */
  lemma PromptDependsOnMembershipOnly(inputs: PromptInputs, s1: seq<TechniqueType>, s2: seq<TechniqueType>,
                                      customRole: string, directInputMode: bool)
    requires forall t :: t in s1 <==> t in s2
    ensures BuildPrompt(inputs, s1, customRole, directInputMode) == BuildPrompt(inputs, s2, customRole, directInputMode)
  {
    EmittedFromMembershipOnly(SectionOrder, s1, s2);
  }

  /**
   * Deselecting a gated technique `t` removes exactly the slot of `t` from
   * the emitted slots and keeps every other slot, in place, when the slots of
   * `order` are distinct.
   */
  lemma {:induction false} EmittedFromWithout(order: seq<Section>, with: seq<TechniqueType>, without: seq<TechniqueType>,
                                              t: TechniqueType, k: Section) returns (p: nat)
    requires Gate(k) == Some(t) && t in with
    requires forall u :: u in without <==> u in with && u != t
    requires forall i, j :: 0 <= i < j < |order| ==> order[i] != order[j]
    requires k in order
    ensures p <= |EmittedFrom(order, without)|
    ensures EmittedFrom(order, with)
      == EmittedFrom(order, without)[..p] + [k] + EmittedFrom(order, without)[p..]
    decreases |order|
  {
    var init, last := order[..|order| - 1], order[|order| - 1];
    if last == k {
      assert k !in init by {
        forall j | 0 <= j < |init| ensures init[j] != k {
          assert init[j] == order[j];
        }
      }
      EmittedFromOtherSlots(init, with, without, t);
      p := |EmittedFrom(init, without)|;
    } else {
      assert k in init by {
        var j :| 0 <= j < |order| && order[j] == k;
        assert init[j] == k;
      }
      assert forall i, j :: 0 <= i < j < |init| ==> init[i] == order[i] && init[j] == order[j];
      p := EmittedFromWithout(init, with, without, t, k);
      var front := EmittedFrom(init, without);
      var tail := if Emits(last, without) then [last] else [];
      assert Emits(last, with) == Emits(last, without);
      assert (front + tail)[..p] == front[..p];
      assert (front + tail)[p..] == front[p..] + tail;
    }
  }

  /** Slots not gated by `t` are emitted alike with and without `t`. */
  lemma {:induction false} EmittedFromOtherSlots(order: seq<Section>, with: seq<TechniqueType>, without: seq<TechniqueType>,
                                                 t: TechniqueType)
    requires forall u :: u in without <==> u in with && u != t
    requires forall k :: k in order ==> Gate(k) != Some(t)
    ensures EmittedFrom(order, with) == EmittedFrom(order, without)
    decreases |order|
  {
    if order != [] {
      var init := order[..|order| - 1];
      assert forall k :: k in init ==> k in order;
      EmittedFromOtherSlots(init, with, without, t);
    }
  }

  /**
   * Removing a gated technique from the selection removes exactly its
   * section from the prompt's sections and leaves every other section
   * byte-identical and in place.
   */
  lemma RemovingTechniqueRemovesItsSection(inputs: PromptInputs, with: seq<TechniqueType>, without: seq<TechniqueType>,
                                           t: TechniqueType, customRole: string, directInputMode: bool) returns (p: nat)
    requires t != ZeroShot && t in with
    requires forall u :: u in without <==> u in with && u != t
    ensures p <= |Parts(inputs, without, customRole, directInputMode)|
    ensures Parts(inputs, with, customRole, directInputMode)
      == Parts(inputs, without, customRole, directInputMode)[..p]
         + [Render(SectionOf(t).value, inputs, ResolvedRole(inputs, customRole, directInputMode))]
         + Parts(inputs, without, customRole, directInputMode)[p..]
  {
    var k := SectionOf(t).value;
    assert SectionOrder[Rank(k)] == k;
    forall i, j | 0 <= i < j < |SectionOrder| ensures SectionOrder[i] != SectionOrder[j] {
    }
    p := EmittedFromWithout(SectionOrder, with, without, t, k);
    RenderAllInsert(Emitted(without), p, k, inputs, ResolvedRole(inputs, customRole, directInputMode));
  }

  /**
   * A section reads no technique-specific field of another technique: a
   * field owned by a technique other than the section's gate can change
   * without changing the section's text.
   */
  lemma RenderIgnoresForeignField(k: Section, inputs: PromptInputs, f: Field, v: string,
                                  customRole: string, directInputMode: bool)
    requires Owner(f).Some? && Gate(k) != Owner(f)
    ensures Render(k, Set(inputs, f, v), ResolvedRole(Set(inputs, f, v), customRole, directInputMode))
      == Render(k, inputs, ResolvedRole(inputs, customRole, directInputMode))
  {
    var edited := Set(inputs, f, v);
    assert forall g :: g != f ==> Get(edited, g) == Get(inputs, g);
    match f
    case Steps => assert edited == inputs.(steps := v);
    case Examples => assert edited == inputs.(examples := v);
    case RoleName => assert edited == inputs.(role := v);
    case Perspective => assert edited == inputs.(perspective := v);
    case EmotionName => assert edited == inputs.(emotion := v);
    case Attitude => assert edited == inputs.(attitude := v);
    case Goal => assert edited == inputs.(goal := v);
    case Criteria => assert edited == inputs.(criteria := v);
  }

  /**
   * Editing a field that belongs to a technique which is not selected leaves
   * the prompt unchanged: each technique-specific field is read only by the
   * section that technique gates.
   */
  lemma UnselectedFieldsDoNotMatter(inputs: PromptInputs, selected: seq<TechniqueType>, f: Field, v: string,
                                    customRole: string, directInputMode: bool)
    requires Owner(f).Some? && Owner(f).value !in selected
    ensures BuildPrompt(Set(inputs, f, v), selected, customRole, directInputMode)
      == BuildPrompt(inputs, selected, customRole, directInputMode)
  {
    var edited := Set(inputs, f, v);
    var ks := Emitted(selected);
    EmittedFromMembers(SectionOrder, selected);
    var pa, pb := Parts(edited, selected, customRole, directInputMode), Parts(inputs, selected, customRole, directInputMode);
    forall i | 0 <= i < |ks| ensures pa[i] == pb[i] {
      assert ks[i] in ks;
      RenderIgnoresForeignField(ks[i], inputs, f, v, customRole, directInputMode);
    }
    assert pa == pb;
  }

  /** Rendering a slot list with one slot inserted inserts that slot's text at the same place. */
  lemma RenderAllInsert(ks: seq<Section>, p: nat, k: Section, inputs: PromptInputs, finalRole: string)
    requires p <= |ks|
    ensures RenderAll(ks[..p] + [k] + ks[p..], inputs, finalRole)
      == RenderAll(ks, inputs, finalRole)[..p] + [Render(k, inputs, finalRole)] + RenderAll(ks, inputs, finalRole)[p..]
  {
    var l := RenderAll(ks[..p] + [k] + ks[p..], inputs, finalRole);
    var r := RenderAll(ks, inputs, finalRole)[..p] + [Render(k, inputs, finalRole)] + RenderAll(ks, inputs, finalRole)[p..];
    assert |l| == |r| == |ks| + 1;
    forall i | 0 <= i < |l| ensures l[i] == r[i] {
      if i < p {
        assert (ks[..p] + [k] + ks[p..])[i] == ks[i];
      } else if i > p {
        assert (ks[..p] + [k] + ks[p..])[i] == ks[i - 1];
      }
    }
  }

  /**
   * The section texts: an empty subject field or task renders as its
   * placeholder and any other value, whitespace included, verbatim; an empty
   * resolved role renders as its placeholder.
   */
  lemma PlaceholdersOnlyForEmpty(inputs: PromptInputs, customRole: string, directInputMode: bool)
    ensures SubjectSection(inputs) ==
      "## 대상 정보\n- **제품/브랜드**: " + (if inputs.productName == "" then NotEntered else inputs.productName)
      + "\n- **분류**: " + (if inputs.category == "" then NotEntered else inputs.category)
      + "\n- **타깃 대상**: " + (if inputs.targetAudience == "" then NotEntered else inputs.targetAudience)
      + "\n- **핵심 특징**: " + (if inputs.keyFeatures == "" then NotEntered else inputs.keyFeatures)
    ensures RequestSection(inputs) == "## 요청 과제\n" + (if inputs.task == "" then TaskPlaceholder else inputs.task)
    ensures PersonaSection(ResolvedRole(inputs, customRole, directInputMode), inputs.perspective) ==
      "너는 **" + (if ResolvedRole(inputs, customRole, directInputMode) == "" then RolePlaceholder
                   else ResolvedRole(inputs, customRole, directInputMode))
      + "** 전문가야. 특히 **" + inputs.perspective + "**의 시각으로 문제를 분석하고 최적의 대안을 제시해줘."
    ensures ResolvedRole(inputs, customRole, directInputMode) == "" ==>
      Contains(PersonaSection(ResolvedRole(inputs, customRole, directInputMode), inputs.perspective), RolePlaceholder)
  {
    var role := ResolvedRole(inputs, customRole, directInputMode);
    if role == "" {
      ContainsPlaced("너는 **", RolePlaceholder, "** 전문가야. 특히 **" + inputs.perspective
        + "**의 시각으로 문제를 분석하고 최적의 대안을 제시해줘.");
      assert PersonaSection(role, inputs.perspective) == "너는 **" + RolePlaceholder + ("** 전문가야. 특히 **" + inputs.perspective
        + "**의 시각으로 문제를 분석하고 최적의 대안을 제시해줘.");
    }
  }

  // ---------------------------------------------------------------------------
  // The step-by-step construction

  /** `promptParts.join(sep)`, one part at a time. */
  method JoinParts(parts: seq<string>, sep: string) returns (s: string)
    ensures s == Join(parts, sep)
  {
    s := "";
    var i := 0;
    while i < |parts|
      invariant 0 <= i <= |parts|
      invariant s == Join(parts[..i], sep)
    {
      if i == 0 {
        s := parts[0];
      } else {
        assert parts[..i + 1][..i] == parts[..i];
        s := s + sep + parts[i];
      }
      i := i + 1;
    }
    assert parts[..i] == parts;
  }

  /**
   * `buildPrompt` as the original program runs it: push each section whose
   * technique is selected onto a list, in source order, then join.
   */
  method Assemble(inputs: PromptInputs, selected: seq<TechniqueType>, customRole: string, directInputMode: bool)
    returns (prompt: string)
    ensures prompt == BuildPrompt(inputs, selected, customRole, directInputMode)
  {
    var finalRole := ResolvedRole(inputs, customRole, directInputMode);
    var promptParts: seq<string> := [];
    if Role in selected {
      promptParts := promptParts + [PersonaSection(finalRole, inputs.perspective)];
    }
    promptParts := promptParts + [SubjectSection(inputs)];
    if StepBack in selected {
      promptParts := promptParts + [StrategySection(inputs)];
    }
    promptParts := promptParts + [RequestSection(inputs)];
    assert promptParts == (if Role in selected then [PersonaSection(finalRole, inputs.perspective)] else [])
      + [SubjectSection(inputs)]
      + (if StepBack in selected then [StrategySection(inputs)] else [])
      + [RequestSection(inputs)];
    if Cot in selected {
      promptParts := promptParts + [ReasoningSection(inputs)];
    }
    if FewShot in selected {
      promptParts := promptParts + [ReferenceSection(inputs)];
    }
    if Emotion in selected {
      promptParts := promptParts + [ToneSection(inputs)];
    }
    assert promptParts == (if Role in selected then [PersonaSection(finalRole, inputs.perspective)] else [])
      + [SubjectSection(inputs)]
      + (if StepBack in selected then [StrategySection(inputs)] else [])
      + [RequestSection(inputs)]
      + (if Cot in selected then [ReasoningSection(inputs)] else [])
      + (if FewShot in selected then [ReferenceSection(inputs)] else [])
      + (if Emotion in selected then [ToneSection(inputs)] else []);
    PartsUnfolded(inputs, selected, customRole, directInputMode);
    prompt := JoinParts(promptParts, Separator);
  }

  /** The sections written out one by one, in the order the original program pushes them. */
  lemma PartsUnfolded(inputs: PromptInputs, selected: seq<TechniqueType>, customRole: string, directInputMode: bool)
    ensures Parts(inputs, selected, customRole, directInputMode) ==
      (if Role in selected then [PersonaSection(ResolvedRole(inputs, customRole, directInputMode), inputs.perspective)] else [])
      + [SubjectSection(inputs)]
      + (if StepBack in selected then [StrategySection(inputs)] else [])
      + [RequestSection(inputs)]
      + (if Cot in selected then [ReasoningSection(inputs)] else [])
      + (if FewShot in selected then [ReferenceSection(inputs)] else [])
      + (if Emotion in selected then [ToneSection(inputs)] else [])
  {
    EmittedUnfolded(selected);
    RenderGatedSlots(Role in selected, StepBack in selected, Cot in selected, FewShot in selected, Emotion in selected,
      inputs, ResolvedRole(inputs, customRole, directInputMode));
  }

  /** Rendering the seven slots, each optional one present or absent, slot by slot. */
  lemma RenderGatedSlots(persona: bool, strategy: bool, reasoning: bool, reference: bool, tone: bool,
                         inputs: PromptInputs, r: string)
    ensures RenderAll((if persona then [Persona] else []) + [Subject]
      + (if strategy then [Strategy] else []) + [Request]
      + (if reasoning then [Reasoning] else [])
      + (if reference then [Reference] else [])
      + (if tone then [Tone] else []), inputs, r) ==
      (if persona then [PersonaSection(r, inputs.perspective)] else [])
      + [SubjectSection(inputs)]
      + (if strategy then [StrategySection(inputs)] else [])
      + [RequestSection(inputs)]
      + (if reasoning then [ReasoningSection(inputs)] else [])
      + (if reference then [ReferenceSection(inputs)] else [])
      + (if tone then [ToneSection(inputs)] else [])
  {
    var k0: seq<Section> := if persona then [Persona] else [];
    var k2: seq<Section> := if strategy then [Strategy] else [];
    var k4: seq<Section> := if reasoning then [Reasoning] else [];
    var k5: seq<Section> := if reference then [Reference] else [];
    assert [Subject] == (if true then [Subject] else []) && [Request] == (if true then [Request] else []);
    var t0 := if persona then [PersonaSection(r, inputs.perspective)] else [];
    RenderAllGated(persona, Persona, inputs, r);
    var t1 := RenderAllPush(k0, t0, true, Subject, inputs, r);
    var t2 := RenderAllPush(k0 + [Subject], t1, strategy, Strategy, inputs, r);
    var t3 := RenderAllPush(k0 + [Subject] + k2, t2, true, Request, inputs, r);
    var t4 := RenderAllPush(k0 + [Subject] + k2 + [Request], t3, reasoning, Reasoning, inputs, r);
    var t5 := RenderAllPush(k0 + [Subject] + k2 + [Request] + k4, t4, reference, Reference, inputs, r);
    var t6 := RenderAllPush(k0 + [Subject] + k2 + [Request] + k4 + k5, t5, tone, Tone, inputs, r);
    assert Render(Subject, inputs, r) == SubjectSection(inputs);
    assert Render(Request, inputs, r) == RequestSection(inputs);
  }

  /** The emitted slots written out slot by slot, in the order the original program pushes them. */
  lemma EmittedUnfolded(selected: seq<TechniqueType>)
    ensures Emitted(selected) ==
      (if Role in selected then [Persona] else []) + [Subject]
      + (if StepBack in selected then [Strategy] else []) + [Request]
      + (if Cot in selected then [Reasoning] else [])
      + (if FewShot in selected then [Reference] else [])
      + (if Emotion in selected then [Tone] else [])
  {
    var o := SectionOrder;
    var sel := selected;
    assert o[..1][..0] == [] && o[..1][0] == Persona;
    assert EmittedFrom(o[..1], sel) == (if Role in sel then [Persona] else []);
    assert o[..2][..1] == o[..1] && o[..2][1] == Subject;
    assert EmittedFrom(o[..2], sel) == EmittedFrom(o[..1], sel) + [Subject];
    assert o[..3][..2] == o[..2] && o[..3][2] == Strategy;
    assert EmittedFrom(o[..3], sel) == EmittedFrom(o[..2], sel) + (if StepBack in sel then [Strategy] else []);
    assert o[..4][..3] == o[..3] && o[..4][3] == Request;
    assert EmittedFrom(o[..4], sel) == EmittedFrom(o[..3], sel) + [Request];
    assert o[..5][..4] == o[..4] && o[..5][4] == Reasoning;
    assert EmittedFrom(o[..5], sel) == EmittedFrom(o[..4], sel) + (if Cot in sel then [Reasoning] else []);
    assert o[..6][..5] == o[..5] && o[..6][5] == Reference;
    assert EmittedFrom(o[..6], sel) == EmittedFrom(o[..5], sel) + (if FewShot in sel then [Reference] else []);
    assert o[..6] == o[..|o| - 1] && o[6] == Tone;
  }
}
