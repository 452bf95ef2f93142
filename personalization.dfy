/**
 * The personalisation settings (`PersonalizationContext`): the user's
 * identity, the on/off flags of the five built-in writing practices and the
 * list of the user's own practices, and the list of instructions both
 * generators send along, built from them.
 */
module Personalization {
  import opened Types
  import opened Seqs

  /** The ids of the built-in practices, in definition order. */
  const BASE_IDS: seq<string> := ["bp-hook", "bp-story", "bp-pain", "bp-paragraphs", "bp-question"]

  /** The translation keys of the built-in practices, in the same order. */
  const BASE_KEYS: seq<string> := ["hook", "storytelling", "pain_points", "short_paragraphs", "end_with_question"]

  /** `BestPractice.type`. */
  datatype PracticeKind = BasePractice | CustomPractice

  /** `BestPractice`: `active` is set on the built-in practices only; titles and descriptions are display text. */
  datatype BestPractice = BestPractice(id: string, text: string, kind: PracticeKind, active: Option<bool>)

  /** A practice's flag: a missing flag reads as off. */
  function Flag(state: map<string, bool>, id: string): bool
  {
    id in state && state[id]
  }

  /** The flags the provider starts with: every practice on except `bp-pain`. */
  const INITIAL_STATE: map<string, bool> :=
    map["bp-hook" := true, "bp-story" := true, "bp-pain" := false, "bp-paragraphs" := true, "bp-question" := true]

  /** The translation key of a practice's instruction. */
  function InstructionKey(key: string): string
  {
    "settings.personalization.bestPractices.practices." + key + ".instruction"
  }

  /**
   * `basePractices`: the five definitions, in order, each with its translated
   * instruction and active exactly when its flag is on.
   */
  function BasePractices(state: map<string, bool>, tr: string -> string): (r: seq<BestPractice>)
    ensures |r| == 5
    ensures forall i :: 0 <= i < 5 ==>
      r[i] == BestPractice(BASE_IDS[i], tr(InstructionKey(BASE_KEYS[i])), BasePractice, Some(Flag(state, BASE_IDS[i])))
  {
    seq(5, i requires 0 <= i < 5 =>
      BestPractice(BASE_IDS[i], tr(InstructionKey(BASE_KEYS[i])), BasePractice, Some(Flag(state, BASE_IDS[i]))))
  }

  /** The flags with that practice's flag flipped (a missing one becomes on). */
  function Toggled(state: map<string, bool>, id: string): (r: map<string, bool>)
    ensures Flag(r, id) == !Flag(state, id)
    ensures forall k :: k != id ==> Flag(r, k) == Flag(state, k)
  {
    state[id := !Flag(state, id)]
  }

  /** Toggling the same practice twice gives back the same practices. */
  lemma ToggleTwice(state: map<string, bool>, id: string, tr: string -> string)
    ensures BasePractices(Toggled(Toggled(state, id), id), tr) == BasePractices(state, tr)
  {
    var twice := Toggled(Toggled(state, id), id);
    assert forall k :: Flag(twice, k) == Flag(state, k);
  }

  /** Initially every built-in practice is active except `bp-pain`, the third. */
  lemma InitialPractices(tr: string -> string)
    ensures forall i :: 0 <= i < 5 ==> BasePractices(INITIAL_STATE, tr)[i].active == Some(i != 2)
  {
  }

  /** Helper: the test for an active practice. */
  predicate IsActive(p: BestPractice)
  {
    p.active == Some(true)
  }

  function TextOf(p: BestPractice): string
  {
    p.text
  }

  /**
   * The practices a generation request carries: the active built-in
   * instructions in order, then every custom one in order.
   */
  function AllBestPractices(base: seq<BestPractice>, custom: seq<BestPractice>): (r: seq<string>)
    ensures |r| == |Filter(base, IsActive)| + |custom|
    ensures forall i :: 0 <= i < |custom| ==> r[|Filter(base, IsActive)| + i] == custom[i].text
    ensures forall i :: 0 <= i < |Filter(base, IsActive)| ==> r[i] == Filter(base, IsActive)[i].text
  {
    Map(Filter(base, IsActive), TextOf) + Map(custom, TextOf)
  }

  /** Every instruction sent comes from an active built-in practice or from a custom one. */
  lemma {:induction false} SentPracticesAreChosen(base: seq<BestPractice>, custom: seq<BestPractice>, i: int)
    requires 0 <= i < |AllBestPractices(base, custom)|
    ensures (exists j :: 0 <= j < |base| && IsActive(base[j]) && base[j].text == AllBestPractices(base, custom)[i])
         || (exists j :: 0 <= j < |custom| && custom[j].text == AllBestPractices(base, custom)[i])
  {
    var active := Filter(base, IsActive);
    if i < |active| {
      FilterMembers(base, IsActive);
      assert active[i] in base;
      var j :| 0 <= j < |base| && base[j] == active[i];
      assert IsActive(base[j]);
    } else {
      assert custom[i - |active|].text == AllBestPractices(base, custom)[i];
    }
  }

  /** With the initial flags and no custom practice, the instructions are the built-in ones but pain points, in order. */
  lemma InitialBestPractices(tr: string -> string)
    ensures AllBestPractices(BasePractices(INITIAL_STATE, tr), [])
         == [tr(InstructionKey("hook")), tr(InstructionKey("storytelling")),
             tr(InstructionKey("short_paragraphs")), tr(InstructionKey("end_with_question"))]
  {
    var b := BasePractices(INITIAL_STATE, tr);
    assert IsActive(b[0]) && IsActive(b[1]) && !IsActive(b[2]) && IsActive(b[3]) && IsActive(b[4]);
    assert b[4..][1..] == [];
    assert Filter(b[4..], IsActive) == [b[4]];
    assert b[3..][1..] == b[4..];
    assert Filter(b[3..], IsActive) == [b[3], b[4]];
    assert b[2..][1..] == b[3..];
    assert Filter(b[2..], IsActive) == [b[3], b[4]];
    assert b[1..][1..] == b[2..];
    assert Filter(b[1..], IsActive) == [b[1], b[3], b[4]];
    assert Filter(b, IsActive) == [b[0], b[1], b[3], b[4]];
  }

  /** The test `removeCustomPractice` keeps a practice by. */
  function KeepPractice(id: string): BestPractice -> bool
  {
    (p: BestPractice) => p.id != id
  }

  /** `PersonalizationProvider`'s state. */
  class PersonalizationStore {
    var identity: UserIdentity
    var basePracticesState: map<string, bool>
    var customPractices: seq<BestPractice>

    /** The sample identity, the initial flags and no custom practice. */
    constructor()
      ensures identity.name == "Aram" && identity.occupation == "AI Content Specialist @ Kolink"
      ensures basePracticesState == INITIAL_STATE && customPractices == []
    {
      identity := UserIdentity("Aram", "AI Content Specialist @ Kolink",
        "Especialista en contenido IA con más de 5 años de experiencia.",
        "Usa un tono optimista y motivador.");
      basePracticesState := INITIAL_STATE;
      customPractices := [];
    }

    /** `basePractices` of the current flags. */
    function Practices(tr: string -> string): seq<BestPractice>
      reads this
    {
      BasePractices(basePracticesState, tr)
    }

    method SetIdentity(id: UserIdentity)
      modifies this
      ensures identity == id
      ensures basePracticesState == old(basePracticesState) && customPractices == old(customPractices)
    {
      identity := id;
    }

    /** `toggleBasePractice`: flips that id's flag and no other. */
    method ToggleBasePractice(id: string)
      modifies this
      ensures basePracticesState == Toggled(old(basePracticesState), id)
      ensures identity == old(identity) && customPractices == old(customPractices)
    {
      basePracticesState := basePracticesState[id := !Flag(basePracticesState, id)];
    }

    /** `addCustomPractice`: appends a custom practice at the end. */
    method AddCustomPractice(text: string, freshId: string)
      modifies this
      ensures customPractices == old(customPractices) + [BestPractice(freshId, text, CustomPractice, None)]
      ensures identity == old(identity) && basePracticesState == old(basePracticesState)
    {
      customPractices := customPractices + [BestPractice(freshId, text, CustomPractice, None)];
    }

    /** `removeCustomPractice`: keeps the practices with other ids, in order. */
    method RemoveCustomPractice(id: string)
      modifies this
      ensures customPractices == Filter(old(customPractices), KeepPractice(id))
      ensures identity == old(identity) && basePracticesState == old(basePracticesState)
    {
      customPractices := Filter(customPractices, KeepPractice(id));
    }
  }

  /** Removing drops every practice with the id and keeps the others in order. */
  lemma {:induction false} RemovePracticeEffect(custom: seq<BestPractice>, id: string)
    ensures forall i :: 0 <= i < |Filter(custom, KeepPractice(id))| ==> Filter(custom, KeepPractice(id))[i].id != id
    ensures forall i :: 0 <= i < |custom| && custom[i].id != id ==> custom[i] in Filter(custom, KeepPractice(id))
    ensures IsSubsequence(Filter(custom, KeepPractice(id)), custom)
  {
    FilterMembers(custom, KeepPractice(id));
    FilterIsSubsequence(custom, KeepPractice(id));
  }
}
