/**
 * The logic of the tone screen (ToneHone/Views/ToneConfigView.swift): the
 * live preview line picked from four tone values, the short description of a
 * profile, choosing a preset, and applying the working tone to the store.
 */
module ToneConfig {
  import opened Wrappers
  import opened Models
  import opened Text
  import opened Suggestions
  import StoreSpec
  import Store

  // ----- live preview -----

  const EagerReply: string :=
    "Love that idea\U{2014}how about Saturday morning? I know a spot with a killer view, and coffee\U{2019}s on me. \U{1F604}"
  const ReservedReply: string := "That sounds nice. Which day works best for you?"
  const ModerateReply: string := "Weekend hike sounds great. I\U{2019}m thinking Saturday\U{2014}does that fit for you?"
  const DefaultReply: string := "I\U{2019}m in for a hike\U{2014}what time suits you?"

  /** First case of the switch: `(7..., 7..., 6..., 6...)`. */
  predicate Eager(play: int, flrt: int, fwd: int, expr: int) {
    play >= 7 && flrt >= 7 && fwd >= 6 && expr >= 6
  }

  /** Second case: `(1...3, 1...3, 1...5, 1...4)`. */
  predicate Reserved(play: int, flrt: int, fwd: int, expr: int) {
    1 <= play <= 3 && 1 <= flrt <= 3 && 1 <= fwd <= 5 && 1 <= expr <= 4
  }

  /** Third case: `(4...6, 4...6, 4...7, 4...7)`. */
  predicate Moderate(play: int, flrt: int, fwd: int, expr: int) {
    4 <= play <= 6 && 4 <= flrt <= 6 && 4 <= fwd <= 7 && 4 <= expr <= 7
  }

  /** `sampleOutput`: the preview reply for the working tone; every tone gets one of four lines. */
  function SampleOutput(tone: ToneProfile): (r: string)
    ensures r == EagerReply || r == ReservedReply || r == ModerateReply || r == DefaultReply
  {
    var play, flrt, fwd, expr := tone.playfulness, tone.flirtation, tone.forwardness, tone.expressiveness;
    if Eager(play, flrt, fwd, expr) then EagerReply
    else if Reserved(play, flrt, fwd, expr) then ReservedReply
    else if Moderate(play, flrt, fwd, expr) then ModerateReply
    else DefaultReply
  }

  /** The three ranged cases never overlap, so their order in the switch does not matter. */
  lemma CasesDisjoint(play: int, flrt: int, fwd: int, expr: int)
    ensures !(Eager(play, flrt, fwd, expr) && Reserved(play, flrt, fwd, expr))
    ensures !(Eager(play, flrt, fwd, expr) && Moderate(play, flrt, fwd, expr))
    ensures !(Reserved(play, flrt, fwd, expr) && Moderate(play, flrt, fwd, expr))
  {
  }

  /** Each preview line is shown exactly for its region of tones; the default for all others. */
  lemma SampleOutputCases(tone: ToneProfile)
    ensures var play, flrt, fwd, expr := tone.playfulness, tone.flirtation, tone.forwardness, tone.expressiveness;
      var r := SampleOutput(tone);
      && (r == EagerReply <==> Eager(play, flrt, fwd, expr))
      && (r == ReservedReply <==> Reserved(play, flrt, fwd, expr))
      && (r == ModerateReply <==> Moderate(play, flrt, fwd, expr))
      && (r == DefaultReply <==>
            !Eager(play, flrt, fwd, expr) && !Reserved(play, flrt, fwd, expr) && !Moderate(play, flrt, fwd, expr))
  {
    assert |EagerReply| != |ReservedReply| && |EagerReply| != |ModerateReply| && |EagerReply| != |DefaultReply|;
    assert |ReservedReply| != |ModerateReply| && |ReservedReply| != |DefaultReply| && |ModerateReply| != |DefaultReply|;
  }

  /** Formality plays no part in the preview. */
  lemma SampleOutputIgnoresFormality(tone: ToneProfile, formality: int)
    ensures SampleOutput(tone.(formality := formality)) == SampleOutput(tone)
  {
  }

  /** What each of the five presets previews. */
  lemma PresetPreviews()
    ensures SampleOutput(StoreSpec.Presets[0].profile) == EagerReply
    ensures SampleOutput(StoreSpec.Presets[1].profile) == DefaultReply
    ensures SampleOutput(StoreSpec.Presets[2].profile) == ModerateReply
    ensures SampleOutput(StoreSpec.Presets[3].profile) == DefaultReply
    ensures SampleOutput(StoreSpec.Presets[4].profile) == ReservedReply
  {
  }

  // ----- description -----

  /** `describe(_:)`: `P<p> F<f> Fw<fw> E<e> Fl<fl>`. */
  function Describe(tone: ToneProfile): string {
    "P" + IntToString(tone.playfulness) + " F" + IntToString(tone.formality)
    + " Fw" + IntToString(tone.forwardness) + " E" + IntToString(tone.expressiveness)
    + " Fl" + IntToString(tone.flirtation)
  }

  const DescribeLabels: seq<string> := ["P", " F", " Fw", " E", " Fl"]

  /** The description is the five labelled dimensions in the fixed order. */
  lemma DescribeFields(t: ToneProfile)
    ensures Describe(t) == Fields(DescribeLabels, ToneValues(t))
  {
    Fields5("P", " F", " Fw", " E", " Fl",
      t.playfulness, t.formality, t.forwardness, t.expressiveness, t.flirtation);
    Regroup("", "P", IntToString(t.playfulness), " F", IntToString(t.formality),
      " Fw", IntToString(t.forwardness), " E", IntToString(t.expressiveness),
      " Fl", IntToString(t.flirtation), "");
  }

  /** Different profiles are described differently. */
  lemma DescribeInjective(t1: ToneProfile, t2: ToneProfile)
    requires Describe(t1) == Describe(t2)
    ensures t1 == t2
  {
    DescribeFields(t1);
    DescribeFields(t2);
    var f1, f2 := Fields(DescribeLabels, ToneValues(t1)), Fields(DescribeLabels, ToneValues(t2));
    assert f1 + "" == f2 + "";
    FieldsInjective(DescribeLabels, ToneValues(t1), ToneValues(t2), "", "");
  }

  // ----- applying a tone -----

  /** `applyTone()`: `updateTone` then `regenerateSuggestions` for the edited conversation. */
  function AfterApplyTone(s: StoreSpec.Snapshot, tone: ToneProfile, id: Id): (r: StoreSpec.Snapshot)
    ensures StoreSpec.SameIds(s.conversations, r.conversations)
    ensures r.selectedConversationID == s.selectedConversationID
    ensures r.contextByConversation == s.contextByConversation
    ensures |r.suggestions| == 4 && r.nextId == s.nextId + 4
  {
    StoreSpec.RegenerateSuggestions(StoreSpec.UpdateTone(s, tone, id), Some(id))
  }

  /** After applying, the conversation carries the working tone and the suggestions are built from it. */
  lemma ApplyToneEffect(s: StoreSpec.Snapshot, tone: ToneProfile, id: Id)
    ensures var r := AfterApplyTone(s, tone, id);
      && StoreSpec.SameIds(s.conversations, r.conversations)
      && r.selectedConversationID == s.selectedConversationID
      && r.contextByConversation == s.contextByConversation
      && (StoreSpec.Resolves(s, Some(id)) ==>
            var i := StoreSpec.FirstIndex(s.conversations, id).value;
            && r.conversations[i] == s.conversations[i].(toneProfile := tone)
            && (forall j :: 0 <= j < |s.conversations| && j != i ==> r.conversations[j] == s.conversations[j])
            && r.suggestions == SampleSuggestions(StoreSpec.Context(s, id), Some(tone), s.nextId))
      && (!StoreSpec.Resolves(s, Some(id)) ==>
            r.conversations == s.conversations && r.suggestions == SampleSuggestions("", None, s.nextId))
  {
    StoreSpec.UpdateToneEffect(s, tone, id);
    var u := StoreSpec.UpdateTone(s, tone, id);
    StoreSpec.RegenerateEffect(u, Some(id));
    if StoreSpec.Resolves(s, Some(id)) {
      var i := StoreSpec.FirstIndex(s.conversations, id).value;
      StoreSpec.FirstIndexIsFirst(u.conversations, id, i);
    } else {
      assert u == s;
    }
  }

  /** The tone screen's own state, bound to one conversation of the store. */
  class ToneEditor {
    const store: Store.AppState
    const conversationID: Id
    var workingTone: ToneProfile

    /** `init(conversation:)`: the working tone starts as the conversation's tone. */
    constructor(store: Store.AppState, conversation: Conversation)
      ensures this.store == store && conversationID == conversation.id
      ensures workingTone == conversation.toneProfile
    {
      this.store := store;
      conversationID := conversation.id;
      workingTone := conversation.toneProfile;
    }

    /** Tapping a preset replaces the working tone wholesale; the store is untouched. */
    method ChoosePreset(preset: StoreSpec.TonePreset)
      modifies this
      ensures workingTone == preset.profile
    {
      workingTone := preset.profile;
    }

    /** `applyTone()`. */
    method ApplyTone()
      modifies store
      ensures store.State() == AfterApplyTone(old(store.State()), workingTone, conversationID)
      ensures old(store.Valid()) ==> store.Valid()
    {
      store.UpdateTone(workingTone, conversationID);
      store.RegenerateSuggestions(Some(conversationID));
    }
  }
}
