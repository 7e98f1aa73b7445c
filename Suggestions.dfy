/**
 * `AppState.sampleSuggestions(context:tone:)` (ToneHone/AppState.swift): the
 * canned suggestion engine. Four fixed templates; the pasted context and the
 * tone only ever show up in the rationale, as two optional suffixes, the
 * context one first. The `UUID()` each suggestion receives is taken from an
 * id supply starting at `firstId`.
 */
module Suggestions {
  import opened Wrappers
  import opened Models
  import opened Text

  /** A fixed template: everything of a suggestion but its id and rationale suffixes. */
  datatype Template = Template(text: string, matchScore: int, rationale: string, variant: SuggestionVariant)

  const Templates: seq<Template> := [
    Template("That's awesome! I usually do Runyon Canyon\U{2014}are you more of a sunrise or afternoon hiker?",
      95, "Builds on hiking, matches playful tone, invites engagement.", Question),
    Template("Love that. We should hit a trail together this week\U{2014}I've got a spot with a great view.",
      84, "More forward, suggests a plan.", Bold),
    Template("Hiking sounds perfect. What kind of terrain do you enjoy most?",
      90, "Keeps conversation moving, invites them to share preference.", Safe),
    Template("Teach me your favorite trail\U{2014}I\U{2019}ll bring the coffee.",
      92, "Playful promise, light escalation.", Playful)
  ]

  /** ` Based on: "<context>"`, or nothing for an empty context (whitespace is not empty). */
  function ContextLine(context: string): (r: string)
    ensures r == [] <==> context == []
  {
    if context == [] then "" else " Based on: \"" + context + "\""
  }

  /** ` Tone: P<p>/F<f>/Fw<fw>/E<e>/Fl<fl>.`, or nothing when there is no tone. */
  function ToneHint(tone: Option<ToneProfile>): (r: string)
    ensures r == [] <==> tone.None?
  {
    match tone
    case None => ""
    case Some(t) =>
      " Tone: P" + IntToString(t.playfulness) + "/F" + IntToString(t.formality)
      + "/Fw" + IntToString(t.forwardness) + "/E" + IntToString(t.expressiveness)
      + "/Fl" + IntToString(t.flirtation) + "."
  }

  const ToneLabels: seq<string> := ["P", "/F", "/Fw", "/E", "/Fl"]

  function ToneValues(t: ToneProfile): seq<int> {
    [t.playfulness, t.formality, t.forwardness, t.expressiveness, t.flirtation]
  }

  /** The tone hint is the five labelled dimensions between " Tone: " and ".". */
  lemma ToneHintFields(t: ToneProfile)
    ensures ToneHint(Some(t)) == " Tone: " + Fields(ToneLabels, ToneValues(t)) + "."
  {
    Fields5("P", "/F", "/Fw", "/E", "/Fl",
      t.playfulness, t.formality, t.forwardness, t.expressiveness, t.flirtation);
    assert " Tone: P" == " Tone: " + "P";
    Regroup(" Tone: ", "P", IntToString(t.playfulness), "/F", IntToString(t.formality),
      "/Fw", IntToString(t.forwardness), "/E", IntToString(t.expressiveness),
      "/Fl", IntToString(t.flirtation), ".");
  }

  /** Re-association of the eleven pieces of a rendered profile. */
  lemma Regroup(x0: string, x1: string, x2: string, x3: string, x4: string, x5: string,
                x6: string, x7: string, x8: string, x9: string, x10: string, x11: string)
    ensures x0 + x1 + x2 + x3 + x4 + x5 + x6 + x7 + x8 + x9 + x10 + x11
         == x0 + (x1 + x2 + (x3 + x4 + (x5 + x6 + (x7 + x8 + (x9 + x10))))) + x11
  {
  }

  /** The tone hint reports the tone faithfully: different tones give different hints. */
  lemma ToneHintInjective(t1: Option<ToneProfile>, t2: Option<ToneProfile>)
    requires ToneHint(t1) == ToneHint(t2)
    ensures t1 == t2
  {
    if t1.Some? && t2.Some? {
      ToneHintFieldsInjective(t1.value, t2.value);
    }
  }

  lemma ToneHintFieldsInjective(t1: ToneProfile, t2: ToneProfile)
    requires ToneHint(Some(t1)) == ToneHint(Some(t2))
    ensures t1 == t2
  {
    ToneHintFields(t1);
    ToneHintFields(t2);
    var f1, f2 := Fields(ToneLabels, ToneValues(t1)), Fields(ToneLabels, ToneValues(t2));
    var prefix, stop := " Tone: ", ".";
    Associate(prefix, f1, stop);
    Associate(prefix, f2, stop);
    CancelPrefix(prefix, f1 + stop, f2 + stop);
    FieldsInjective(ToneLabels, ToneValues(t1), ToneValues(t2), stop, stop);
  }

  /** The seed conversation's tone (7, 3, 6, 7, 7) is reported literally. */
  lemma SeedToneHint()
    ensures ToneHint(Some(ToneProfile(7, 3, 6, 7, 7))) == " Tone: P7/F3/Fw6/E7/Fl7."
  {
    assert IntToString(7) == "7" && IntToString(3) == "3" && IntToString(6) == "6";
  }

  /** A pasted note is quoted verbatim after " Based on: ". */
  lemma ContextLineQuotes(context: string)
    requires context != []
    ensures ContextLine(context) == " Based on: \"" + context + "\""
    ensures ContextLine("I love dogs") == " Based on: \"I love dogs\""
  {
  }

  /** `sampleSuggestions(context:tone:)`, with ids drawn from `firstId` onwards. */
  function SampleSuggestions(context: string, tone: Option<ToneProfile>, firstId: Id): (r: seq<Suggestion>)
    ensures |r| == 4
    ensures forall i, j :: 0 <= i < j < |r| ==> r[i].id != r[j].id
    ensures forall i :: 0 <= i < |r| ==> firstId <= r[i].id < firstId + 4
  {
    var contextLine := ContextLine(context);
    var toneHint := ToneHint(tone);
    seq(4, i requires 0 <= i < 4 =>
      var t := Templates[i];
      Suggestion(firstId + i, t.text, t.matchScore, t.rationale + contextLine + toneHint, t.variant))
  }

  /** Texts, scores and variants are fixed and in the template order, whatever the context and tone. */
  lemma SampleSuggestionsFixed(context: string, tone: Option<ToneProfile>, firstId: Id)
    ensures var r := SampleSuggestions(context, tone, firstId);
      && [r[0].matchScore, r[1].matchScore, r[2].matchScore, r[3].matchScore] == [95, 84, 90, 92]
      && [r[0].variant, r[1].variant, r[2].variant, r[3].variant] == [Question, Bold, Safe, Playful]
      && forall i :: 0 <= i < 4 ==> r[i].text == Templates[i].text
  {
  }

  /** Two calls differ only in ids and rationales. */
  lemma TemplateDeterminism(c1: string, t1: Option<ToneProfile>, id1: Id, c2: string, t2: Option<ToneProfile>, id2: Id)
    ensures var r1, r2 := SampleSuggestions(c1, t1, id1), SampleSuggestions(c2, t2, id2);
      forall i :: 0 <= i < 4 ==>
        r1[i].text == r2[i].text && r1[i].matchScore == r2[i].matchScore && r1[i].variant == r2[i].variant
  {
  }

  /** Each rationale is the template's, then the context suffix, then the tone suffix. */
  lemma RationaleLayout(context: string, tone: Option<ToneProfile>, firstId: Id, i: nat)
    requires i < 4
    ensures SampleSuggestions(context, tone, firstId)[i].rationale
         == Templates[i].rationale + ContextLine(context) + ToneHint(tone)
    ensures context == [] && tone.None? ==>
              SampleSuggestions(context, tone, firstId)[i].rationale == Templates[i].rationale
  {
  }

  /** With the tone fixed, a rationale determines the context it was built from. */
  lemma ContextRecoverable(c1: string, c2: string, tone: Option<ToneProfile>, id1: Id, id2: Id, i: nat)
    requires i < 4
    requires SampleSuggestions(c1, tone, id1)[i].rationale == SampleSuggestions(c2, tone, id2)[i].rationale
    ensures c1 == c2
  {
    var base, hint := Templates[i].rationale, ToneHint(tone);
    var l1, l2 := ContextLine(c1), ContextLine(c2);
    RationaleLayout(c1, tone, id1, i);
    RationaleLayout(c2, tone, id2, i);
    CancelSuffix(base + l1, base + l2, hint);
    CancelPrefix(base, l1, l2);
    if c1 != [] && c2 != [] {
      var p := " Based on: \"";
      assert l1 == p + (c1 + "\"") && l2 == p + (c2 + "\"");
      CancelPrefix(p, c1 + "\"", c2 + "\"");
      CancelSuffix(c1, c2, "\"");
    }
  }

  /** With the context fixed, a rationale determines the tone it was built from. */
  lemma ToneRecoverable(context: string, t1: Option<ToneProfile>, t2: Option<ToneProfile>, id1: Id, id2: Id, i: nat)
    requires i < 4
    requires SampleSuggestions(context, t1, id1)[i].rationale == SampleSuggestions(context, t2, id2)[i].rationale
    ensures t1 == t2
  {
    var prefix := Templates[i].rationale + ContextLine(context);
    CancelPrefix(prefix, ToneHint(t1), ToneHint(t2));
    ToneHintInjective(t1, t2);
  }
}
