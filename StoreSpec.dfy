/**
 * The state of `AppState` (ToneHone/AppState.swift) as a value, and each of
 * its operations as a function from the state before to the state after.
 * The class in module Store runs the operations imperatively and promises
 * exactly these functions; the lemmas here say what the functions mean.
 *
 * `UUID()` is an id supply: `nextId` is the next unused id and every fresh
 * id is taken from it. `Date()` is the `now` parameter.
 */
module StoreSpec {
  import opened Wrappers
  import opened Models
  import opened Text
  import opened Suggestions

  /** `AppState.TonePreset` without its `UUID`, which only serves as a list identity. */
  datatype TonePreset = TonePreset(name: string, profile: ToneProfile)

  /** `AppState.presets`: five fixed, named profiles. */
  const Presets: seq<TonePreset> := [
    TonePreset("Playful & Flirty", ToneProfile(8, 3, 7, 8, 8)),
    TonePreset("Thoughtful & Deep", ToneProfile(3, 6, 4, 5, 2)),
    TonePreset("Casual & Friendly", ToneProfile(5, 2, 5, 6, 4)),
    TonePreset("Direct & Bold", ToneProfile(4, 5, 9, 7, 5)),
    TonePreset("Professional & Warm", ToneProfile(3, 7, 5, 4, 1))
  ]

  /** The four published fields of `AppState`, plus the id supply. */
  datatype Snapshot = Snapshot(
    conversations: seq<Conversation>,
    suggestions: seq<Suggestion>,
    selectedConversationID: Option<Id>,
    contextByConversation: map<Id, string>,
    nextId: nat)

  /** `conversations.firstIndex(where: { $0.id == id })`. */
  function FirstIndex(cs: seq<Conversation>, id: Id): (r: Option<nat>)
    ensures r.Some? ==> r.value < |cs| && cs[r.value].id == id
    ensures r.Some? ==> forall j :: 0 <= j < r.value ==> cs[j].id != id
    ensures r.None? ==> forall j :: 0 <= j < |cs| ==> cs[j].id != id
  {
    if cs == [] then None
    else if cs[0].id == id then Some(0)
    else
      match FirstIndex(cs[1..], id)
      case None => None
      case Some(i) => Some(i + 1)
  }

  /** FirstIndex finds exactly the first position holding the id. */
  lemma {:induction false} FirstIndexIsFirst(cs: seq<Conversation>, id: Id, i: nat)
    requires i < |cs| && cs[i].id == id
    requires forall j :: 0 <= j < i ==> cs[j].id != id
    ensures FirstIndex(cs, id) == Some(i)
  {
    if i > 0 {
      FirstIndexIsFirst(cs[1..], id, i - 1);
    }
  }

  /** The conversation an optional id resolves to, if any. */
  predicate Resolves(s: Snapshot, target: Option<Id>) {
    target.Some? && FirstIndex(s.conversations, target.value).Some?
  }

  /** `context(for:)`: the stored note, `""` when none was ever set. */
  function Context(s: Snapshot, id: Id): (r: string)
    ensures r != "" ==> id in s.contextByConversation && s.contextByConversation[id] == r
  {
    if id in s.contextByConversation then s.contextByConversation[id] else ""
  }

  /** Two conversation lists with the same ids in the same places. */
  predicate SameIds(a: seq<Conversation>, b: seq<Conversation>) {
    |a| == |b| && forall i :: 0 <= i < |a| ==> a[i].id == b[i].id
  }

  predicate UniqueIds(cs: seq<Conversation>) {
    forall i, j :: 0 <= i < j < |cs| ==> cs[i].id != cs[j].id
  }

  predicate UniqueSuggestionIds(ss: seq<Suggestion>) {
    forall i, j :: 0 <= i < j < |ss| ==> ss[i].id != ss[j].id
  }

  /** Every id in use was handed out by the supply, so the next one is fresh. */
  predicate IdsIssued(s: Snapshot) {
    && (forall i :: 0 <= i < |s.conversations| ==> s.conversations[i].id < s.nextId)
    && (forall i, k :: 0 <= i < |s.conversations| && 0 <= k < |s.conversations[i].messages| ==>
          s.conversations[i].messages[k].id < s.nextId)
    && (forall i :: 0 <= i < |s.suggestions| ==> s.suggestions[i].id < s.nextId)
  }

  /** Conversation ids are unique, suggestion ids are unique, and the id supply is ahead of all ids. */
  predicate WellFormed(s: Snapshot) {
    UniqueIds(s.conversations) && UniqueSuggestionIds(s.suggestions) && IdsIssued(s)
  }

  // ----- init -----

  const SeedTone := ToneProfile(7, 3, 6, 7, 7)

  /** `init()`: the seed conversation with Sarah on Hinge, taking ids 0 to 7. */
  function Initial(now: Time): (r: Snapshot)
    ensures WellFormed(r) && Resolves(r, r.selectedConversationID)
  {
    var person := Person(0, "Sarah", "Hinge", "heart.circle.fill");
    var messages := [
      Message(1, Other, "I love hiking! What's your favorite trail?", now - 3600),
      Message(2, User, "Runyon Canyon is my usual go-to. Where do you hike?", now - 1800)
    ];
    var conversation := Conversation(3, person, messages, SeedTone, true, now - 600, "Hinge", 1, 4);
    var ctxMap := map[conversation.id := ""];
    var ctx := if conversation.id in ctxMap then ctxMap[conversation.id] else "";
    Snapshot([conversation], SampleSuggestions(ctx, Some(SeedTone), 4), Some(conversation.id), ctxMap, 8)
  }

  lemma InitialFacts(now: Time)
    ensures var s := Initial(now);
      && |s.conversations| == 1
      && var c := s.conversations[0];
      && c.needsResponse && c.toneProfile == ToneProfile(7, 3, 6, 7, 7)
      && |c.messages| == 2 && c.messages[0].sender == Other && c.messages[1].sender == User
      && c.lastActivity == now - 600 && c.unreadCount == 1 && c.healthScore == 4
      && s.selectedConversationID == Some(c.id)
      && s.contextByConversation == map[c.id := ""]
      && s.suggestions == SampleSuggestions("", Some(c.toneProfile), 4)
      && WellFormed(s)
  {
  }

  /** Every initial rationale carries the seed tone hint and no context suffix. */
  lemma InitialRationales(now: Time, i: nat)
    requires i < 4
    ensures Initial(now).suggestions[i].rationale == Templates[i].rationale + " Tone: P7/F3/Fw6/E7/Fl7."
  {
    RationaleLayout("", Some(SeedTone), 4, i);
    SeedToneHint();
  }

  lemma PresetsFacts()
    ensures |Presets| == 5
    ensures forall i, j :: 0 <= i < j < |Presets| ==> Presets[i].name != Presets[j].name
    ensures forall i :: 0 <= i < |Presets| ==>
      var t := Presets[i].profile;
      1 <= t.playfulness <= 10 && 1 <= t.formality <= 10 && 1 <= t.forwardness <= 10
      && 1 <= t.expressiveness <= 10 && 1 <= t.flirtation <= 10
  {
  }

  // ----- selection and bindings -----

  /** `selectConversation(_:)`: no check that the id exists. */
  function SelectConversation(s: Snapshot, c: Conversation): (r: Snapshot)
    ensures r.selectedConversationID == Some(c.id)
    ensures r.conversations == s.conversations && r.suggestions == s.suggestions
    ensures r.contextByConversation == s.contextByConversation && r.nextId == s.nextId
    ensures WellFormed(s) ==> WellFormed(r)
  {
    s.(selectedConversationID := Some(c.id))
  }

  /** The getter of `selectedConversation`. */
  function SelectedConversation(s: Snapshot): (r: Option<Conversation>)
    ensures r.Some? <==> Resolves(s, s.selectedConversationID)
    ensures r.Some? ==> r.value in s.conversations && s.selectedConversationID == Some(r.value.id)
  {
    if s.selectedConversationID.None? then None
    else
      match FirstIndex(s.conversations, s.selectedConversationID.value)
      case None => None
      case Some(i) => Some(s.conversations[i])
  }

  /** The setter of `selectedConversation`: overwrite the first conversation with the new value's id. */
  function SetSelectedConversation(s: Snapshot, newValue: Option<Conversation>): (r: Snapshot)
    ensures SameIds(s.conversations, r.conversations)
    ensures r.suggestions == s.suggestions && r.selectedConversationID == s.selectedConversationID
    ensures r.contextByConversation == s.contextByConversation && r.nextId == s.nextId
  {
    if newValue.None? then s
    else
      match FirstIndex(s.conversations, newValue.value.id)
      case None => s
      case Some(i) => s.(conversations := s.conversations[i := newValue.value])
  }

  /**
   * The setter keeps conversation and suggestion ids unique for any value
   * written; the id supply stays ahead only when the written messages carry
   * ids it already handed out.
   */
  lemma SetSelectedConversationPreservesWellFormed(s: Snapshot, newValue: Option<Conversation>)
    ensures var r := SetSelectedConversation(s, newValue);
      && (UniqueIds(s.conversations) ==> UniqueIds(r.conversations))
      && (UniqueSuggestionIds(s.suggestions) ==> UniqueSuggestionIds(r.suggestions))
    ensures WellFormed(s) && IssuedMessages(s, newValue) ==> WellFormed(SetSelectedConversation(s, newValue))
  {
    var r := SetSelectedConversation(s, newValue);
    if WellFormed(s) && IssuedMessages(s, newValue) && newValue.Some? && r != s {
      var i := FirstIndex(s.conversations, newValue.value.id).value;
      forall j, k | 0 <= j < |r.conversations| && 0 <= k < |r.conversations[j].messages|
        ensures r.conversations[j].messages[k].id < r.nextId
      {
        if j != i {
          assert r.conversations[j] == s.conversations[j];
        }
      }
    }
  }

  /** Every message of the value written through the setter has an id the supply already handed out. */
  predicate IssuedMessages(s: Snapshot, newValue: Option<Conversation>) {
    newValue.Some? ==>
      forall k :: 0 <= k < |newValue.value.messages| ==> newValue.value.messages[k].id < s.nextId
  }

  /** Writing the selected conversation and reading it back gives the written value. */
  lemma SelectedConversationRoundTrip(s: Snapshot, c: Conversation)
    requires s.selectedConversationID == Some(c.id) && Resolves(s, Some(c.id))
    ensures SelectedConversation(SetSelectedConversation(s, Some(c))) == Some(c)
    ensures SameIds(s.conversations, SetSelectedConversation(s, Some(c)).conversations)
  {
    var i := FirstIndex(s.conversations, c.id).value;
    var cs := s.conversations[i := c];
    FirstIndexIsFirst(cs, c.id, i);
  }

  // ----- sending -----

  /** A conversation after a message was appended at `now`. */
  function Appended(c: Conversation, m: Message, now: Time): Conversation {
    c.(messages := c.messages + [m], lastActivity := now, needsResponse := false)
  }

  /**
   * The effect shared by `sendMessage` and `useSuggestion`: append the trimmed
   * text as a user message to the first conversation with the target id, or
   * do nothing when the text trims to nothing or the target does not resolve.
   */
  function Deliver(s: Snapshot, target: Option<Id>, text: string, now: Time): (r: Snapshot)
    ensures SameIds(s.conversations, r.conversations)
    ensures r.suggestions == s.suggestions && r.selectedConversationID == s.selectedConversationID
    ensures r.contextByConversation == s.contextByConversation
    ensures r.nextId == s.nextId || r.nextId == s.nextId + 1
  {
    var trimmed := Trim(text);
    if trimmed == [] || target.None? then s
    else
      match FirstIndex(s.conversations, target.value)
      case None => s
      case Some(i) =>
        var message := Message(s.nextId, User, trimmed, now);
        s.(conversations := s.conversations[i := Appended(s.conversations[i], message, now)],
           nextId := s.nextId + 1)
  }

  /** `sendMessage(_:)`: always targets the selection. */
  function SendMessage(s: Snapshot, text: string, now: Time): (r: Snapshot)
    ensures SameIds(s.conversations, r.conversations)
    ensures r.suggestions == s.suggestions && r.selectedConversationID == s.selectedConversationID
    ensures r.contextByConversation == s.contextByConversation
  {
    Deliver(s, s.selectedConversationID, text, now)
  }

  /** `useSuggestion(_:for:)`: targets the given id, else the selection. */
  function UseSuggestion(s: Snapshot, text: string, conversationID: Option<Id>, now: Time): (r: Snapshot)
    ensures SameIds(s.conversations, r.conversations)
    ensures r.suggestions == s.suggestions && r.selectedConversationID == s.selectedConversationID
    ensures r.contextByConversation == s.contextByConversation
  {
    Deliver(s, conversationID.OrElse(s.selectedConversationID), text, now)
  }

  /** Delivering changes nothing exactly when the text trims to nothing or the target does not resolve. */
  lemma DeliverNoOp(s: Snapshot, target: Option<Id>, text: string, now: Time)
    ensures Deliver(s, target, text, now) == s <==> Trim(text) == [] || !Resolves(s, target)
  {
    if Trim(text) != [] && Resolves(s, target) {
      var i := FirstIndex(s.conversations, target.value).value;
      var r := Deliver(s, target, text, now);
      assert |r.conversations[i].messages| == |s.conversations[i].messages| + 1;
    }
  }

  /** What a successful delivery does, and everything it leaves alone. */
  lemma DeliverEffect(s: Snapshot, target: Option<Id>, text: string, now: Time)
    requires Trim(text) != [] && Resolves(s, target)
    ensures var i := FirstIndex(s.conversations, target.value).value;
      var r := Deliver(s, target, text, now);
      var before, after := s.conversations[i], r.conversations[i];
      && before.id == target.value
      && (forall j :: 0 <= j < i ==> s.conversations[j].id != target.value)
      && SameIds(s.conversations, r.conversations)
      && after.messages == before.messages + [Message(s.nextId, User, Trim(text), now)]
      && after.lastActivity == now && !after.needsResponse
      && after.person == before.person && after.toneProfile == before.toneProfile
      && after.platformBadge == before.platformBadge
      && after.unreadCount == before.unreadCount && after.healthScore == before.healthScore
      && (forall j :: 0 <= j < |s.conversations| && j != i ==> r.conversations[j] == s.conversations[j])
      && r.suggestions == s.suggestions
      && r.selectedConversationID == s.selectedConversationID
      && r.contextByConversation == s.contextByConversation
      && r.nextId == s.nextId + 1
  {
  }

  /** The appended message's id is new to the whole store. */
  lemma DeliverFreshMessageId(s: Snapshot, target: Option<Id>, text: string, now: Time)
    requires WellFormed(s) && Trim(text) != [] && Resolves(s, target)
    ensures forall i, k :: 0 <= i < |s.conversations| && 0 <= k < |s.conversations[i].messages| ==>
      s.conversations[i].messages[k].id != s.nextId
  {
  }

  lemma DeliverPreservesWellFormed(s: Snapshot, target: Option<Id>, text: string, now: Time)
    requires WellFormed(s)
    ensures WellFormed(Deliver(s, target, text, now))
  {
    var r := Deliver(s, target, text, now);
    if r != s {
      DeliverNoOp(s, target, text, now);
      DeliverEffect(s, target, text, now);
      var i := FirstIndex(s.conversations, target.value).value;
      forall j, k | 0 <= j < |r.conversations| && 0 <= k < |r.conversations[j].messages|
        ensures r.conversations[j].messages[k].id < r.nextId
      {
        if j == i && k == |s.conversations[i].messages| {
        } else {
          assert r.conversations[j].messages[k] == s.conversations[j].messages[k];
        }
      }
    }
  }

  /** With no explicit id, `useSuggestion` is `sendMessage`. */
  lemma UseSuggestionDefaultsToSelection(s: Snapshot, text: string, now: Time)
    ensures UseSuggestion(s, text, None, now) == SendMessage(s, text, now)
  {
  }

  /** Whitespace-only text sends nothing. */
  lemma BlankTextSendsNothing(s: Snapshot, text: string, conversationID: Option<Id>, now: Time)
    requires AllWhitespace(text)
    ensures SendMessage(s, text, now) == s && UseSuggestion(s, text, conversationID, now) == s
  {
  }

  // ----- context notes -----

  /** `setContext(_:for:)`: the text is stored as given, untrimmed. */
  function SetContext(s: Snapshot, text: string, id: Id): (r: Snapshot)
    ensures Context(r, id) == text
    ensures r.conversations == s.conversations && r.suggestions == s.suggestions
    ensures r.selectedConversationID == s.selectedConversationID && r.nextId == s.nextId
  {
    s.(contextByConversation := s.contextByConversation[id := text])
  }

  /** Reading back the note just set gives it verbatim; other notes and the rest of the state stay. */
  lemma ContextRoundTrip(s: Snapshot, text: string, id: Id, other: Id)
    ensures Context(SetContext(s, text, id), id) == text
    ensures other != id ==> Context(SetContext(s, text, id), other) == Context(s, other)
    ensures var r := SetContext(s, text, id);
      r.conversations == s.conversations && r.suggestions == s.suggestions
      && r.selectedConversationID == s.selectedConversationID && r.nextId == s.nextId
  {
  }

  /** An id never set reads as the empty note. */
  lemma ContextDefault(s: Snapshot, id: Id)
    requires id !in s.contextByConversation
    ensures Context(s, id) == ""
  {
  }

  // ----- tone -----

  /** `updateTone(_:for:)`: replace the tone of the first conversation with that id. */
  function UpdateTone(s: Snapshot, tone: ToneProfile, id: Id): (r: Snapshot)
    ensures SameIds(s.conversations, r.conversations)
    ensures r.suggestions == s.suggestions && r.selectedConversationID == s.selectedConversationID
    ensures r.contextByConversation == s.contextByConversation && r.nextId == s.nextId
  {
    match FirstIndex(s.conversations, id)
    case None => s
    case Some(i) => s.(conversations := s.conversations[i := s.conversations[i].(toneProfile := tone)])
  }

  /** Only the tone of the matching conversation changes; an unknown id changes nothing. */
  lemma UpdateToneEffect(s: Snapshot, tone: ToneProfile, id: Id)
    ensures !Resolves(s, Some(id)) ==> UpdateTone(s, tone, id) == s
    ensures Resolves(s, Some(id)) ==>
      var i := FirstIndex(s.conversations, id).value;
      var r := UpdateTone(s, tone, id);
      && SameIds(s.conversations, r.conversations)
      && r.conversations[i].toneProfile == tone
      && r.conversations[i] == s.conversations[i].(toneProfile := tone)
      && |r.conversations[i].messages| == |s.conversations[i].messages|
      && (forall j :: 0 <= j < |s.conversations| && j != i ==> r.conversations[j] == s.conversations[j])
      && r.suggestions == s.suggestions && r.selectedConversationID == s.selectedConversationID
      && r.contextByConversation == s.contextByConversation && r.nextId == s.nextId
  {
  }

  lemma UpdateTonePreservesWellFormed(s: Snapshot, tone: ToneProfile, id: Id)
    requires WellFormed(s)
    ensures WellFormed(UpdateTone(s, tone, id))
  {
    var r := UpdateTone(s, tone, id);
    if Resolves(s, Some(id)) {
      var i := FirstIndex(s.conversations, id).value;
      assert forall j :: 0 <= j < |r.conversations| ==> r.conversations[j].messages == s.conversations[j].messages;
    }
  }

  // ----- suggestions -----

  /**
   * `regenerateSuggestions(for:)`: the whole list is replaced, from the
   * target's context and tone when it resolves, from nothing otherwise.
   */
  function RegenerateSuggestions(s: Snapshot, conversationID: Option<Id>): (r: Snapshot)
    ensures |r.suggestions| == 4 && UniqueSuggestionIds(r.suggestions)
    ensures forall i :: 0 <= i < |r.suggestions| ==> s.nextId <= r.suggestions[i].id < r.nextId
    ensures r.conversations == s.conversations && r.selectedConversationID == s.selectedConversationID
    ensures r.contextByConversation == s.contextByConversation && r.nextId == s.nextId + 4
  {
    var target := conversationID.OrElse(s.selectedConversationID);
    var generated :=
      if target.None? then SampleSuggestions("", None, s.nextId)
      else match FirstIndex(s.conversations, target.value)
        case None => SampleSuggestions("", None, s.nextId)
        case Some(i) =>
          SampleSuggestions(Context(s, target.value), Some(s.conversations[i].toneProfile), s.nextId);
    s.(suggestions := generated, nextId := s.nextId + 4)
  }

  /** Which suggestions regeneration produces, and that nothing else changes. */
  lemma RegenerateEffect(s: Snapshot, conversationID: Option<Id>)
    ensures var target := conversationID.OrElse(s.selectedConversationID);
      var r := RegenerateSuggestions(s, conversationID);
      && (!Resolves(s, target) ==> r.suggestions == SampleSuggestions("", None, s.nextId))
      && (Resolves(s, target) ==>
            var c := s.conversations[FirstIndex(s.conversations, target.value).value];
            c.id == target.value
            && r.suggestions == SampleSuggestions(Context(s, c.id), Some(c.toneProfile), s.nextId))
      && r.conversations == s.conversations
      && r.selectedConversationID == s.selectedConversationID
      && r.contextByConversation == s.contextByConversation
      && r.nextId == s.nextId + 4
  {
  }

  lemma RegeneratePreservesWellFormed(s: Snapshot, conversationID: Option<Id>)
    requires WellFormed(s)
    ensures WellFormed(RegenerateSuggestions(s, conversationID))
  {
  }

  /** With nothing selected and no conversations, the four bare templates come back. */
  lemma RegenerateFallbackIsBare(s: Snapshot, i: nat)
    requires s.selectedConversationID.None? && s.conversations == [] && i < 4
    ensures RegenerateSuggestions(s, None).suggestions[i].rationale == Templates[i].rationale
  {
    RationaleLayout("", None, s.nextId, i);
  }

  // ----- call sites in the views -----

  /**
   * The "Use" button of the thread view: `setContext` then
   * `regenerateSuggestions` for the same conversation.
   */
  lemma UsePastedContext(s: Snapshot, text: string, id: Id)
    ensures var r := RegenerateSuggestions(SetContext(s, text, id), Some(id));
      && Context(r, id) == text
      && r.conversations == s.conversations
      && r.selectedConversationID == s.selectedConversationID
      && (Resolves(s, Some(id)) ==>
            r.suggestions == SampleSuggestions(text, Some(s.conversations[FirstIndex(s.conversations, id).value].toneProfile), s.nextId))
      && (!Resolves(s, Some(id)) ==> r.suggestions == SampleSuggestions("", None, s.nextId))
  {
    RegenerateEffect(SetContext(s, text, id), Some(id));
  }

  /** Each rationale after the "Use" button reports the pasted note, then the conversation's tone. */
  lemma PastedContextRationale(s: Snapshot, note: string, id: Id, i: nat)
    requires i < 4 && Resolves(s, Some(id))
    ensures var r := RegenerateSuggestions(SetContext(s, note, id), Some(id));
      var tone := s.conversations[FirstIndex(s.conversations, id).value].toneProfile;
      r.suggestions[i].rationale == Templates[i].rationale + ContextLine(note) + ToneHint(Some(tone))
  {
    var tone := s.conversations[FirstIndex(s.conversations, id).value].toneProfile;
    UsePastedContext(s, note, id);
    RationaleLayout(note, Some(tone), s.nextId, i);
  }

  /** Seed the store, paste a note for the seed conversation, regenerate. */
  lemma SeedScenario(now: Time, i: nat)
    requires i < 4
    ensures var s0 := Initial(now);
      var id := s0.conversations[0].id;
      var r := RegenerateSuggestions(SetContext(s0, "Just got back from Runyon!", id), Some(id));
      && r.suggestions[i].rationale
         == Templates[i].rationale + ContextLine("Just got back from Runyon!") + " Tone: P7/F3/Fw6/E7/Fl7."
      && r.conversations == s0.conversations
      && r.selectedConversationID == s0.selectedConversationID
  {
    var note := "Just got back from Runyon!";
    var s0 := Initial(now);
    var c := s0.conversations[0];
    assert c.id == 3 && c.toneProfile == SeedTone;
    assert FirstIndex(s0.conversations, c.id) == Some(0);
    PastedContextRationale(s0, note, c.id, i);
    SeedToneHint();
  }
}
