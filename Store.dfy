/**
 * `AppState` (ToneHone/AppState.swift): the single-writer store behind every
 * screen. Each method updates the fields in place, in the order the Swift
 * code does, and promises the matching transition of module StoreSpec; the
 * well-formedness of StoreSpec is kept by every method.
 */
module Store {
  import opened Wrappers
  import opened Models
  import opened Text
  import opened Suggestions
  import StoreSpec

  class AppState {
    var conversations: seq<Conversation>
    var suggestions: seq<Suggestion>
    var selectedConversationID: Option<Id>
    var contextByConversation: map<Id, string>
    /** The id supply standing for `UUID()`: the next id it hands out. */
    var nextId: nat
    const presets: seq<StoreSpec.TonePreset>

    /** The store's fields as one value. */
    function State(): StoreSpec.Snapshot
      reads this
    {
      StoreSpec.Snapshot(conversations, suggestions, selectedConversationID, contextByConversation, nextId)
    }

    ghost predicate Valid()
      reads this
    {
      StoreSpec.WellFormed(State())
    }

    /** `init()`, at time `now`. */
    constructor(now: Time)
      ensures State() == StoreSpec.Initial(now) && presets == StoreSpec.Presets
      ensures Valid()
    {
      presets := StoreSpec.Presets;
      var person := Person(0, "Sarah", "Hinge", "heart.circle.fill");
      var tone := ToneProfile(7, 3, 6, 7, 7);
      var messages := [
        Message(1, Other, "I love hiking! What's your favorite trail?", now - 3600),
        Message(2, User, "Runyon Canyon is my usual go-to. Where do you hike?", now - 1800)
      ];
      var conversation := Conversation(3, person, messages, tone, true, now - 600, "Hinge", 1, 4);
      var ctxMap := map[conversation.id := ""];
      var ctx := if conversation.id in ctxMap then ctxMap[conversation.id] else "";
      var initialSuggestions := SampleSuggestions(ctx, Some(tone), 4);
      conversations := [conversation];
      selectedConversationID := Some(conversation.id);
      contextByConversation := ctxMap;
      suggestions := initialSuggestions;
      nextId := 8;
      new;
      StoreSpec.InitialFacts(now);
    }

    /** The getter of `selectedConversation`. */
    function SelectedConversation(): (r: Option<Conversation>)
      reads this
      ensures r.Some? ==> r.value in conversations && selectedConversationID == Some(r.value.id)
      ensures r.None? <==>
        selectedConversationID.None?
        || forall j :: 0 <= j < |conversations| ==> conversations[j].id != selectedConversationID.value
    {
      StoreSpec.SelectedConversation(State())
    }

    /** The setter of `selectedConversation`. */
    method SetSelectedConversation(newValue: Option<Conversation>)
      modifies this
      ensures State() == StoreSpec.SetSelectedConversation(old(State()), newValue)
      ensures old(Valid()) && StoreSpec.IssuedMessages(old(State()), newValue) ==> Valid()
    {
      StoreSpec.SetSelectedConversationPreservesWellFormed(State(), newValue);
      if newValue.None? {
        return;
      }
      var idx := StoreSpec.FirstIndex(conversations, newValue.value.id);
      if idx.Some? {
        conversations := conversations[idx.value := newValue.value];
      }
    }

    /** `selectConversation(_:)`. */
    method SelectConversation(conversation: Conversation)
      modifies this
      ensures State() == StoreSpec.SelectConversation(old(State()), conversation)
      ensures old(Valid()) ==> Valid()
    {
      selectedConversationID := Some(conversation.id);
    }

    /** `binding(for:)`: the position the binding reads and writes, when the id exists. */
    method Binding(conversationID: Id) returns (index: Option<nat>)
      ensures index.None? <==> forall j :: 0 <= j < |conversations| ==> conversations[j].id != conversationID
      ensures index.Some? ==> index.value < |conversations| && conversations[index.value].id == conversationID
    {
      index := StoreSpec.FirstIndex(conversations, conversationID);
    }

    /** Takes the next id from the supply. */
    method FreshId() returns (id: Id)
      modifies this`nextId
      ensures id == old(nextId) && nextId == old(nextId) + 1
    {
      id := nextId;
      nextId := nextId + 1;
    }

    /** The three field writes that follow a successful guard in `sendMessage` and `useSuggestion`. */
    method AppendUserMessage(idx: nat, trimmed: string, now: Time)
      requires idx < |conversations|
      modifies this
      ensures conversations
           == old(conversations)[idx := StoreSpec.Appended(old(conversations)[idx], Message(old(nextId), User, trimmed, now), now)]
      ensures nextId == old(nextId) + 1
      ensures suggestions == old(suggestions) && selectedConversationID == old(selectedConversationID)
      ensures contextByConversation == old(contextByConversation)
    {
      var id := FreshId();
      var message := Message(id, User, trimmed, now);
      conversations := conversations[idx := conversations[idx].(messages := conversations[idx].messages + [message])];
      conversations := conversations[idx := conversations[idx].(lastActivity := now)];
      conversations := conversations[idx := conversations[idx].(needsResponse := false)];
    }

    /** `sendMessage(_:)`. */
    method SendMessage(text: string, now: Time)
      modifies this
      ensures State() == StoreSpec.SendMessage(old(State()), text, now)
      ensures old(Valid()) ==> Valid()
    {
      if Valid() {
        StoreSpec.DeliverPreservesWellFormed(State(), selectedConversationID, text, now);
      }
      var trimmed := Trim(text);
      if trimmed == [] || selectedConversationID.None? {
        return;
      }
      var idx := StoreSpec.FirstIndex(conversations, selectedConversationID.value);
      if idx.None? {
        return;
      }
      AppendUserMessage(idx.value, trimmed, now);
    }

    /** `useSuggestion(_:for:)`: the lookup comes before the trim, as in the source. */
    method UseSuggestion(text: string, conversationID: Option<Id>, now: Time)
      modifies this
      ensures State() == StoreSpec.UseSuggestion(old(State()), text, conversationID, now)
      ensures old(Valid()) ==> Valid()
    {
      var targetID := conversationID.OrElse(selectedConversationID);
      if Valid() {
        StoreSpec.DeliverPreservesWellFormed(State(), targetID, text, now);
      }
      if targetID.None? {
        return;
      }
      var idx := StoreSpec.FirstIndex(conversations, targetID.value);
      if idx.None? {
        return;
      }
      var trimmed := Trim(text);
      if trimmed == [] {
        return;
      }
      AppendUserMessage(idx.value, trimmed, now);
    }

    /** `setContext(_:for:)`. */
    method SetContext(text: string, conversationID: Id)
      modifies this
      ensures State() == StoreSpec.SetContext(old(State()), text, conversationID)
      ensures old(Valid()) ==> Valid()
    {
      contextByConversation := contextByConversation[conversationID := text];
    }

    /** `context(for:)`. */
    function Context(conversationID: Id): (r: string)
      reads this
      ensures r != "" ==> conversationID in contextByConversation && contextByConversation[conversationID] == r
    {
      StoreSpec.Context(State(), conversationID)
    }

    /** `updateTone(_:for:)`. */
    method UpdateTone(tone: ToneProfile, conversationID: Id)
      modifies this
      ensures State() == StoreSpec.UpdateTone(old(State()), tone, conversationID)
      ensures old(Valid()) ==> Valid()
    {
      if Valid() {
        StoreSpec.UpdateTonePreservesWellFormed(State(), tone, conversationID);
      }
      var idx := StoreSpec.FirstIndex(conversations, conversationID);
      if idx.None? {
        return;
      }
      conversations := conversations[idx.value := conversations[idx.value].(toneProfile := tone)];
    }

    /** `regenerateSuggestions(for:)`. */
    method RegenerateSuggestions(conversationID: Option<Id>)
      modifies this
      ensures State() == StoreSpec.RegenerateSuggestions(old(State()), conversationID)
      ensures old(Valid()) ==> Valid()
    {
      if Valid() {
        StoreSpec.RegeneratePreservesWellFormed(State(), conversationID);
      }
      var convoID := conversationID.OrElse(selectedConversationID);
      var found := if convoID.None? then None else StoreSpec.FirstIndex(conversations, convoID.value);
      if found.None? {
        suggestions := SampleSuggestions("", None, nextId);
        nextId := nextId + 4;
        return;
      }
      var convo := conversations[found.value];
      var context := Context(convoID.value);
      suggestions := SampleSuggestions(context, Some(convo.toneProfile), nextId);
      nextId := nextId + 4;
    }
  }
}
