/**
 * The value types of ToneHone (ToneHone/Models.swift).
 *
 * Every Swift struct becomes a datatype. Datatype values are immutable, so a
 * "mutation" of a `var` field is a new value built with `.(field := ...)`;
 * that the `let id` of a Message, Suggestion or Conversation never changes is
 * stated by the store's lemmas (every operation keeps the id sequence).
 * A `UUID` is modelled as a natural number handed out by a counter, a `Date`
 * as whole seconds, and the `Double` tone dimensions as the integers that
 * `Int(...)` makes of them.
 */
module Models {
  import opened Wrappers

  /** Stands for Foundation's `UUID`. */
  type Id = nat

  /** Stands for Foundation's `Date`, in seconds. */
  type Time = int

  /** `enum MessageSender: String` — exactly one of three cases. */
  datatype MessageSender = User | Other | Ai

  /** The Codable raw value of a sender. */
  function SenderRawValue(s: MessageSender): string {
    match s
    case User => "user"
    case Other => "other"
    case Ai => "ai"
  }

  /** `MessageSender(rawValue:)`: defined exactly on the three raw values. */
  function SenderFromRawValue(raw: string): (r: Option<MessageSender>)
    ensures r.Some? <==> raw == "user" || raw == "other" || raw == "ai"
    ensures r.Some? ==> SenderRawValue(r.value) == raw
  {
    if raw == "user" then Some(User)
    else if raw == "other" then Some(Other)
    else if raw == "ai" then Some(Ai)
    else None
  }

  lemma SenderRawValueRoundTrip(s: MessageSender)
    ensures SenderFromRawValue(SenderRawValue(s)) == Some(s)
  {
  }

  /** `enum SuggestionVariant: String, CaseIterable` — exactly one of five cases. */
  datatype SuggestionVariant = Safe | Bold | Playful | Question | Statement

  function VariantRawValue(v: SuggestionVariant): string {
    match v
    case Safe => "safe"
    case Bold => "bold"
    case Playful => "playful"
    case Question => "question"
    case Statement => "statement"
  }

  function VariantFromRawValue(raw: string): (r: Option<SuggestionVariant>)
    ensures r.Some? <==> raw in {"safe", "bold", "playful", "question", "statement"}
    ensures r.Some? ==> VariantRawValue(r.value) == raw
  {
    if raw == "safe" then Some(Safe)
    else if raw == "bold" then Some(Bold)
    else if raw == "playful" then Some(Playful)
    else if raw == "question" then Some(Question)
    else if raw == "statement" then Some(Statement)
    else None
  }

  lemma VariantRawValueRoundTrip(v: SuggestionVariant)
    ensures VariantFromRawValue(VariantRawValue(v)) == Some(v)
  {
  }

  /** `SuggestionVariant.allCases`, in declaration order, without repeats. */
  function AllVariants(): (r: seq<SuggestionVariant>)
    ensures |r| == 5
    ensures forall i, j :: 0 <= i < j < |r| ==> r[i] != r[j]
  {
    [Safe, Bold, Playful, Question, Statement]
  }

  /** Every variant is one of the listed cases. */
  lemma AllVariantsComplete(v: SuggestionVariant)
    ensures v in AllVariants()
  {
    var all := AllVariants();
    match v
    case Safe => assert all[0] == v;
    case Bold => assert all[1] == v;
    case Playful => assert all[2] == v;
    case Question => assert all[3] == v;
    case Statement => assert all[4] == v;
  }

  datatype Person = Person(id: Id, name: string, platform: string, avatarSymbol: string)

  datatype Message = Message(id: Id, sender: MessageSender, text: string, timestamp: Time)

  /** Five independent dimensions; the type bounds none of them (sliders keep them in 1...10). */
  datatype ToneProfile = ToneProfile(
    playfulness: int,
    formality: int,
    forwardness: int,
    expressiveness: int,
    flirtation: int)

  /** `matchScore` is a plain integer; nothing bounds it. */
  datatype Suggestion = Suggestion(
    id: Id,
    text: string,
    matchScore: int,
    rationale: string,
    variant: SuggestionVariant)

  /** A conversation holds its person, messages and tone by value: copies never alias. */
  datatype Conversation = Conversation(
    id: Id,
    person: Person,
    messages: seq<Message>,
    toneProfile: ToneProfile,
    needsResponse: bool,
    lastActivity: Time,
    platformBadge: string,
    unreadCount: int,
    healthScore: int)
}
