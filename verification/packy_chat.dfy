/**
 * The scripted assistant. Sending trims the text and ignores blank input;
 * otherwise it appends the user's message, clears the input and shows the
 * typing indicator. Each send schedules one reply, looked up from a fixed
 * question table with a fallback text; the equal-delay timers fire in the
 * order they were set, so scheduled replies form a FIFO queue and
 * `DeliverReply` is one timer firing.
 */
module PackyChat {
  import opened JsText

  const ExplainQuestion: string := "Explain this product simply"
  const ChooseQuestion: string := "Help me choose between products"
  const ExpiryQuestion: string := "When does my milk expire?"
  const RecycleQuestion: string := "How do I recycle this pack?"

  const ExplainAnswer: string := "This is a Tetra Pak carton of milk from a local Swedish farm. It's organic, fresh, and packaged in a recyclable carton. Best used within 7 days of opening! 🥛"
  const ChooseAnswer: string := "Looking at your scanned products: the organic whole milk has the best sustainability score (87%), while the orange juice expires soonest. I'd recommend using the juice first! 🍊"
  const ExpiryAnswer: string := "Your Arla Organic Whole Milk expires on Feb 20, 2025. That's about a week away — still fresh! I'll remind you when it's getting close. ⏰"
  const RecycleAnswer: string := "Great question! ♻️ Flatten the carton, keep the cap on, and place it in your paper/carton recycling bin. The carton is made of 70% renewable materials!"
  const Fallback: string := "Thanks for asking! I'm Packy, your product guide. I can help with product info, comparisons, expiry dates, and recycling tips. Try one of the quick suggestions! 📦"

  /** The suggestion chips, in order. */
  const Suggestions: seq<string> := [ExplainQuestion, ChooseQuestion, ExpiryQuestion, RecycleQuestion]

  /** A question table with the text sent when a question is not in it. */
  datatype ReplyBook = ReplyBook(table: map<string, string>, fallback: string)

  /** `packyReplies` with the fallback text of `sendMessage`. */
  const Packy: ReplyBook := ReplyBook(
    map[
      ExplainQuestion := ExplainAnswer,
      ChooseQuestion := ChooseAnswer,
      ExpiryQuestion := ExpiryAnswer,
      RecycleQuestion := RecycleAnswer
    ],
    Fallback)

  /** No answer is empty and none can be mistaken for the fallback. */
  predicate Distinguished(book: ReplyBook) {
    book.fallback !in book.table.Values && "" !in book.table.Values
  }

  /** The table holds the four suggestion questions, each with its own answer. */
  lemma PackyTable()
    ensures Packy.table.Keys == {ExplainQuestion, ChooseQuestion, ExpiryQuestion, RecycleQuestion}
    ensures Packy.table[ExplainQuestion] == ExplainAnswer && Packy.table[ChooseQuestion] == ChooseAnswer
    ensures Packy.table[ExpiryQuestion] == ExpiryAnswer && Packy.table[RecycleQuestion] == RecycleAnswer
  {
    assert ExplainQuestion[0] == 'E' && ChooseQuestion[0] == 'H' && ExpiryQuestion[0] == 'W' && RecycleQuestion[0] == 'H';
    assert ChooseQuestion[1] == 'e' && RecycleQuestion[1] == 'o';
  }

  lemma PackyAnswers()
    ensures Packy.table.Values == {ExplainAnswer, ChooseAnswer, ExpiryAnswer, RecycleAnswer}
    ensures Packy.fallback == Fallback
  {
    PackyTable();
    assert ExplainAnswer == Packy.table[ExplainQuestion] && ChooseAnswer == Packy.table[ChooseQuestion];
    assert ExpiryAnswer == Packy.table[ExpiryQuestion] && RecycleAnswer == Packy.table[RecycleQuestion];
  }

  lemma AnswerLengths()
    ensures |Fallback| == 162
    ensures |ExplainAnswer| == 157 && |ChooseAnswer| == 176 && |ExpiryAnswer| == 136 && |RecycleAnswer| == 151
  {}

  /** The assistant's book is distinguished: every answer differs from the fallback in length. */
  lemma PackyDistinguished()
    ensures Distinguished(Packy)
  {
    PackyAnswers();
    AnswerLengths();
  }

  /**
   * The reply to a trimmed query: the table's answer for a question it
   * holds, the fallback otherwise. Only the table's own entries count.
   */
  function Reply(book: ReplyBook, q: string): (r: string)
    ensures q in book.table ==> r == book.table[q]
    ensures q !in book.table ==> r == book.fallback
    ensures r == book.fallback || r in book.table.Values
    ensures Distinguished(book) ==> (r == book.fallback <==> q !in book.table)
  {
    if q in book.table then book.table[q] else book.fallback
  }

  /** Every suggestion gets its own answer, never the fallback. */
  lemma SuggestionsAnswered(k: nat)
    requires k < |Suggestions|
    ensures Suggestions[k] in Packy.table && Reply(Packy, Suggestions[k]) != Fallback
  {
    PackyTable();
    PackyDistinguished();
  }

  /**
   * The names `Object.prototype` gives every plain object. Indexing the
   * reply table, an object literal, with one of them yields an inherited
   * function or object, not `undefined`.
   */
  const ObjectPrototypeMembers: set<string> := {
    "constructor", "hasOwnProperty", "isPrototypeOf", "propertyIsEnumerable",
    "toString", "toLocaleString", "valueOf", "__proto__",
    "__defineGetter__", "__defineSetter__", "__lookupGetter__", "__lookupSetter__"
  }

  /** What `packyReplies[q]` evaluates to. */
  datatype Lookup = OwnText(text: string) | InheritedMember(name: string) | Undefined

  function IndexAsWritten(book: ReplyBook, q: string): (r: Lookup)
    ensures r.OwnText? <==> q in book.table
    ensures r.InheritedMember? <==> q !in book.table && q in ObjectPrototypeMembers
    ensures r.Undefined? <==> q !in book.table && q !in ObjectPrototypeMembers
  {
    if q in book.table then OwnText(book.table[q])
    else if q in ObjectPrototypeMembers then InheritedMember(q)
    else Undefined
  }

  /** `packyReplies[q] || fallback`: non-empty text and inherited members are truthy. */
  function ReplyAsWritten(book: ReplyBook, q: string): (r: Lookup)
    ensures !r.Undefined?
    ensures r.InheritedMember? <==> q !in book.table && q in ObjectPrototypeMembers
    ensures r.OwnText? && book.fallback != "" ==> r.text != ""
  {
    match IndexAsWritten(book, q)
    case Undefined => OwnText(book.fallback)
    case OwnText(t) => if t == "" then OwnText(book.fallback) else OwnText(t)
    case InheritedMember(n) => InheritedMember(n)
  }

  /** Every table question is at least 25 characters long. */
  lemma ShortQueryNotInTable(q: string)
    requires |q| < 25
    ensures q !in Packy.table
  {
    PackyTable();
    assert |ExplainQuestion| == 27 && |ChooseQuestion| == 31 && |ExpiryQuestion| == 25 && |RecycleQuestion| == 27;
  }

  /**
   * Asking for an inherited name such as "toString" or "__proto__" yields
   * the inherited member as the reply, where the fallback text was meant.
   */
  lemma InheritedReplyAsWritten(q: string)
    requires q in ObjectPrototypeMembers
    ensures ReplyAsWritten(Packy, q) == InheritedMember(q)
    ensures Reply(Packy, q) == Fallback
  {
    assert |q| < 25;
    ShortQueryNotInTable(q);
  }

  /** Typed into the box, "toString" survives the trim and reaches the lookup. */
  lemma ToStringReachesLookup()
    ensures Trim("toString") == "toString" != ""
    ensures "toString" in ObjectPrototypeMembers
  {
    TrimOfTrimmed("toString");
  }

  /** Outside the inherited names, the code as written and `Reply` agree. */
  lemma ReplyAgreesAsWritten(book: ReplyBook, q: string)
    requires q !in ObjectPrototypeMembers && Distinguished(book)
    ensures ReplyAsWritten(book, q) == OwnText(Reply(book, q))
  {
    if q in book.table {
      assert book.table[q] in book.table.Values;
    }
  }

  datatype Role = User | Assistant

  /** A chat message; the `Date.now()` id is left out. */
  datatype Message = Message(role: Role, content: string)

  /** The chat's state, with the replies whose timers are still running. */
  datatype ChatState = ChatState(
    messages: seq<Message>, input: string, isTalking: bool, isTyping: bool, pending: seq<string>)

  const InitialChat: ChatState := ChatState([], "", false, false, [])

  /**
   * The non-blank branch of `sendMessage`: the user's message is appended,
   * the input cleared, the typing indicator shown and one reply scheduled.
   */
  function Post(st: ChatState, q: string): (r: ChatState)
    ensures |r.messages| == |st.messages| + 1 && r.messages[..|st.messages|] == st.messages
    ensures r.messages[|st.messages|] == Message(User, q)
    ensures r.pending == st.pending + [q]
    ensures r.input == "" && r.isTyping && r.isTalking == st.isTalking
  {
    ChatState(st.messages + [Message(User, q)], "", st.isTalking, true, st.pending + [q])
  }

  /** `sendMessage(text)`: blank text after trimming changes nothing. */
  function SendMessage(st: ChatState, text: string): (r: ChatState)
    ensures r == st <==> Trim(text) == ""
    ensures Trim(text) != "" ==> r == Post(st, Trim(text))
  {
    var q := Trim(text);
    if q == "" then st else Post(st, q)
  }

  /** Enter in the input box, or the Send button: `sendMessage(input)`. */
  function SendInput(st: ChatState): (r: ChatState)
    ensures r == st <==> Trim(st.input) == ""
    ensures r != st ==> r.input == "" && r.messages == st.messages + [Message(User, Trim(st.input))]
  {
    SendMessage(st, st.input)
  }

  /** The input box's `onChange`. */
  function SetInput(st: ChatState, v: string): (r: ChatState)
    ensures r.input == v && r.messages == st.messages && r.pending == st.pending
    ensures r.isTyping == st.isTyping && r.isTalking == st.isTalking
  {
    st.(input := v)
  }

  /** The oldest timer fires: its reply is appended and the typing indicator cleared. */
  function DeliverReply(book: ReplyBook, st: ChatState): (r: ChatState)
    ensures st.pending == [] ==> r == st
    ensures st.pending != [] ==>
      && r.messages == st.messages + [Message(Assistant, Reply(book, st.pending[0]))]
      && r.pending == st.pending[1..]
      && !r.isTyping && r.input == st.input && r.isTalking == st.isTalking
  {
    if st.pending == [] then st
    else st.(messages := st.messages + [Message(Assistant, Reply(book, st.pending[0]))],
             isTyping := false, pending := st.pending[1..])
  }

  /**
   * Outside the inherited names, the reply a timer appends is the one the
   * code as written computes.
   */
  lemma DeliverAgreesAsWritten(book: ReplyBook, st: ChatState)
    requires Distinguished(book)
    requires st.pending != [] && st.pending[0] !in ObjectPrototypeMembers
    ensures var ms := DeliverReply(book, st).messages;
      |ms| > 0 && ReplyAsWritten(book, st.pending[0]) == OwnText(ms[|ms| - 1].content)
  {
    ReplyAgreesAsWritten(book, st.pending[0]);
  }

  /** `handleMicToggle`. */
  function ToggleMic(st: ChatState): (r: ChatState)
    ensures r.isTalking != st.isTalking && r.messages == st.messages && r.input == st.input
    ensures r.isTyping == st.isTyping && r.pending == st.pending
  {
    st.(isTalking := !st.isTalking)
  }

  /** The Send button's `disabled` flag. */
  predicate SendDisabled(st: ChatState) {
    Trim(st.input) == ""
  }

  /** The suggestion chips are shown while no message exists. */
  predicate SuggestionsShown(st: ChatState) {
    |st.messages| == 0
  }

  /** The button is disabled exactly when sending the input would change nothing. */
  lemma SendDisabledIffNoop(st: ChatState)
    ensures SendDisabled(st) <==> SendInput(st) == st
  {
  }

  /**
   * Every timer clears the typing indicator, so after two quick sends the
   * first reply hides it while the second is still pending.
   */
  lemma TypingClearedEarly(book: ReplyBook, st: ChatState, t1: string, t2: string)
    requires Trim(t1) != "" && Trim(t2) != ""
    ensures var sent := SendMessage(SendMessage(st, t1), t2);
      && sent.isTyping
      && !DeliverReply(book, sent).isTyping
      && DeliverReply(book, sent).pending != []
  {
    var once := SendMessage(st, t1);
    var sent := SendMessage(once, t2);
    assert sent.pending == st.pending + [Trim(t1)] + [Trim(t2)];
  }

  /** Toggling the mic twice restores the state. */
  lemma ToggleMicTwice(st: ChatState)
    ensures ToggleMic(ToggleMic(st)) == st
  {}

  /** The contents of the user's messages, in order. */
  function UserTexts(ms: seq<Message>): seq<string> {
    if ms == [] then []
    else UserTexts(ms[..|ms| - 1]) + (if ms[|ms| - 1].role == User then [ms[|ms| - 1].content] else [])
  }

  /** The contents of the assistant's messages, in order. */
  function AssistantTexts(ms: seq<Message>): seq<string> {
    if ms == [] then []
    else AssistantTexts(ms[..|ms| - 1]) + (if ms[|ms| - 1].role == Assistant then [ms[|ms| - 1].content] else [])
  }

  function Replies(book: ReplyBook, qs: seq<string>): seq<string> {
    seq(|qs|, k requires 0 <= k < |qs| => Reply(book, qs[k]))
  }

  /**
   * The conversation invariant: the replies to the user's messages, in
   * order, are the assistant's messages followed by the pending replies.
   * Every question is answered once, in the order asked.
   */
  ghost predicate Answered(book: ReplyBook, st: ChatState) {
    Replies(book, UserTexts(st.messages)) == AssistantTexts(st.messages) + Replies(book, st.pending)
  }

  lemma InitialAnswered(book: ReplyBook)
    ensures Answered(book, InitialChat)
  {}

  lemma TextsAppend(ms: seq<Message>, m: Message)
    ensures UserTexts(ms + [m]) == UserTexts(ms) + (if m.role == User then [m.content] else [])
    ensures AssistantTexts(ms + [m]) == AssistantTexts(ms) + (if m.role == Assistant then [m.content] else [])
  {
    assert (ms + [m])[..|ms|] == ms;
  }

  lemma RepliesAppend(book: ReplyBook, qs: seq<string>, q: string)
    ensures Replies(book, qs + [q]) == Replies(book, qs) + [Reply(book, q)]
  {}

  lemma RepliesFirst(book: ReplyBook, qs: seq<string>)
    requires qs != []
    ensures Replies(book, qs) == [Reply(book, qs[0])] + Replies(book, qs[1..])
  {}

  /** Posting a question keeps every question answered in order. */
  lemma PostKeepsAnswered(book: ReplyBook, st: ChatState, q: string)
    requires Answered(book, st)
    ensures Answered(book, Post(st, q))
  {
    assert Post(st, q).messages == st.messages + [Message(User, q)];
    TextsAppend(st.messages, Message(User, q));
    RepliesAppend(book, UserTexts(st.messages), q);
    RepliesAppend(book, st.pending, q);
  }

  /** Sending keeps every question answered in order. */
  lemma SendKeepsAnswered(book: ReplyBook, st: ChatState, text: string)
    requires Answered(book, st)
    ensures Answered(book, SendMessage(st, text))
  {
    if Trim(text) != "" {
      PostKeepsAnswered(book, st, Trim(text));
    }
  }

  /** A timer firing keeps every question answered in order. */
  lemma DeliverKeepsAnswered(book: ReplyBook, st: ChatState)
    requires Answered(book, st)
    ensures Answered(book, DeliverReply(book, st))
  {
    if st.pending != [] {
      var a := Reply(book, st.pending[0]);
      TextsAppend(st.messages, Message(Assistant, a));
      RepliesFirst(book, st.pending);
      assert AssistantTexts(st.messages) + Replies(book, st.pending)
        == (AssistantTexts(st.messages) + [a]) + Replies(book, st.pending[1..]);
    }
  }

  /** Sending a suggestion on a fresh chat posts it and schedules its reply. */
  lemma SendSuggestion(k: nat)
    requires k < |Suggestions|
    ensures SendMessage(InitialChat, Suggestions[k]) == Post(InitialChat, Suggestions[k])
  {
    SuggestionTrimmed(k);
  }

  /** Asking a suggestion on a fresh chat, then letting its timer fire, shows the table's answer. */
  lemma SuggestionConversation(k: nat)
    requires k < |Suggestions|
    ensures var st := DeliverReply(Packy, SendMessage(InitialChat, Suggestions[k]));
      && st.messages == [Message(User, Suggestions[k]), Message(Assistant, Packy.table[Suggestions[k]])]
      && !st.isTyping && st.pending == [] && !SuggestionsShown(st)
  {
    var s := Suggestions[k];
    SendSuggestion(k);
    SuggestionsAnswered(k);
    var sent := Post(InitialChat, s);
    assert sent.messages == [Message(User, s)] && sent.pending == [s];
    assert DeliverReply(Packy, sent).messages == [Message(User, s), Message(Assistant, Reply(Packy, s))];
  }

  /** The suggestion texts have no surrounding white space. */
  lemma SuggestionTrimmed(k: nat)
    requires k < |Suggestions|
    ensures Trim(Suggestions[k]) == Suggestions[k]
  {
    var s := Suggestions[k];
    assert s[0] in "EHW" && s[|s| - 1] in "ys?";
    TrimOfTrimmed(s);
  }
}
