/** The conversation state of the chatbot component: the input box, the message history,
    the "bot is typing" flag and the reply timer that `handleSubmit` schedules. */
module Conversation {
  import opened Text
  import opened Analyzer
  import opened Response
  import opened SymptomDatabase

  datatype Option<T> = None | Some(value: T)

  /** The message the history starts with. */
  const Greeting := Message(Bot, "안녕하세요? 저는 베이맥스. 당신의 개인 의료 도우미입니다. 현재 어떤 증상들이 있으신지 자세히 설명해 주시겠어요?")

  /** The input has nothing but whitespace, which is exactly when `!input.trim()` holds
      (the contract of `Trim`). */
  predicate IsBlank(input: string)
  {
    AllTrimmable(input)
  }

  /** The bot's answer to a user's text, looked up in the table `db`. */
  function ReplyTo(input: string, db: seq<Symptom>): Message
  {
    ResponseOf(AnalysisOf(input, db))
  }

  /** `!input.trim()`, computed through `trim` as the source does. */
  method IsBlankInput(input: string) returns (blank: bool)
    ensures blank == IsBlank(input)
  {
    var trimmed := Trim(input);
    blank := trimmed == [];
  }

  /** The `setTimeout` callback's computation: analyse the text, then write the reply. */
  method Answer(text: string, db: seq<Symptom>) returns (reply: Message)
    ensures reply == ReplyTo(text, db)
  {
    var analysis := AnalyzeMultipleSymptoms(text, db);
    reply := GenerateResponse(analysis);
  }

  /** A history that starts with the greeting and then alternates user and bot messages,
      in which every user text is non-blank. */
  ghost predicate WellFormedHistory(ms: seq<Message>)
  {
    && |ms| >= 1
    && ms[0] == Greeting
    && (forall i :: 0 <= i < |ms| ==> ms[i].sender == (if i % 2 == 0 then Bot else User))
    && (forall i :: 0 < i < |ms| && i % 2 == 1 ==> !IsBlank(ms[i].content))
  }

  /** A non-blank user message may follow a bot message. */
  lemma UserTurnKeepsHistory(ms: seq<Message>, text: string)
    requires WellFormedHistory(ms) && |ms| % 2 == 1 && !IsBlank(text)
    ensures WellFormedHistory(ms + [Message(User, text)])
  {
    var ms' := ms + [Message(User, text)];
    forall i | 0 <= i < |ms| ensures ms'[i] == ms[i] { }
  }

  /** A bot message may follow a user message. */
  lemma BotTurnKeepsHistory(ms: seq<Message>, reply: Message)
    requires WellFormedHistory(ms) && |ms| % 2 == 0 && reply.sender == Bot
    ensures WellFormedHistory(ms + [reply])
  {
    var ms' := ms + [reply];
    forall i | 0 <= i < |ms| ensures ms'[i] == ms[i] { }
  }

  class Chat {
    /** The table the replies are looked up in: `symptomsDatabase`, fixed for the
        component's lifetime. */
    const knowledgeBase: seq<Symptom>
    /** The text box (`input`). */
    var input: string
    /** The history (`messages`), in display order. */
    var messages: seq<Message>
    /** `isTyping`: a reply is scheduled and not yet delivered. */
    var isTyping: bool
    /** The text the scheduled reply timer will answer, when one is scheduled. */
    var pending: Option<string>

    /** The history is well formed, and a reply is due (to the last message, the user's)
        exactly while `isTyping` is set. */
    ghost predicate Valid()
      reads this
    {
      && WellFormedHistory(messages)
      && (isTyping <==> pending.Some?)
      && (isTyping <==> |messages| % 2 == 0)
      && (pending.Some? ==> pending.value == messages[|messages| - 1].content)
    }

    /** The component's initial state. */
    constructor ()
      ensures Valid()
      ensures knowledgeBase == Database
      ensures input == "" && messages == [Greeting] && !isTyping && pending == None
    {
      knowledgeBase := Database;
      input := "";
      messages := [Greeting];
      isTyping := false;
      pending := None;
    }

    /** The text box's `onChange`: `setInput(e.target.value)`. */
    method SetInput(value: string)
      requires Valid()
      modifies this
      ensures Valid()
      ensures input == value
      ensures messages == old(messages) && isTyping == old(isTyping) && pending == old(pending)
    {
      input := value;
    }

    /** `handleSubmit`: ignored while the input is blank or a reply is due; otherwise the
        user's untrimmed text is appended, the box is cleared and a reply to that text is
        scheduled. */
    method Submit()
      requires Valid()
      modifies this
      ensures Valid()
      ensures IsBlank(old(input)) || old(isTyping) ==>
        input == old(input) && messages == old(messages) &&
        isTyping == old(isTyping) && pending == old(pending)
      ensures !(IsBlank(old(input)) || old(isTyping)) ==>
        messages == old(messages) + [Message(User, old(input))] &&
        input == "" && isTyping && pending == Some(old(input))
    {
      var blank := IsBlankInput(input);
      if blank || isTyping {
        return;
      }
      var userMessage := Message(User, input);
      UserTurnKeepsHistory(messages, input);
      messages := messages + [userMessage];
      pending := Some(input);
      input := "";
      isTyping := true;
    }

    /** The body of the reply timer: the bot's answer to the submitted text is appended
        and `isTyping` is cleared. The timer exists only while a reply is due. */
    method DeliverReply()
      requires Valid() && pending.Some?
      modifies this
      ensures Valid()
      ensures messages == old(messages) + [ReplyTo(old(pending).value, knowledgeBase)]
      ensures !isTyping && pending == None && input == old(input)
    {
      var text := pending.value;
      var botResponse := Answer(text, knowledgeBase);
      RecordReply(botResponse);
    }

    /** `setMessages(prev => [...prev, botResponse])` followed by `setIsTyping(false)`. */
    method RecordReply(botResponse: Message)
      requires Valid() && pending.Some? && botResponse.sender == Bot
      modifies this
      ensures Valid()
      ensures messages == old(messages) + [botResponse]
      ensures !isTyping && pending == None && input == old(input)
    {
      BotTurnKeepsHistory(messages, botResponse);
      messages := messages + [botResponse];
      isTyping := false;
      pending := None;
    }
  }
}
