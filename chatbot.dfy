/** src/pages/Chatbot.tsx: the message log, the input box and the loading
    flag. The simulated bot answer, which the page schedules with a timer, is
    a separate step; clock readings are inputs. */
module Chatbot {
  import opened Common

  datatype Sender = FromUser | FromBot

  datatype Message = Message(id: string, text: string, sender: Sender)

  /** The translation key of the greeting the log starts with. */
  const GreetingKey: string := "chatbot.greeting"

  /** The state a render of the page sees. */
  datatype ChatState = ChatState(messages: seq<Message>, currentMessage: string, loading: bool)

  function InitialChat(): ChatState
  {
    ChatState([Message("1", GreetingKey, FromBot)], "", false)
  }

  /** The bot's canned answer quoting the user's text. */
  function BotReply(sent: string): string
  {
    "I understand you're asking about \"" + sent + "\". Let me help you with that..."
  }

  /** `handleSendMessage` as a render runs it, `text` being the input that
      render saw: blank text does nothing; otherwise the user message is
      appended, the input cleared and loading set. */
  function AfterSend(s: ChatState, text: string, now: nat): ChatState
  {
    if IsBlank(text) then s
    else ChatState(s.messages + [Message(NatToString(now), text, FromUser)], "", true)
  }

  /** The timer's continuation: the reply to `sent` is appended and loading
      ends; the input is left alone. */
  function AfterReply(s: ChatState, sent: string, replyAt: nat): ChatState
  {
    s.(messages := s.messages + [Message(NatToString(replyAt + 1), BotReply(sent), FromBot)], loading := false)
  }

  /** The log starts with exactly one message, the bot's greeting. */
  lemma InitialLog()
    ensures |InitialChat().messages| == 1
    ensures InitialChat().messages[0].sender == FromBot && InitialChat().messages[0].text == GreetingKey
    ensures InitialChat().currentMessage == "" && !InitialChat().loading
  {
  }

  /** Sending: whitespace-only text leaves everything as it was; other text
      is appended as a user message verbatim, the input is cleared and
      loading is set. Either way the earlier log is untouched. */
  lemma SendLaws(s: ChatState, text: string, now: nat)
    ensures (forall i :: 0 <= i < |text| ==> IsJsWhitespace(text[i])) ==> AfterSend(s, text, now) == s
    ensures !IsBlank(text) ==>
              |AfterSend(s, text, now).messages| == |s.messages| + 1
              && AfterSend(s, text, now).messages[|s.messages|].text == text
              && AfterSend(s, text, now).messages[|s.messages|].sender == FromUser
              && AfterSend(s, text, now).currentMessage == ""
              && AfterSend(s, text, now).loading
    ensures AfterSend(s, text, now).messages[..|s.messages|] == s.messages
  {
    BlankIffAllWhitespace(text);
  }

  /** The reply quotes the sent text, ends loading and keeps the earlier log. */
  lemma ReplyLaws(s: ChatState, sent: string, replyAt: nat)
    ensures AfterReply(s, sent, replyAt).messages[..|s.messages|] == s.messages
    ensures AfterReply(s, sent, replyAt).messages[|s.messages|].sender == FromBot
    ensures Contains(AfterReply(s, sent, replyAt).messages[|s.messages|].text, sent)
    ensures !AfterReply(s, sent, replyAt).loading
  {
    var prefix := "I understand you're asking about \"";
    var reply := BotReply(sent);
    assert reply[|prefix|..|prefix| + |sent|] == sent;
    assert OccursAt(reply, sent, |prefix|);
  }

  /** A whole exchange: the log gains the user's text and then a reply that
      quotes it, and the page is idle again. */
  lemma Exchange(s: ChatState, text: string, now: nat, replyAt: nat)
    requires !IsBlank(text)
    ensures AfterReply(AfterSend(s, text, now), text, replyAt).messages
         == s.messages + [Message(NatToString(now), text, FromUser),
                          Message(NatToString(replyAt + 1), BotReply(text), FromBot)]
    ensures !AfterReply(AfterSend(s, text, now), text, replyAt).loading
  {
  }

  /** `handleQuickQuestion` as written: the input is set to the question, but
      the send scheduled on the timer belongs to the same render and sees the
      input as it was before. */
  function QuickQuestionAsWritten(s: ChatState, question: string, now: nat): ChatState
  {
    AfterSend(s.(currentMessage := question), s.currentMessage, now)
  }

  /** `handleQuickQuestion` as intended: the question itself is sent. */
  function QuickQuestion(s: ChatState, question: string, now: nat): ChatState
  {
    AfterSend(s.(currentMessage := question), question, now)
  }

  /** With an empty input box, a quick question as written is never sent:
      the log does not change and the question stays in the input. */
  lemma QuickQuestionIsLost(s: ChatState, question: string, now: nat)
    requires s.currentMessage == "" && !IsBlank(question)
    ensures QuickQuestionAsWritten(s, question, now).messages == s.messages
    ensures QuickQuestionAsWritten(s, question, now).currentMessage == question
    ensures QuickQuestion(s, question, now).messages == s.messages + [Message(NatToString(now), question, FromUser)]
  {
    assert IsBlank("");
  }

  /** A concrete case: the "wifi" question on a fresh page. */
  lemma WifiQuestionOnFreshPage(now: nat)
    ensures QuickQuestionAsWritten(InitialChat(), "wifi", now).messages == InitialChat().messages
    ensures |QuickQuestion(InitialChat(), "wifi", now).messages| == 2
  {
    assert !IsBlank("wifi") by {
      assert !IsJsWhitespace("wifi"[0]);
      BlankIffAllWhitespace("wifi");
    }
    QuickQuestionIsLost(InitialChat(), "wifi", now);
  }

  /** The page's state. */
  class ChatbotPage {
    var messages: seq<Message>
    var currentMessage: string
    var loading: bool

    function State(): ChatState
      reads this
    {
      ChatState(messages, currentMessage, loading)
    }

    constructor ()
      ensures State() == InitialChat()
    {
      messages := [Message("1", GreetingKey, FromBot)];
      currentMessage := "";
      loading := false;
    }

    /** The input box's `onChange`. */
    method SetCurrentMessage(text: string)
      modifies this`currentMessage
      ensures currentMessage == text
    {
      currentMessage := text;
    }

    /** The send itself, for the input text `text` a render saw; returns the
        text the reply will quote, or nothing when nothing was sent. */
    method Send(text: string, now: nat) returns (pending: Option<string>)
      modifies this
      ensures State() == AfterSend(old(State()), text, now)
      ensures pending == if IsBlank(text) then None else Some(text)
      ensures messages[..|old(messages)|] == old(messages)
    {
      if IsBlank(text) {
        return None;
      }
      messages := messages + [Message(NatToString(now), text, FromUser)];
      currentMessage := "";
      loading := true;
      pending := Some(text);
    }

    /** `handleSendMessage`, reading the input box. */
    method HandleSendMessage(now: nat) returns (pending: Option<string>)
      modifies this
      ensures State() == AfterSend(old(State()), old(currentMessage), now)
      ensures pending == if IsBlank(old(currentMessage)) then None else Some(old(currentMessage))
      ensures messages[..|old(messages)|] == old(messages)
    {
      pending := Send(currentMessage, now);
    }

    /** The timer's continuation after a send of `sent`. */
    method DeliverReply(sent: string, replyAt: nat)
      modifies this`messages, this`loading
      ensures State() == AfterReply(old(State()), sent, replyAt)
      ensures messages[..|old(messages)|] == old(messages)
    {
      messages := messages + [Message(NatToString(replyAt + 1), BotReply(sent), FromBot)];
      loading := false;
    }

    /** `handleKeyPress`: Enter without Shift sends, any other key does
        nothing. */
    method HandleKeyPress(key: string, shiftKey: bool, now: nat) returns (pending: Option<string>)
      modifies this
      ensures key == "Enter" && !shiftKey ==> State() == AfterSend(old(State()), old(currentMessage), now)
      ensures !(key == "Enter" && !shiftKey) ==> State() == old(State()) && pending.None?
    {
      if key == "Enter" && !shiftKey {
        pending := HandleSendMessage(now);
      } else {
        pending := None;
      }
    }

    /** `handleQuickQuestion` as written: the send sees the input of the
        render the click happened in. */
    method HandleQuickQuestionAsWritten(question: string, now: nat) returns (pending: Option<string>)
      modifies this
      ensures State() == QuickQuestionAsWritten(old(State()), question, now)
    {
      var rendered := currentMessage;
      currentMessage := question;
      pending := Send(rendered, now);
    }

    /** `handleQuickQuestion` as intended: the question is sent. */
    method HandleQuickQuestion(question: string, now: nat) returns (pending: Option<string>)
      modifies this
      ensures State() == QuickQuestion(old(State()), question, now)
      ensures pending == if IsBlank(question) then None else Some(question)
    {
      currentMessage := question;
      pending := Send(question, now);
    }
  }
}
