/**
 * The chat assistant: a message log that starts with a greeting and only grows, a send action that
 * ignores blank input, and a keyword classifier that picks the canned reply.
 */
module Assistant {
  import opened Wrappers
  import Text

  datatype Sender = UserSender | Ai

  datatype Message = Message(id: string, sender: Sender, text: string)

  const Greeting := Message("1", Ai, "Hi! I'm your CampusOps AI assistant. How can I help you today?")

  const WaterReply := "For water related issues, please select 'Drinking Water Issue' or 'Water Related Issue' from the service menu. Would you like me to guide you to the request form?"
  const IdCardReply := "ID Card issues are handled by the Admin block. You can submit a request here and track the status."
  const RaggingReply := "We take ragging very seriously. Please submit a 'Ragging / Harassment' report immediately. It will be prioritized."
  const DefaultReply := "I can help you with that. Please verify the details in the dashboard."

  /** What a message is about, in the order the keywords are tried. */
  datatype Topic = Water | IdCard | Ragging | General

  predicate Mentions(text: string, keyword: string) {
    Text.Contains(Text.Lower(text), keyword)
  }

  /**
   * "water" wins over "id card", which wins over "ragging"; a message with none of them is general.
   * The keywords are matched in the lower-cased text.
   */
  function Classify(text: string): (t: Topic)
    ensures t == Water <==> Mentions(text, "water")
    ensures t == IdCard <==> !Mentions(text, "water") && Mentions(text, "id card")
    ensures t == Ragging <==> !Mentions(text, "water") && !Mentions(text, "id card") && Mentions(text, "ragging")
    ensures t == General <==> !Mentions(text, "water") && !Mentions(text, "id card") && !Mentions(text, "ragging")
  {
    if Mentions(text, "water") then Water
    else if Mentions(text, "id card") then IdCard
    else if Mentions(text, "ragging") then Ragging
    else General
  }

  function ReplyText(t: Topic): string {
    match t
    case Water => WaterReply
    case IdCard => IdCardReply
    case Ragging => RaggingReply
    case General => DefaultReply
  }

  /** The classification does not depend on letter case. */
  lemma ClassifyIgnoresCase(text: string)
    ensures Classify(Text.Lower(text)) == Classify(text)
  {
    Text.LowerIdempotent(text);
  }

  /** `!inputValue.trim()`: empty or whitespace only. */
  predicate Blank(s: string) {
    Text.Trim(s) == []
  }

  lemma BlankIff(s: string)
    ensures Blank(s) <==> Text.AllWhitespace(s)
  {
    Text.TrimEmptyIff(s);
  }

  class ChatWindow {
    var isOpen: bool
    var messages: seq<Message>
    var inputValue: string
    /** The user messages whose reply timer has not fired yet, oldest first. */
    var awaitingReply: seq<Message>

    /** The log starts with the greeting. */
    ghost predicate Valid()
      reads this
    {
      |messages| >= 1 && messages[0] == Greeting
    }

    constructor ()
      ensures Valid()
      ensures !isOpen && messages == [Greeting] && inputValue == "" && awaitingReply == []
    {
      isOpen := false;
      messages := [Greeting];
      inputValue := "";
      awaitingReply := [];
    }

    /** The floating button. */
    method Toggle()
      modifies this`isOpen
      ensures isOpen == !old(isOpen)
    {
      isOpen := !isOpen;
    }

    /** The header's close button. */
    method Close()
      modifies this`isOpen
      ensures !isOpen
    {
      isOpen := false;
    }

    method SetInput(v: string)
      modifies this`inputValue
      ensures inputValue == v
    {
      inputValue := v;
    }

    /** The send button's `disabled`. */
    predicate SendDisabled()
      reads this
    {
      Blank(inputValue)
    }

    /**
     * `handleSend`: blank input changes nothing. Otherwise the text as typed, untrimmed, is appended
     * as a user message, the input is cleared and a reply is scheduled.
     */
    method Send(freshId: string)
      requires Valid()
      modifies this`messages, this`inputValue, this`awaitingReply
      ensures Valid()
      ensures Blank(old(inputValue)) ==>
                messages == old(messages) && inputValue == old(inputValue) && awaitingReply == old(awaitingReply)
      ensures !Blank(old(inputValue)) ==>
                && messages == old(messages) + [Message(freshId, UserSender, old(inputValue))]
                && inputValue == ""
                && awaitingReply == old(awaitingReply) + [Message(freshId, UserSender, old(inputValue))]
    {
      if Blank(inputValue) {
        return;
      }
      var userMsg := Message(freshId, UserSender, inputValue);
      messages := messages + [userMsg];
      inputValue := "";
      awaitingReply := awaitingReply + [userMsg];
    }

    /** The oldest reply timer fires and appends the reply chosen for that message's text. */
    method ReplyArrives(freshId: string)
      requires Valid()
      modifies this`messages, this`awaitingReply
      ensures Valid()
      ensures old(awaitingReply) == [] ==> messages == old(messages) && awaitingReply == []
      ensures old(awaitingReply) != [] ==>
                && messages == old(messages) + [Message(freshId, Ai, ReplyText(Classify(old(awaitingReply)[0].text)))]
                && awaitingReply == old(awaitingReply)[1..]
    {
      if awaitingReply == [] {
        return;
      }
      var text := awaitingReply[0].text;
      var response := DefaultReply;
      if Mentions(text, "water") {
        response := WaterReply;
      } else if Mentions(text, "id card") {
        response := IdCardReply;
      } else if Mentions(text, "ragging") {
        response := RaggingReply;
      }
      messages := messages + [Message(freshId, Ai, response)];
      awaitingReply := awaitingReply[1..];
    }
  }
}
