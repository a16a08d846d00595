/*
 * The chat widget's session state (`chatbotState`) and the handlers that
 * change it: opening and closing the window, appending bot and user
 * messages, sending a message and receiving a new prediction. The page
 * itself (elements, focus, scrolling, the reply delays) is not modelled;
 * each random draw of the source is a parameter chosen by the caller.
 */
module ChatSession {
  import opened Wrappers
  import opened Text
  import opened Chatbot

  datatype Sender = Bot | User

  /** One entry of `chatbotState.messages`. */
  datatype Message = Message(sender: Sender, text: string)

  /** A user message as `sendMessage` records it: not blank, and neither starting nor ending with whitespace. */
  predicate IsTrimmedText(s: string)
  {
    s != [] && !IsSpace(s[0]) && !IsSpace(s[|s| - 1])
  }

  class Session {
    var isOpen: bool
    var messages: seq<Message>
    var currentPrediction: Option<Prediction>
    var askedAboutAccuracy: bool
    var askedAboutTrust: bool
    /** The user messages that raised the two flags (bookkeeping of the model only). */
    ghost var accuracyQuestion: string
    ghost var trustQuestion: string

    /**
     * Every user message is trimmed and non-blank, and each raised flag is
     * backed by a user message that raises it.
     */
    ghost predicate Valid()
      reads this`messages, this`askedAboutAccuracy, this`askedAboutTrust, this`accuracyQuestion, this`trustQuestion
    {
      (forall i | 0 <= i < |messages| && messages[i].sender == User :: IsTrimmedText(messages[i].text)) &&
      (askedAboutAccuracy ==> Message(User, accuracyQuestion) in messages && SetsAccuracyFlag(accuracyQuestion)) &&
      (askedAboutTrust ==> Message(User, trustQuestion) in messages && SetsTrustFlag(trustQuestion))
    }

    /** The initial `chatbotState`. */
    constructor()
      ensures Valid()
      ensures !isOpen && messages == [] && currentPrediction == None
      ensures !askedAboutAccuracy && !askedAboutTrust
    {
      isOpen := false;
      messages := [];
      currentPrediction := None;
      askedAboutAccuracy := false;
      askedAboutTrust := false;
    }

    /** `addBotMessage`: the message joins the history. */
    method AddBotMessage(text: string)
      modifies this`messages
      ensures messages == old(messages) + [Message(Bot, text)]
      ensures isOpen == old(isOpen) && currentPrediction == old(currentPrediction)
      ensures askedAboutAccuracy == old(askedAboutAccuracy) && askedAboutTrust == old(askedAboutTrust)
      ensures old(Valid()) ==> Valid()
    {
      messages := messages + [Message(Bot, text)];
    }

    /** `addUserMessage`: the message joins the history. */
    method AddUserMessage(text: string)
      modifies this`messages
      ensures messages == old(messages) + [Message(User, text)]
      ensures isOpen == old(isOpen) && currentPrediction == old(currentPrediction)
      ensures askedAboutAccuracy == old(askedAboutAccuracy) && askedAboutTrust == old(askedAboutTrust)
      ensures old(Valid()) && IsTrimmedText(text) ==> Valid()
    {
      messages := messages + [Message(User, text)];
    }

    /** `closeChatbot` */
    method Close()
      modifies this`isOpen
      ensures !isOpen
      ensures messages == old(messages) && currentPrediction == old(currentPrediction)
      ensures askedAboutAccuracy == old(askedAboutAccuracy) && askedAboutTrust == old(askedAboutTrust)
      ensures old(Valid()) ==> Valid()
    {
      isOpen := false;
    }

    /**
     * `toggleChatbot`: closes an open window; opens a closed one and greets
     * only when the conversation is still empty, so a greeting can only ever
     * be the first message.
     */
    method Toggle(greetingPick: nat)
      requires greetingPick < |Greetings|
      modifies this`isOpen, this`messages
      ensures isOpen == !old(isOpen)
      ensures messages == old(messages) +
        (if !old(isOpen) && old(messages) == [] then [Message(Bot, Greeting(greetingPick))] else [])
      ensures currentPrediction == old(currentPrediction)
      ensures askedAboutAccuracy == old(askedAboutAccuracy) && askedAboutTrust == old(askedAboutTrust)
      ensures old(Valid()) ==> Valid()
    {
      if isOpen {
        Close();
      } else {
        isOpen := true;
        if |messages| == 0 {
          AddBotMessage(Greeting(greetingPick));
        }
      }
    }

    /** The two flags `answerCommonQuestion` raises when it answers about accuracy or trust. */
    method RecordQuestion(message: string)
      modifies this`askedAboutAccuracy, this`askedAboutTrust, this`accuracyQuestion, this`trustQuestion
      ensures askedAboutAccuracy == (old(askedAboutAccuracy) || SetsAccuracyFlag(message))
      ensures askedAboutTrust == (old(askedAboutTrust) || SetsTrustFlag(message))
      ensures messages == old(messages) && isOpen == old(isOpen) && currentPrediction == old(currentPrediction)
      ensures old(Valid()) && |messages| > 0 && messages[|messages| - 1] == Message(User, message) ==> Valid()
    {
      FlagsFollowTheirAnswers(message, 0);
      if SetsAccuracyFlag(message) {
        askedAboutAccuracy := true;
        accuracyQuestion := message;
      } else if SetsTrustFlag(message) {
        askedAboutTrust := true;
        trustQuestion := message;
      }
      if |messages| > 0 && messages[|messages| - 1] == Message(User, message) {
        assert Message(User, message) in messages;
      }
    }

    /**
     * `processChatInput` on the session: its reply (None where it returns
     * `null`), and the flags it raises.
     */
    method ProcessChatInput(message: string, p: Prediction, replyPick: nat) returns (response: Option<string>)
      requires replyPick < 3
      modifies this`askedAboutAccuracy, this`askedAboutTrust, this`accuracyQuestion, this`trustQuestion
      ensures response == ChatReply(message, p, replyPick)
      ensures askedAboutAccuracy == (old(askedAboutAccuracy) || SetsAccuracyFlag(message))
      ensures askedAboutTrust == (old(askedAboutTrust) || SetsTrustFlag(message))
      ensures messages == old(messages) && isOpen == old(isOpen) && currentPrediction == old(currentPrediction)
      ensures old(Valid()) && |messages| > 0 && messages[|messages| - 1] == Message(User, message) ==> Valid()
    {
      RecordQuestion(message);
      response := ChatReply(message, p, replyPick);
    }

    /**
     * The synchronous part of `sendMessage`: a blank input changes nothing;
     * otherwise the trimmed input joins the history, and either the request
     * for a prediction follows it at once or the reply of `processChatInput`
     * (possibly `null`) is computed, raising the flags, and returned for
     * DeliverReply.
     */
    method SendMessage(input: string, replyPick: nat) returns (pending: Option<Option<string>>)
      requires Valid()
      requires replyPick < 3
      modifies this`messages, this`askedAboutAccuracy, this`askedAboutTrust, this`accuracyQuestion, this`trustQuestion
      ensures Valid()
      ensures isOpen == old(isOpen) && currentPrediction == old(currentPrediction)
      ensures AllSpace(input) ==>
        pending == None && messages == old(messages) &&
        askedAboutAccuracy == old(askedAboutAccuracy) && askedAboutTrust == old(askedAboutTrust)
      ensures !AllSpace(input) && old(currentPrediction).None? ==>
        pending == None &&
        messages == old(messages) + [Message(User, Trim(input)), Message(Bot, NoPredictionMessage)] &&
        askedAboutAccuracy == old(askedAboutAccuracy) && askedAboutTrust == old(askedAboutTrust)
      ensures !AllSpace(input) && old(currentPrediction).Some? ==>
        pending == Some(ChatReply(Trim(input), old(currentPrediction).value, replyPick)) &&
        messages == old(messages) + [Message(User, Trim(input))] &&
        askedAboutAccuracy == (old(askedAboutAccuracy) || SetsAccuracyFlag(Trim(input))) &&
        askedAboutTrust == (old(askedAboutTrust) || SetsTrustFlag(Trim(input)))
    {
      var message := Trim(input);
      TrimSpec(input);
      if message == [] {
        return None;
      }
      TrimIdempotent(input);
      AddUserMessage(message);
      var prediction := currentPrediction;
      if prediction.None? {
        AddBotMessage(NoPredictionMessage);
        return None;
      }
      var response := ProcessChatInput(message, prediction.value, replyPick);
      pending := Some(response);
    }

    /**
     * The delayed part of `sendMessage`. A reply joins the history, followed
     * by a follow-up prompt when the caller's coin says so. A `null` reply
     * makes `formatMessage` throw inside `addBotMessage` before anything is
     * recorded, so neither the reply nor a follow-up joins the history.
     */
    method DeliverReply(response: Option<string>, followUp: bool, followUpPick: nat)
      requires followUpPick < |FollowUpPrompts|
      modifies this`messages
      ensures response.None? ==> messages == old(messages)
      ensures response.Some? ==>
        messages == old(messages) + [Message(Bot, response.value)] +
                    (if followUp then [Message(Bot, FollowUpPrompt(followUpPick))] else [])
      ensures isOpen == old(isOpen) && currentPrediction == old(currentPrediction)
      ensures askedAboutAccuracy == old(askedAboutAccuracy) && askedAboutTrust == old(askedAboutTrust)
      ensures old(Valid()) ==> Valid()
    {
      if response.None? {
        return;
      }
      AddBotMessage(response.value);
      if followUp {
        AddBotMessage(FollowUpPrompt(followUpPick));
      }
    }

    /**
     * `updateChatbotWithPrediction`: the prediction becomes current, and an
     * open window shows its full explanation.
     */
    method UpdateWithPrediction(p: Prediction)
      modifies this`currentPrediction, this`messages
      ensures currentPrediction == Some(p)
      ensures messages == old(messages) + (if old(isOpen) then [Message(Bot, PredictionExplanation(p))] else [])
      ensures isOpen == old(isOpen)
      ensures askedAboutAccuracy == old(askedAboutAccuracy) && askedAboutTrust == old(askedAboutTrust)
      ensures old(Valid()) ==> Valid()
    {
      currentPrediction := Some(p);
      if isOpen {
        var explanation := GeneratePredictionExplanation(p);
        AddBotMessage(explanation);
      }
    }
  }
}
