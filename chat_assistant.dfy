/**
 * The merchant assistant component's state and its handlers
 * (ai-chatbot/ai-chatbot/src/components/AICHATBOT.js): sending a message,
 * uploading a product image and clearing the history. React's state setters
 * become field assignments; the 800 ms reply delay is a step of the send.
 */
module ChatAssistant {
  import opened Wrappers
  import opened Js
  import opened Chatbot

  /** A timestamp, as `new Date().toISOString()` stamps it. */
  type Time = nat

  datatype Message =
    | Intro(lang: Lang, at: Time)             // the greeting in the current language
    | UserMessage(text: string, at: Time)
    | AiMessage(reply: Reply, at: Time)

  /** One exchange as the history keeps it. */
  datatype HistoryEntry = HistoryEntry(user: string, ai: Reply, timestamp: Time, language: Lang)

  /**
   * What the reply timer's closure holds: the sent text, its language, the
   * user's message, the message list and whether an image was set, all as
   * they were when the message was sent.
   */
  datatype PendingReply = PendingReply(text: string, lang: Lang, userMessage: Message, snapshot: seq<Message>,
                                       hadImage: bool, sales: SalesData)

  /** `handleAIResponse(input, detectedLang)` as the closure evaluates it. */
  function Answer(p: PendingReply, cal: Calendar): Reply {
    AIResponse(p.text, p.lang, p.hadImage, p.sales, cal)
  }

  /** The chosen file's size in bytes and its MIME type. */
  datatype ImageFile = ImageFile(size: nat, mimeType: string)

  /** The upload limit, 5 MB. */
  const MaxImageSize: nat := 5 * 1024 * 1024

  /** `file.type.match('image.*')`: the type mentions `image` anywhere. */
  predicate IsImageType(mimeType: string) {
    Includes(mimeType, "image")
  }

  class Assistant {
    var messages: seq<Message>
    var input: string
    var image: Option<string>        // the object URL of the uploaded image, if any
    var history: seq<HistoryEntry>
    var recognitionError: Option<string>
    var currentLanguage: Lang
    var sales: SalesData

    /** Mounting: the English greeting, the saved history, and the mocked sales figures. */
    constructor (now: Time, savedHistory: seq<HistoryEntry>)
      ensures messages == [Intro(En, now)] && input == "" && image == None
      ensures history == savedHistory && recognitionError == None
      ensures currentLanguage == En && sales == MockSales
    {
      messages := [Intro(En, now)];
      input := "";
      image := None;
      history := savedHistory;
      recognitionError := None;
      currentLanguage := En;
      sales := MockSales;
    }

    /** The text box's `onChange`: the input is replaced. */
    method SetInput(text: string)
      modifies this
      ensures input == text
      ensures messages == old(messages) && image == old(image) && history == old(history)
      ensures recognitionError == old(recognitionError) && currentLanguage == old(currentLanguage) && sales == old(sales)
    {
      input := text;
    }

    /**
     * `handleSend`: blank input does nothing; otherwise the language is
     * detected, the user's message is appended and the input is cleared. When
     * the detected language differs from the current one, the greeting effect
     * that watches the language then replaces the whole list by the greeting
     * in the new language. The reply is scheduled: the returned closure holds
     * the text, the language, the message list and the image as they were at
     * this moment.
     */
    method HandleSend(now: Time) returns (pending: Option<PendingReply>)
      modifies this
      ensures AllWhiteSpace(old(input)) ==> unchanged(this) && pending == None
      ensures !AllWhiteSpace(old(input)) ==>
        && pending == Some(PendingReply(old(input), DetectLanguage(old(input)), UserMessage(old(input), now),
                                        old(messages), old(image).Some?, old(sales)))
        && currentLanguage == pending.value.lang
        && messages == (if pending.value.lang == old(currentLanguage) then old(messages) + [pending.value.userMessage]
                        else [Intro(pending.value.lang, now)])
        && input == "" && image == old(image) && history == old(history)
        && recognitionError == old(recognitionError) && sales == old(sales)
    {
      // `input.trim()` is empty exactly when the input is all white space (the contract of Trim).
      if AllWhiteSpace(input) {
        return None;
      }
      var detectedLang := DetectLanguage(input);
      var userMessage := UserMessage(input, now);
      pending := Some(PendingReply(input, detectedLang, userMessage, messages, image.Some?, sales));
      messages := messages + [userMessage];
      if detectedLang != currentLanguage {
        // the effect on `currentLanguage` runs after this render
        messages := [Intro(detectedLang, now)];
      }
      currentLanguage := detectedLang;
      input := "";
    }

    /**
     * The scheduled reply, 800 ms later: the message list becomes the one the
     * closure holds followed by the user's message and the reply, whatever
     * was appended meanwhile; one history entry is added to the current
     * history; an image present at the send is cleared.
     */
    method ReplyArrives(p: PendingReply, now: Time, cal: Calendar)
      modifies this
      ensures messages == p.snapshot + [p.userMessage, AiMessage(Answer(p, cal), now)]
      ensures history == old(history) + [HistoryEntry(p.text, Answer(p, cal), now, p.lang)]
      ensures image == if p.hadImage then None else old(image)
      ensures input == old(input) && recognitionError == old(recognitionError)
      ensures currentLanguage == old(currentLanguage) && sales == old(sales)
    {
      var aiResponse := Answer(p, cal);
      messages := p.snapshot + [p.userMessage, AiMessage(aiResponse, now)];
      history := history + [HistoryEntry(p.text, aiResponse, now, p.lang)];
      if p.hadImage {
        image := None;
      }
    }

    /** The reply appended to the current list instead, as a functional update would. */
    method ReplyArrivesAppended(p: PendingReply, now: Time, cal: Calendar)
      modifies this
      ensures messages == old(messages) + [AiMessage(Answer(p, cal), now)]
      ensures history == old(history) + [HistoryEntry(p.text, Answer(p, cal), now, p.lang)]
      ensures image == if p.hadImage then None else old(image)
      ensures input == old(input) && recognitionError == old(recognitionError)
      ensures currentLanguage == old(currentLanguage) && sales == old(sales)
    {
      var aiResponse := Answer(p, cal);
      messages := messages + [AiMessage(aiResponse, now)];
      history := history + [HistoryEntry(p.text, aiResponse, now, p.lang)];
      if p.hadImage {
        image := None;
      }
    }

    /**
     * `handleUploadImage`: an oversized file is refused before its type is
     * looked at, a file that is not an image is refused, and a refusal leaves
     * the image as it was; an accepted file replaces the image and clears the
     * error.
     */
    method HandleUploadImage(file: Option<ImageFile>, url: string)
      modifies this
      ensures messages == old(messages) && input == old(input) && history == old(history)
      ensures currentLanguage == old(currentLanguage) && sales == old(sales)
      ensures file.None? ==> image == old(image) && recognitionError == old(recognitionError)
      ensures file.Some? && file.value.size > MaxImageSize ==>
        image == old(image) && recognitionError == Some(TooLargeText(currentLanguage))
      ensures file.Some? && file.value.size <= MaxImageSize && !IsImageType(file.value.mimeType) ==>
        image == old(image) && recognitionError == Some(NotAnImageText(currentLanguage))
      ensures file.Some? && file.value.size <= MaxImageSize && IsImageType(file.value.mimeType) ==>
        image == Some(url) && recognitionError == None
    {
      if file.Some? {
        if file.value.size > 5 * 1024 * 1024 {
          recognitionError := Some(TooLargeText(currentLanguage));
          return;
        }
        if !Includes(file.value.mimeType, "image") {
          recognitionError := Some(NotAnImageText(currentLanguage));
          return;
        }
        image := Some(url);
        recognitionError := None;
      }
    }

    /** `clearHistory`: asks in the current language; the history empties only on confirmation. */
    method ClearHistory(confirmed: bool) returns (prompt: string)
      modifies this
      ensures prompt == ClearHistoryPrompt(currentLanguage)
      ensures history == (if confirmed then [] else old(history))
      ensures messages == old(messages) && input == old(input) && image == old(image)
      ensures recognitionError == old(recognitionError) && currentLanguage == old(currentLanguage) && sales == old(sales)
    {
      prompt := ClearHistoryPrompt(currentLanguage);
      if confirmed {
        history := [];
      }
    }
  }

  /**
   * Two messages sent less than 800 ms apart: each reply restores the list
   * its closure held, so the second one drops the first reply, although both
   * exchanges reach the history.
   */
  method OverlappingRepliesLoseOne(a: string, b: string, sentA: Time, sentB: Time, replyA: Time, replyB: Time,
                                   cal: Calendar)
    returns (shown: seq<Message>, saved: seq<HistoryEntry>, lost: Message)
    requires !AllWhiteSpace(a) && !AllWhiteSpace(b) && DetectLanguage(a) == En && DetectLanguage(b) == En
    requires replyA != replyB
    ensures |saved| == 2 && lost !in shown
    ensures lost == AiMessage(AIResponse(a, En, false, MockSales, cal), replyA)
  {
    var chat, pa, pb := TwoSends(a, b, sentA, sentB);
    chat.ReplyArrives(pa, replyA, cal);
    chat.ReplyArrives(pb, replyB, cal);
    shown, saved := chat.messages, chat.history;
    lost := AiMessage(Answer(pa, cal), replyA);
    assert shown == [Intro(En, sentA), UserMessage(a, sentA), UserMessage(b, sentB), AiMessage(Answer(pb, cal), replyB)];
  }

  /** With the reply appended to the current list, both exchanges stay on screen, each reply after its question. */
  method OverlappingRepliesKept(a: string, b: string, sentA: Time, sentB: Time, replyA: Time, replyB: Time,
                                cal: Calendar)
    returns (shown: seq<Message>, saved: seq<HistoryEntry>)
    requires !AllWhiteSpace(a) && !AllWhiteSpace(b) && DetectLanguage(a) == En && DetectLanguage(b) == En
    ensures |saved| == 2
    ensures shown == [Intro(En, sentA), UserMessage(a, sentA), UserMessage(b, sentB),
                      AiMessage(AIResponse(a, En, false, MockSales, cal), replyA),
                      AiMessage(AIResponse(b, En, false, MockSales, cal), replyB)]
  {
    var chat, pa, pb := TwoSends(a, b, sentA, sentB);
    chat.ReplyArrivesAppended(pa, replyA, cal);
    chat.ReplyArrivesAppended(pb, replyB, cal);
    shown, saved := chat.messages, chat.history;
  }

  /** A fresh assistant receives two English messages, the second before the first reply: both closures are pending. */
  method TwoSends(a: string, b: string, sentA: Time, sentB: Time)
    returns (chat: Assistant, pa: PendingReply, pb: PendingReply)
    requires !AllWhiteSpace(a) && !AllWhiteSpace(b) && DetectLanguage(a) == En && DetectLanguage(b) == En
    ensures fresh(chat)
    ensures chat.messages == [Intro(En, sentA), UserMessage(a, sentA), UserMessage(b, sentB)]
    ensures chat.history == [] && chat.image == None && chat.sales == MockSales
    ensures pa == PendingReply(a, En, UserMessage(a, sentA), [Intro(En, sentA)], false, MockSales)
    ensures pb == PendingReply(b, En, UserMessage(b, sentB),
                               [Intro(En, sentA), UserMessage(a, sentA)], false, MockSales)
  {
    chat := new Assistant(sentA, []);
    chat.SetInput(a);
    var first := chat.HandleSend(sentA);
    pa := first.value;
    chat.SetInput(b);
    var second := chat.HandleSend(sentB);
    pb := second.value;
  }

  /**
   * A first message in Malay or Chinese: until the reply, only the greeting
   * in the new language is shown, without the question; the reply then
   * restores the English greeting, followed by the question and its answer.
   */
  method FirstMessageInAnotherLanguage(text: string, mounted: Time, sent: Time, replied: Time, cal: Calendar)
    returns (waiting: seq<Message>, shown: seq<Message>)
    requires !AllWhiteSpace(text) && DetectLanguage(text) != En
    ensures waiting == [Intro(DetectLanguage(text), sent)]
    ensures shown == [Intro(En, mounted), UserMessage(text, sent),
                      AiMessage(AIResponse(text, DetectLanguage(text), false, MockSales, cal), replied)]
  {
    var chat := new Assistant(mounted, []);
    chat.SetInput(text);
    var p := chat.HandleSend(sent);
    waiting := chat.messages;
    chat.ReplyArrives(p.value, replied, cal);
    shown := chat.messages;
  }
}
