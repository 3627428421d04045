/**
 * The floating chat assistant: the icon that moves between two anchors as the page
 * scrolls, the chat window's input form, and the controller that owns the transcript,
 * the loading flag and the handle of the remote chat session.
 *
 * The remote model is not modelled: a session is an opaque number, and what the remote
 * call yields is an `Outcome` passed in by the caller. A send runs as one atomic step.
 */
module ChatbotAI {
  import opened Wrappers
  import opened Whitespace

  // ---------------------------------------------------------------------------
  // The floating icon

  /** Where the icon is pinned: `top: 70vh` or `bottom: 2rem`. */
  datatype Anchor = Top | Bottom

  /**
   * The largest scroll offset at which the icon still fits above the end of the page: at
   * that offset the window's bottom edge is exactly the icon's height above the page's end.
   */
  function MaxScroll(scrollHeight: int, innerHeight: int, containerHeight: int): (m: int)
    ensures m + innerHeight + containerHeight == scrollHeight
  {
    scrollHeight - innerHeight - containerHeight
  }

  /** The anchor chosen for a scroll position: the bottom one only past `MaxScroll`. */
  function AnchorFor(scrollY: int, scrollHeight: int, innerHeight: int, containerHeight: int): (a: Anchor)
    ensures a == Bottom <==> scrollY > scrollHeight - innerHeight - containerHeight
    ensures a == Top <==> scrollY <= scrollHeight - innerHeight - containerHeight
  {
    if scrollY > MaxScroll(scrollHeight, innerHeight, containerHeight) then Bottom else Top
  }

  /** Scrolling further down never moves the icon from the bottom anchor back to the top one. */
  lemma AnchorMonotone(y1: int, y2: int, scrollHeight: int, innerHeight: int, containerHeight: int)
    requires y1 <= y2
    requires AnchorFor(y1, scrollHeight, innerHeight, containerHeight) == Bottom
    ensures AnchorFor(y2, scrollHeight, innerHeight, containerHeight) == Bottom
  {
  }

  /** At exactly `MaxScroll` the icon stays at the top anchor: the comparison is strict. */
  lemma AnchorTieIsTop(scrollHeight: int, innerHeight: int, containerHeight: int)
    ensures AnchorFor(MaxScroll(scrollHeight, innerHeight, containerHeight), scrollHeight, innerHeight, containerHeight) == Top
    ensures AnchorFor(MaxScroll(scrollHeight, innerHeight, containerHeight) + 1, scrollHeight, innerHeight, containerHeight) == Bottom
  {
  }

  /** A page 3000 high in an 800-high window with the 120-high icon: `MaxScroll` is 2080. */
  lemma AnchorExample()
    ensures MaxScroll(3000, 800, 120) == 2080
    ensures AnchorFor(2000, 3000, 800, 120) == Top
    ensures AnchorFor(2080, 3000, 800, 120) == Top
    ensures AnchorFor(2100, 3000, 800, 120) == Bottom
  {
  }

  /** The icon component; only its anchor is modelled. */
  class FloatingAssistant {
    var position: Anchor

    /** The icon starts at the top anchor. */
    constructor()
      ensures position == Top
    {
      position := Top;
    }

    /**
     * The scroll listener. `containerHeight` is the icon's height, or None while the icon
     * is not mounted, in which case the listener returns at once.
     */
    method HandleScroll(scrollY: int, scrollHeight: int, innerHeight: int, containerHeight: Option<int>)
      modifies this
      ensures containerHeight.None? ==> position == old(position)
      ensures containerHeight.Some? ==> position == AnchorFor(scrollY, scrollHeight, innerHeight, containerHeight.value)
    {
      if containerHeight.None? {
        return;
      }
      var maxScroll := scrollHeight - innerHeight - containerHeight.value;
      if scrollY > maxScroll {
        position := Bottom;
      } else {
        position := Top;
      }
    }
  }

  // ---------------------------------------------------------------------------
  // Messages and the transcript

  /** One entry of the transcript: `isUser` for the user's questions, false for the assistant. */
  datatype Message = Message(text: string, isUser: bool)

  /** What the remote call for one message yields: the reply text, or any error. */
  datatype Outcome = Reply(text: string) | Fail

  /** The remote chat session; its identity is all the model keeps. */
  type SessionId = nat

  /** The fixed message shown instead of an answer whenever a send fails. */
  const Apology: string := "Xin lỗi, đã có lỗi xảy ra khi xử lý tin nhắn của bạn."

  /**
   * The messages one send appends. With a session, the user's message and then the reply,
   * or the apology if the call failed; without a session the send fails before the user's
   * message is appended, and only the apology is.
   */
  function Exchange(chat: Option<SessionId>, text: string, outcome: Outcome): (e: seq<Message>)
    ensures |e| == (if chat.Some? then 2 else 1)
    ensures chat.Some? ==> e[0] == Message(text, true)
    ensures !e[|e| - 1].isUser
    ensures e[|e| - 1].text == (if chat.Some? && outcome.Reply? then outcome.text else Apology)
  {
    if chat.None? then [Message(Apology, false)]
    else
      match outcome
      case Reply(answer) => [Message(text, true), Message(answer, false)]
      case Fail => [Message(text, true), Message(Apology, false)]
  }

  /** The texts of the user's messages, in order. */
  function UserTexts(t: seq<Message>): seq<string> {
    if t == [] then [] else (if t[0].isUser then [t[0].text] else []) + UserTexts(t[1..])
  }

  /** The number of assistant messages. */
  function Replies(t: seq<Message>): nat {
    if t == [] then 0 else (if t[0].isUser then 0 else 1) + Replies(t[1..])
  }

  /** Every user message is followed at once by an assistant message. */
  predicate Answered(t: seq<Message>) {
    forall i :: 0 <= i < |t| && t[i].isUser ==> i + 1 < |t| && !t[i + 1].isUser
  }

  /** Every assistant message is a reply the remote model gave or the apology. */
  predicate RepliesFrom(t: seq<Message>, answers: set<string>) {
    forall i :: 0 <= i < |t| && !t[i].isUser ==> t[i].text in answers || t[i].text == Apology
  }

  lemma {:induction false} UserTextsAppend(a: seq<Message>, b: seq<Message>)
    ensures UserTexts(a + b) == UserTexts(a) + UserTexts(b)
    decreases |a|
  {
    if a == [] {
      assert a + b == b;
    } else {
      UserTextsAppend(a[1..], b);
      var head := if a[0].isUser then [a[0].text] else [];
      assert (a + b)[0] == a[0] && (a + b)[1..] == a[1..] + b;
      assert UserTexts(a + b) == head + (UserTexts(a[1..]) + UserTexts(b));
      assert head + (UserTexts(a[1..]) + UserTexts(b)) == (head + UserTexts(a[1..])) + UserTexts(b);
    }
  }

  lemma {:induction false} RepliesAppend(a: seq<Message>, b: seq<Message>)
    ensures Replies(a + b) == Replies(a) + Replies(b)
    decreases |a|
  {
    if a == [] {
      assert a + b == b;
    } else {
      RepliesAppend(a[1..], b);
      assert (a + b)[0] == a[0] && (a + b)[1..] == a[1..] + b;
    }
  }

  /** The messages of one send: the user's text if there is a session, and one assistant message. */
  lemma ExchangeCounts(chat: Option<SessionId>, text: string, outcome: Outcome)
    ensures UserTexts(Exchange(chat, text, outcome)) == (if chat.Some? then [text] else [])
    ensures Replies(Exchange(chat, text, outcome)) == 1
  {
    var e := Exchange(chat, text, outcome);
    if chat.Some? {
      var answer := e[1];
      assert !answer.isUser && e[1..] == [answer];
      var one := [answer];
      assert one[0] == answer && one[1..] == [];
      assert UserTexts(one) == [] + UserTexts(one[1..]) == [];
      assert Replies(one) == 1 + Replies(one[1..]) == 1;
      assert UserTexts(e) == [text] + UserTexts(one);
    } else {
      assert e[1..] == [];
    }
  }

  /**
   * A send adds the text to the user's messages exactly when there is a session, adds
   * exactly one assistant message either way, and leaves the earlier messages as they were.
   */
  lemma ExchangeEffect(t: seq<Message>, chat: Option<SessionId>, text: string, outcome: Outcome)
    ensures UserTexts(t + Exchange(chat, text, outcome)) == UserTexts(t) + (if chat.Some? then [text] else [])
    ensures Replies(t + Exchange(chat, text, outcome)) == Replies(t) + 1
    ensures (t + Exchange(chat, text, outcome))[..|t|] == t
  {
    var e := Exchange(chat, text, outcome);
    UserTextsAppend(t, e);
    RepliesAppend(t, e);
    ExchangeCounts(chat, text, outcome);
  }

  /** A send keeps every question answered at once. */
  lemma ExchangeAnswered(t: seq<Message>, chat: Option<SessionId>, text: string, outcome: Outcome)
    requires Answered(t)
    ensures Answered(t + Exchange(chat, text, outcome))
  {
  }

  /** A send never shows anything but the remote reply or the apology: never the raw error. */
  lemma ExchangeRepliesFrom(t: seq<Message>, answers: set<string>, chat: Option<SessionId>, text: string, outcome: Outcome)
    requires RepliesFrom(t, answers)
    requires outcome.Reply? ==> outcome.text in answers
    ensures RepliesFrom(t + Exchange(chat, text, outcome), answers)
  {
  }

  /** The transcript after sending `texts` one by one on the same session, with these outcomes. */
  function Conversation(chat: Option<SessionId>, texts: seq<string>, outcomes: seq<Outcome>): (t: seq<Message>)
    requires |texts| == |outcomes|
    ensures |t| == (if chat.Some? then 2 * |texts| else |texts|)
    ensures texts != [] ==> !t[|t| - 1].isUser
    decreases |texts|
  {
    if texts == [] then []
    else
      var n := |texts| - 1;
      Conversation(chat, texts[..n], outcomes[..n]) + Exchange(chat, texts[n], outcomes[n])
  }

  /** A non-empty sequence is its front followed by its last element. */
  lemma LastSplit<T>(s: seq<T>)
    requires s != []
    ensures s[..|s| - 1] + [s[|s| - 1]] == s
  {
  }

  /** With a session, the user's texts in a conversation are the texts sent, in order. */
  lemma {:induction false} ConversationUserTexts(chat: Option<SessionId>, texts: seq<string>, outcomes: seq<Outcome>)
    requires chat.Some? && |texts| == |outcomes|
    ensures UserTexts(Conversation(chat, texts, outcomes)) == texts
    decreases |texts|
  {
    if texts != [] {
      var n := |texts| - 1;
      var before := Conversation(chat, texts[..n], outcomes[..n]);
      var e := Exchange(chat, texts[n], outcomes[n]);
      assert Conversation(chat, texts, outcomes) == before + e;
      ConversationUserTexts(chat, texts[..n], outcomes[..n]);
      UserTextsAppend(before, e);
      ExchangeCounts(chat, texts[n], outcomes[n]);
      assert UserTexts(before + e) == texts[..n] + [texts[n]];
      LastSplit(texts);
    }
  }

  /** Every send adds one assistant message, with a session or without. */
  lemma {:induction false} ConversationReplies(chat: Option<SessionId>, texts: seq<string>, outcomes: seq<Outcome>)
    requires |texts| == |outcomes|
    ensures Replies(Conversation(chat, texts, outcomes)) == |texts|
    decreases |texts|
  {
    if texts != [] {
      var n := |texts| - 1;
      ConversationReplies(chat, texts[..n], outcomes[..n]);
      ExchangeEffect(Conversation(chat, texts[..n], outcomes[..n]), chat, texts[n], outcomes[n]);
    }
  }

  /** In any conversation every user message is answered at once. */
  lemma {:induction false} ConversationAnswered(chat: Option<SessionId>, texts: seq<string>, outcomes: seq<Outcome>)
    requires |texts| == |outcomes|
    ensures Answered(Conversation(chat, texts, outcomes))
    decreases |texts|
  {
    if texts != [] {
      var n := |texts| - 1;
      ConversationAnswered(chat, texts[..n], outcomes[..n]);
      ExchangeAnswered(Conversation(chat, texts[..n], outcomes[..n]), chat, texts[n], outcomes[n]);
    }
  }

  /**
   * Send i's messages sit at their place in the transcript, in call order: with a session,
   * the two messages of that send (the user's text, then the reply or the apology) at 2i and
   * 2i + 1; without one, its apology at i.
   */
  lemma ConversationTurn(chat: Option<SessionId>, texts: seq<string>, outcomes: seq<Outcome>, i: nat)
    requires |texts| == |outcomes| && i < |texts|
    ensures chat.Some? ==>
      Conversation(chat, texts, outcomes)[2 * i] == Exchange(chat, texts[i], outcomes[i])[0] &&
      Conversation(chat, texts, outcomes)[2 * i + 1] == Exchange(chat, texts[i], outcomes[i])[1]
    ensures chat.None? ==> Conversation(chat, texts, outcomes)[i] == Exchange(chat, texts[i], outcomes[i])[0]
  {
    if chat.Some? {
      SessionTurn(chat, texts, outcomes, i, texts[i], outcomes[i]);
    } else {
      ConversationWithoutSession(texts, outcomes);
    }
  }

  /** The session case of `ConversationTurn`, with send i's text and outcome named. */
  lemma {:induction false} SessionTurn(chat: Option<SessionId>, texts: seq<string>, outcomes: seq<Outcome>, i: nat, text: string, outcome: Outcome)
    requires chat.Some? && |texts| == |outcomes| && i < |texts| && texts[i] == text && outcomes[i] == outcome
    ensures Conversation(chat, texts, outcomes)[2 * i] == Exchange(chat, text, outcome)[0]
    ensures Conversation(chat, texts, outcomes)[2 * i + 1] == Exchange(chat, text, outcome)[1]
    decreases |texts|, 1
  {
    if i < |texts| - 1 {
      EarlierSessionTurn(chat, texts, outcomes, i, text, outcome);
    } else {
      LastSessionTurn(chat, texts, outcomes, text, outcome);
    }
  }

  /** A send before the last keeps its place when later sends append their messages. */
  lemma {:induction false} EarlierSessionTurn(chat: Option<SessionId>, texts: seq<string>, outcomes: seq<Outcome>, i: nat, text: string, outcome: Outcome)
    requires chat.Some? && |texts| == |outcomes| && i < |texts| - 1 && texts[i] == text && outcomes[i] == outcome
    ensures Conversation(chat, texts, outcomes)[2 * i] == Exchange(chat, text, outcome)[0]
    ensures Conversation(chat, texts, outcomes)[2 * i + 1] == Exchange(chat, text, outcome)[1]
    decreases |texts|, 0
  {
    var n := |texts| - 1;
    assert texts[..n][i] == text && outcomes[..n][i] == outcome;
    SessionTurn(chat, texts[..n], outcomes[..n], i, text, outcome);
    ConversationFront(chat, texts, outcomes, 2 * i);
    ConversationFront(chat, texts, outcomes, 2 * i + 1);
  }

  /** The last send's two messages close the transcript. */
  lemma LastSessionTurn(chat: Option<SessionId>, texts: seq<string>, outcomes: seq<Outcome>, text: string, outcome: Outcome)
    requires chat.Some? && |texts| == |outcomes| && texts != [] && texts[|texts| - 1] == text && outcomes[|texts| - 1] == outcome
    ensures Conversation(chat, texts, outcomes)[2 * (|texts| - 1)] == Exchange(chat, text, outcome)[0]
    ensures Conversation(chat, texts, outcomes)[2 * (|texts| - 1) + 1] == Exchange(chat, text, outcome)[1]
  {
    ConversationBack(chat, texts, outcomes, 0);
    ConversationBack(chat, texts, outcomes, 1);
  }

  /** A message of a conversation before the last send's messages is one of the earlier sends'. */
  lemma ConversationFront(chat: Option<SessionId>, texts: seq<string>, outcomes: seq<Outcome>, k: nat)
    requires |texts| == |outcomes| && texts != []
    requires k < |Conversation(chat, texts[..|texts| - 1], outcomes[..|texts| - 1])|
    ensures Conversation(chat, texts, outcomes)[k] == Conversation(chat, texts[..|texts| - 1], outcomes[..|texts| - 1])[k]
  {
  }

  /** The last send's messages close a conversation. */
  lemma ConversationBack(chat: Option<SessionId>, texts: seq<string>, outcomes: seq<Outcome>, j: nat)
    requires |texts| == |outcomes| && texts != []
    requires j < |Exchange(chat, texts[|texts| - 1], outcomes[|texts| - 1])|
    ensures var m := |Conversation(chat, texts[..|texts| - 1], outcomes[..|texts| - 1])|;
      Conversation(chat, texts, outcomes)[m + j] == Exchange(chat, texts[|texts| - 1], outcomes[|texts| - 1])[j]
  {
  }

  /**
   * With a session, n sends leave 2n messages: the user's texts in the order sent, each
   * answered at once, and one assistant message per send.
   */
  lemma ConversationWithSession(chat: Option<SessionId>, texts: seq<string>, outcomes: seq<Outcome>)
    requires chat.Some? && |texts| == |outcomes|
    ensures |Conversation(chat, texts, outcomes)| == 2 * |texts|
    ensures UserTexts(Conversation(chat, texts, outcomes)) == texts
    ensures Replies(Conversation(chat, texts, outcomes)) == |texts|
    ensures Answered(Conversation(chat, texts, outcomes))
    ensures forall i :: 0 <= i < |texts| ==>
      Conversation(chat, texts, outcomes)[2 * i] == Message(texts[i], true) &&
      !Conversation(chat, texts, outcomes)[2 * i + 1].isUser &&
      Conversation(chat, texts, outcomes)[2 * i + 1].text == (if outcomes[i].Reply? then outcomes[i].text else Apology)
  {
    forall i | 0 <= i < |texts|
      ensures Conversation(chat, texts, outcomes)[2 * i] == Message(texts[i], true)
      ensures !Conversation(chat, texts, outcomes)[2 * i + 1].isUser
      ensures Conversation(chat, texts, outcomes)[2 * i + 1].text == (if outcomes[i].Reply? then outcomes[i].text else Apology)
    {
      ConversationTurn(chat, texts, outcomes, i);
    }
    ConversationUserTexts(chat, texts, outcomes);
    ConversationReplies(chat, texts, outcomes);
    ConversationAnswered(chat, texts, outcomes);
  }

  /** Without a session, n sends leave n apologies and no user message. */
  lemma {:induction false} ConversationWithoutSession(texts: seq<string>, outcomes: seq<Outcome>)
    requires |texts| == |outcomes|
    ensures forall i :: 0 <= i < |texts| ==> Conversation(None, texts, outcomes)[i] == Message(Apology, false)
    decreases |texts|
  {
    if texts != [] {
      var n := |texts| - 1;
      ConversationWithoutSession(texts[..n], outcomes[..n]);
    }
  }

  // ---------------------------------------------------------------------------
  // The controller

  /** The state of the chat assistant: the window, the transcript, the loading flag and the session. */
  class FloatingAssistantChatbot {
    var isOpen: bool
    var messages: seq<Message>
    var isLoading: bool
    var chat: Option<SessionId>
    /** The next session handle to hand out; every handle handed out so far is below it. */
    var nextSession: SessionId
    /** Every value written to `isLoading`, in order. */
    ghost var loadingWrites: seq<bool>
    /** Every message sent to the remote model, with the session it was sent on. */
    ghost var requests: seq<(SessionId, string)>

    ghost predicate Valid()
      reads this
    {
      && (chat.Some? ==> chat.value < nextSession)
      && (forall r :: r in requests ==> r.0 < nextSession)
      && Answered(messages)
    }

    /** The first render: closed, no messages, not loading and no session yet. */
    constructor()
      ensures !isOpen && messages == [] && !isLoading && chat == None
      ensures loadingWrites == [] && requests == []
      ensures Valid()
    {
      isOpen := false;
      messages := [];
      isLoading := false;
      chat := None;
      nextSession := 0;
      loadingWrites := [];
      requests := [];
    }

    /**
     * The mount effect `useEffect(() => { initChat(); }, [])`: right after the first render,
     * and only then, a session is created.
     */
    method Mount()
      requires Valid() && chat.None?
      modifies this
      ensures chat.Some? && forall r :: r in requests ==> r.0 != chat.value
      ensures isOpen == old(isOpen) && messages == old(messages) && isLoading == old(isLoading)
      ensures loadingWrites == old(loadingWrites) && requests == old(requests)
      ensures Valid()
    {
      InitChat();
    }

    /** `initChat`: start a new remote session and keep its handle. */
    method InitChat()
      requires Valid()
      modifies this
      ensures chat == Some(old(nextSession)) && nextSession == old(nextSession) + 1
      ensures old(chat).Some? ==> chat.value != old(chat).value
      ensures forall r :: r in requests ==> r.0 != chat.value
      ensures isOpen == old(isOpen) && messages == old(messages) && isLoading == old(isLoading)
      ensures loadingWrites == old(loadingWrites) && requests == old(requests)
      ensures Valid()
    {
      chat := Some(nextSession);
      nextSession := nextSession + 1;
    }

    /** The icon's click handler: open the window and change nothing else. */
    method Open()
      requires Valid()
      modifies this
      ensures isOpen
      ensures messages == old(messages) && isLoading == old(isLoading) && chat == old(chat)
      ensures nextSession == old(nextSession)
      ensures loadingWrites == old(loadingWrites) && requests == old(requests)
      ensures Valid()
    {
      isOpen := true;
    }

    /**
     * `handleClose`: close the window, drop the transcript and start a new session. The
     * loading flag is left as it is.
     */
    method Close()
      requires Valid()
      modifies this
      ensures !isOpen && messages == []
      ensures chat.Some? && (old(chat).Some? ==> chat.value != old(chat).value)
      ensures forall r :: r in requests ==> r.0 != chat.value
      ensures isLoading == old(isLoading)
      ensures loadingWrites == old(loadingWrites) && requests == old(requests)
      ensures Valid()
    {
      isOpen := false;
      messages := [];
      InitChat();
    }

    /**
     * `sendMessage(text)`, where `outcome` is what the remote call yields. The flag is raised
     * and then cleared; the transcript grows by `Exchange` and keeps what it had.
     */
    method SendMessage(text: string, outcome: Outcome)
      requires Valid()
      modifies this
      ensures messages == old(messages) + Exchange(old(chat), text, outcome)
      ensures !isLoading && loadingWrites == old(loadingWrites) + [true, false]
      ensures requests == old(requests) + (if old(chat).Some? then [(old(chat).value, text)] else [])
      ensures isOpen == old(isOpen) && chat == old(chat) && nextSession == old(nextSession)
      ensures Valid()
    {
      isLoading := true;
      loadingWrites := loadingWrites + [true];
      if chat.None? {
        messages := messages + [Message(Apology, false)];
      } else {
        messages := messages + [Message(text, true)];
        requests := requests + [(chat.value, text)];
        match outcome {
          case Reply(answer) =>
            messages := messages + [Message(answer, false)];
          case Fail =>
            messages := messages + [Message(Apology, false)];
        }
      }
      isLoading := false;
      loadingWrites := loadingWrites + [false];
      ExchangeAnswered(old(messages), old(chat), text, outcome);
    }
  }

  /**
   * The component once mounted: the first render followed by its mount effect. The window is
   * closed, the transcript empty, nothing is loading, and a session already exists.
   */
  method MountedChatbot() returns (b: FloatingAssistantChatbot)
    ensures fresh(b)
    ensures !b.isOpen && b.messages == [] && !b.isLoading && b.chat.Some?
    ensures b.loadingWrites == [] && b.requests == []
    ensures b.Valid()
  {
    b := new FloatingAssistantChatbot();
    b.Mount();
  }

  // ---------------------------------------------------------------------------
  // The chat window's form

  // The four questions offered while the transcript is empty. Each is written as its first
  // character, its middle and its last character only so that the verifier can read off
  // both ends; the concatenation is the same string as on the page.
  const PromptSummary: string := "T" + "óm tắt diễn biến chính của chiến dịch Điện Biên Ph" + "ủ"
  const PromptGiap: string := "V" + "ai trò của Đại tướng Võ Nguyên Giáp trong chiến dịc" + "h"
  const PromptMeaning: string := "Ý" + " nghĩa của chiến thắng Điện Biên Ph" + "ủ"
  const PromptHardships: string := "N" + "hững khó khăn trong chiến dịch Điện Biên Ph" + "ủ"

  /** The four questions offered while the transcript is empty, in the order shown. */
  const PredefinedPrompts: seq<string> := [PromptSummary, PromptGiap, PromptMeaning, PromptHardships]

  /** What submitting the form sends for this input: the trimmed input, or nothing if it is blank. */
  function SubmittedText(input: string): (r: Option<string>)
    ensures r.None? <==> AllSpace(input)
    ensures r.Some? ==> r.value == Trim(input) && r.value != []
    ensures r.Some? ==> !IsSpace(r.value[0]) && !IsSpace(r.value[|r.value| - 1])
  {
    TrimEmptyIffAllSpace(input);
    var t := Trim(input);
    if t == [] then None else Some(t)
  }

  /** Submitting what was sent sends it again unchanged. */
  lemma SubmittedTextStable(input: string)
    requires SubmittedText(input).Some?
    ensures SubmittedText(SubmittedText(input).value) == SubmittedText(input)
  {
    TrimIdempotent(input);
  }

  /** A text with no whitespace at either end is sent exactly as it is. */
  lemma SubmitsUnchanged(text: string)
    requires text != [] && !IsSpace(text[0]) && !IsSpace(text[|text| - 1])
    ensures SubmittedText(text) == Some(text)
  {
    TrimOfTrimmed(text);
  }

  /** Every predefined prompt is sent unchanged by the form: typing it is the same as choosing it. */
  lemma PredefinedPromptSubmitsUnchanged(i: nat)
    requires i < |PredefinedPrompts|
    ensures SubmittedText(PredefinedPrompts[i]) == Some(PredefinedPrompts[i])
  {
    var p := PredefinedPrompts[i];
    if i == 0 {
      assert p[0] == 'T' && p[|p| - 1] == 'ủ';
    } else if i == 1 {
      assert p[0] == 'V' && p[|p| - 1] == 'h';
    } else if i == 2 {
      assert p[0] == 'Ý' && p[|p| - 1] == 'ủ';
    } else {
      assert p[0] == 'N' && p[|p| - 1] == 'ủ';
    }
    SubmitsUnchanged(p);
  }

  /** The chat window: the text field, and the controller its callbacks reach. */
  class ChatWindow {
    var input: string
    const bot: FloatingAssistantChatbot

    /** The text field starts empty. */
    constructor(bot: FloatingAssistantChatbot)
      ensures input == [] && this.bot == bot
    {
      input := [];
      this.bot := bot;
    }

    /** The text field's change handler. */
    method Type(text: string)
      modifies this
      ensures input == text
    {
      input := text;
    }

    /**
     * `handleSubmit`: a blank input changes nothing and sends nothing; otherwise exactly the
     * trimmed input is sent and the field is cleared. The window and the session stay.
     */
    method HandleSubmit(outcome: Outcome) returns (sent: Option<string>)
      requires bot.Valid()
      modifies this, bot
      ensures sent == SubmittedText(old(input))
      ensures sent.None? ==> input == old(input) && bot.messages == old(bot.messages)
      ensures sent.None? ==> bot.isLoading == old(bot.isLoading) && bot.loadingWrites == old(bot.loadingWrites)
      ensures sent.None? ==> bot.requests == old(bot.requests)
      ensures sent.Some? ==> input == [] && bot.messages == old(bot.messages) + Exchange(old(bot.chat), sent.value, outcome)
      ensures sent.Some? ==> !bot.isLoading && bot.loadingWrites == old(bot.loadingWrites) + [true, false]
      ensures sent.Some? ==> bot.requests == old(bot.requests) + (if old(bot.chat).Some? then [(old(bot.chat).value, sent.value)] else [])
      ensures bot.isOpen == old(bot.isOpen) && bot.chat == old(bot.chat) && bot.nextSession == old(bot.nextSession)
      ensures bot.Valid()
    {
      sent := SubmittedText(input);
      if sent.None? {
        return;
      }
      bot.SendMessage(sent.value, outcome);
      input := [];
    }

    /**
     * The send button: disabled while a reply is loading, in which case pressing it does
     * nothing at all; otherwise it submits the form, with the effect `HandleSubmit` states.
     */
    method PressSend(outcome: Outcome) returns (sent: Option<string>)
      requires bot.Valid()
      modifies this, bot
      ensures old(bot.isLoading) ==> sent == None
      ensures !old(bot.isLoading) ==> sent == SubmittedText(old(input))
      ensures sent.None? ==> input == old(input) && bot.messages == old(bot.messages)
      ensures sent.None? ==> bot.isLoading == old(bot.isLoading) && bot.loadingWrites == old(bot.loadingWrites)
      ensures sent.None? ==> bot.requests == old(bot.requests)
      ensures sent.Some? ==> input == [] && bot.messages == old(bot.messages) + Exchange(old(bot.chat), sent.value, outcome)
      ensures sent.Some? ==> !bot.isLoading && bot.loadingWrites == old(bot.loadingWrites) + [true, false]
      ensures sent.Some? ==> bot.requests == old(bot.requests) + (if old(bot.chat).Some? then [(old(bot.chat).value, sent.value)] else [])
      ensures bot.isOpen == old(bot.isOpen) && bot.chat == old(bot.chat) && bot.nextSession == old(bot.nextSession)
      ensures bot.Valid()
    {
      if bot.isLoading {
        return None;
      }
      sent := HandleSubmit(outcome);
    }

    /**
     * `handlePredefinedPrompt(i)`: the prompt is sent as it is, untrimmed. Its button is
     * shown only while the transcript is empty. Since no prompt has whitespace at either
     * end, the effect is that of typing the prompt and submitting the form: the text sent is
     * `SubmittedText` of the prompt, and the transcript, the loading log and the requests
     * change as `HandleSubmit` states for that text.
     */
    method HandlePredefinedPrompt(i: nat, outcome: Outcome)
      requires i < |PredefinedPrompts| && bot.messages == [] && bot.Valid()
      modifies bot
      ensures SubmittedText(PredefinedPrompts[i]) == Some(PredefinedPrompts[i])
      ensures bot.messages == old(bot.messages) + Exchange(old(bot.chat), SubmittedText(PredefinedPrompts[i]).value, outcome)
      ensures !bot.isLoading && bot.loadingWrites == old(bot.loadingWrites) + [true, false]
      ensures bot.requests == old(bot.requests) + (if old(bot.chat).Some? then [(old(bot.chat).value, PredefinedPrompts[i])] else [])
      ensures bot.isOpen == old(bot.isOpen) && bot.chat == old(bot.chat) && bot.nextSession == old(bot.nextSession)
      ensures bot.Valid()
    {
      PredefinedPromptSubmitsUnchanged(i);
      bot.SendMessage(PredefinedPrompts[i], outcome);
    }
  }
}
