/** The send turn of the chat component (src/components/ChatInterface.tsx):
    the component state, the pure specification of one turn, and the
    component itself, whose handlers update that state step by step. */
module Chat {
  import opened ChatTypes
  import opened Text
  import opened Router
  import Consent

  const GreetingText: string :=
    "Hallo! Ich bin dein digitaler Begleiter von Between The Lines. Ich kann dir dabei helfen, Informationen über mentale Gesundheit zu finden oder passende Unterstützung in deiner Nähe zu entdecken. Wie kann ich dir heute helfen?"

  /** The single message the history starts with. */
  const Greeting: Message := Message(1, GreetingText, Agent, Some(Orchestrator))

  function UserMessage(id: nat, content: string): Message {
    Message(id, content, User, None)
  }

  function AgentMessage(id: nat, agent: AgentType, content: string): Message {
    Message(id, content, Agent, Some(agent))
  }

  /** The component's state fields, as one value. */
  datatype ChatState = ChatState(
    messages: seq<Message>,
    inputValue: string,
    isTyping: bool,
    showCrisisModal: bool,
    agentStatus: AgentStatus,
    gdprAccepted: bool)

  const Initial: ChatState := ChatState([Greeting], "", false, false, Idle, false)

  /** The guard of `handleSendMessage`: some visible input, and consent given. */
  predicate Accepts(s: ChatState) {
    !IsBlank(s.inputValue) && s.gdprAccepted
  }

  /** A send is accepted exactly when consent was given and the input has a
      character that is not whitespace. */
  lemma AcceptsVisibleInput(s: ChatState)
    ensures Accepts(s) <==> s.gdprAccepted && exists i :: 0 <= i < |s.inputValue| && !IsWhitespace(s.inputValue[i])
  {
    BlankIffAllWhitespace(s.inputValue);
  }

  /** One send turn, the user's message stamped `userId` and the agent's
      reply, if any, stamped `replyId`. A rejected turn changes nothing; an
      accepted one clears the input, keeps consent and ends typing. What it
      does to the history and the crisis surface is stated by
      `SendTurnCrisis` and `SendTurnReply`. */
  function SendTurn(s: ChatState, userId: nat, replyId: nat): (t: ChatState)
    ensures !Accepts(s) ==> t == s
    ensures Accepts(s) ==> t.inputValue == [] && t.gdprAccepted && !t.isTyping
  {
    if !Accepts(s) then s
    else Respond(s.(messages := s.messages + [UserMessage(userId, s.inputValue)], inputValue := []),
                 Route(s.inputValue), replyId)
  }

  /** An accepted turn is the agent's step on the state with the user's
      message appended and the input cleared. */
  lemma SendTurnAccepted(s: ChatState, userId: nat, replyId: nat)
    requires Accepts(s)
    ensures SendTurn(s, userId, replyId)
         == Respond(s.(messages := s.messages + [UserMessage(userId, s.inputValue)], inputValue := []),
                    Route(s.inputValue), replyId)
  {
  }

  /** An accepted crisis turn appends only the user's message, opens the
      crisis surface and sets the crisis status. */
  lemma SendTurnCrisis(s: ChatState, userId: nat, replyId: nat)
    ensures var t := SendTurn(s, userId, replyId);
      Accepts(s) && Route(s.inputValue).Crisis? ==>
      && t.messages == s.messages + [UserMessage(userId, s.inputValue)]
      && t.showCrisisModal
      && t.agentStatus == CrisisStatus
  {
    if Accepts(s) && Route(s.inputValue).Crisis? {
      var u := s.(messages := s.messages + [UserMessage(userId, s.inputValue)], inputValue := []);
      SendTurnAccepted(s, userId, replyId);
      RespondOutcome(u, Route(s.inputValue), replyId);
    }
  }

  /** An accepted turn without a crisis appends the user's message and then
      the router's reply to it, keeps the crisis flag and ends idle. */
  lemma SendTurnReply(s: ChatState, userId: nat, replyId: nat)
    ensures var t := SendTurn(s, userId, replyId);
      Accepts(s) && Route(s.inputValue).Reply? ==>
      && t.messages == s.messages + [UserMessage(userId, s.inputValue),
                                     AgentMessage(replyId, Route(s.inputValue).agent, Route(s.inputValue).text)]
      && t.showCrisisModal == s.showCrisisModal
      && t.agentStatus == Idle
  {
    if Accepts(s) && Route(s.inputValue).Reply? {
      var u := s.(messages := s.messages + [UserMessage(userId, s.inputValue)], inputValue := []);
      var d := Route(s.inputValue);
      SendTurnAccepted(s, userId, replyId);
      RespondOutcome(u, d, replyId);
      AppendTwo(s.messages, UserMessage(userId, s.inputValue), AgentMessage(replyId, d.agent, d.text));
    }
  }

  lemma AppendTwo(h: seq<Message>, a: Message, b: Message)
    ensures h + [a] + [b] == h + [a, b]
  {
  }

  /** What the agent does once the router has decided `d` for the user's
      message: on a crisis it opens the crisis surface and adds nothing,
      otherwise it appends the reply stamped `replyId`. Either way typing ends. */
  function Respond(s: ChatState, d: Decision, replyId: nat): ChatState {
    match d
    case Crisis =>
      s.(isTyping := false, showCrisisModal := true, agentStatus := CrisisStatus)
    case Reply(agent, text) =>
      s.(messages := s.messages + [AgentMessage(replyId, agent, text)],
         isTyping := false, agentStatus := Idle)
  }

  /** The outcome of the agent's step: typing ends and the input and consent
      are untouched; a crisis keeps the history, opens the crisis surface and
      sets the crisis status; a reply is appended after the history with the
      status back to idle and the crisis flag kept. */
  lemma RespondOutcome(s: ChatState, d: Decision, replyId: nat)
    ensures var t := Respond(s, d, replyId);
      && !t.isTyping && t.inputValue == s.inputValue && t.gdprAccepted == s.gdprAccepted
      && (d.Crisis? ==>
            t.messages == s.messages && t.showCrisisModal && t.agentStatus == CrisisStatus)
      && (d.Reply? ==>
            && t.messages == s.messages + [AgentMessage(replyId, d.agent, d.text)]
            && t.showCrisisModal == s.showCrisisModal
            && t.agentStatus == Idle)
  {
  }

  /** The history starts with the greeting, only agent messages carry an
      agent type, and every agent message after the greeting answers the
      user message just before it: it is what the router decided for it. */
  predicate WellFormed(h: seq<Message>) {
    && |h| >= 1 && h[0] == Greeting
    && (forall i :: 0 <= i < |h| ==> (h[i].sender == Agent <==> h[i].agentType.Some?))
    && (forall i :: 1 <= i < |h| && h[i].sender == Agent ==>
          && h[i - 1].sender == User
          && Route(h[i - 1].content) == Reply(h[i].agentType.value, h[i].content))
  }

  /** Between handlers the typing indicator is off and the status is idle or crisis. */
  predicate Invariant(s: ChatState) {
    WellFormed(s.messages) && !s.isTyping && (s.agentStatus == Idle || s.agentStatus == CrisisStatus)
  }

  lemma InitialInvariant()
    ensures Invariant(Initial) && Initial.messages == [Greeting]
  {
  }

  /** A user message may always be appended. */
  lemma AppendUserKeepsWellFormed(h: seq<Message>, id: nat, content: string)
    requires WellFormed(h)
    ensures WellFormed(h + [UserMessage(id, content)])
  {
    var h' := h + [UserMessage(id, content)];
    forall i | 0 <= i < |h| ensures h'[i] == h[i] { }
  }

  /** An agent message may be appended right after a user message, when it
      is the router's decision for that message. */
  lemma AppendReplyKeepsWellFormed(h: seq<Message>, id: nat, agent: AgentType, text: string)
    requires WellFormed(h) && h[|h| - 1].sender == User
    requires Route(h[|h| - 1].content) == Reply(agent, text)
    ensures WellFormed(h + [AgentMessage(id, agent, text)])
  {
    var h' := h + [AgentMessage(id, agent, text)];
    forall i | 0 <= i < |h| ensures h'[i] == h[i] { }
  }

  lemma SendTurnPreservesInvariant(s: ChatState, userId: nat, replyId: nat)
    requires Invariant(s)
    ensures Invariant(SendTurn(s, userId, replyId))
  {
    if Accepts(s) {
      var h := s.messages + [UserMessage(userId, s.inputValue)];
      AppendUserKeepsWellFormed(s.messages, userId, s.inputValue);
      match Route(s.inputValue)
      case Crisis =>
      case Reply(agent, text) =>
        AppendReplyKeepsWellFormed(h, replyId, agent, text);
    }
  }

  /** Accepting a turn clears the input, so sending again straight away does nothing. */
  lemma SendTwiceIsSendOnce(s: ChatState, userId: nat, replyId: nat, userId': nat, replyId': nat)
    ensures SendTurn(SendTurn(s, userId, replyId), userId', replyId') == SendTurn(s, userId, replyId)
  {
    if Accepts(s) {
      assert Trim([]) == [];
    }
  }

  /** The chat component. */
  class ChatSession {
    var messages: seq<Message>
    var inputValue: string
    var isTyping: bool
    var showCrisisModal: bool
    var agentStatus: AgentStatus
    var gdprAccepted: bool

    function Snapshot(): ChatState
      reads this
    {
      ChatState(messages, inputValue, isTyping, showCrisisModal, agentStatus, gdprAccepted)
    }

    ghost predicate Valid()
      reads this
    {
      Invariant(Snapshot())
    }

    /** The initial state: only the greeting, empty input, no consent yet. */
    constructor ()
      ensures Valid() && Snapshot() == Initial
    {
      messages := [Greeting];
      inputValue := "";
      isTyping := false;
      showCrisisModal := false;
      agentStatus := Idle;
      gdprAccepted := false;
    }

    /** `onAccept` of the consent banner. */
    method AcceptConsent()
      requires Valid()
      modifies this
      ensures Valid() && Snapshot() == old(Snapshot()).(gdprAccepted := true)
    {
      gdprAccepted := true;
    }

    /** The banner's accept button: consent is recorded exactly when the
        banner fires its callback, that is when both boxes are ticked. */
    method SubmitConsent(banner: Consent.ConsentBanner)
      requires Valid()
      modifies this
      ensures Valid()
      ensures Snapshot() == old(Snapshot()).(gdprAccepted := old(gdprAccepted) || banner.CanProceed())
    {
      var fired := banner.HandleAccept();
      if fired {
        AcceptConsent();
      }
    }

    /** The input field's `onChange`. */
    method SetInput(value: string)
      requires Valid()
      modifies this
      ensures Valid() && Snapshot() == old(Snapshot()).(inputValue := value)
    {
      inputValue := value;
    }

    /** The "Hilfe" button of the emergency alert opens the crisis surface. */
    method OpenCrisisModal()
      requires Valid()
      modifies this
      ensures Valid() && Snapshot() == old(Snapshot()).(showCrisisModal := true)
    {
      showCrisisModal := true;
    }

    /** `onClose` of the crisis surface. */
    method CloseCrisisModal()
      requires Valid()
      modifies this
      ensures Valid() && Snapshot() == old(Snapshot()).(showCrisisModal := false)
    {
      showCrisisModal := false;
    }

    /** `handleSendMessage`: ignore blank input or missing consent, else
        append the user's message, clear the input and let the agent answer. */
    method Send(userId: nat, replyId: nat)
      requires Valid()
      modifies this
      ensures Valid()
      ensures Snapshot() == SendTurn(old(Snapshot()), userId, replyId)
    {
      if IsBlank(inputValue) || !gdprAccepted {
        return;
      }
      ghost var before := Snapshot();
      SendAccepted(userId, replyId);
      SendTurnAccepted(before, userId, replyId);
      SendTurnPreservesInvariant(before, userId, replyId);
    }

    /** The part of `handleSendMessage` after its guard: the user's message
        is appended, the input cleared, and the agent answers. */
    method SendAccepted(userId: nat, replyId: nat)
      modifies this
      ensures Snapshot()
           == Respond(old(Snapshot()).(messages := old(messages) + [UserMessage(userId, old(inputValue))],
                                       inputValue := []),
                      Route(old(inputValue)), replyId)
    {
      messages := messages + [UserMessage(userId, inputValue)];
      var messageContent := inputValue;
      inputValue := "";
      SimulateAgentResponse(messageContent, replyId);
    }

    /** `simulateAgentResponse`. The typing indicator and the processing
        status are set first and reset at the end; the two-second pause
        before the reply is one sequential step here. */
    method SimulateAgentResponse(userMessage: string, replyId: nat)
      modifies this
      ensures Snapshot() == Respond(old(Snapshot()), Route(userMessage), replyId)
    {
      isTyping := true;
      agentStatus := Processing;
      var decision := Route(userMessage);
      if decision.Crisis? {
        showCrisisModal := true;
        isTyping := false;
        agentStatus := CrisisStatus;
        return;
      }
      messages := messages + [AgentMessage(replyId, decision.agent, decision.text)];
      isTyping := false;
      agentStatus := Idle;
    }

    /** `handleKeyPress`: Enter without Shift sends. */
    method KeyPress(key: string, shiftKey: bool, userId: nat, replyId: nat)
      requires Valid()
      modifies this
      ensures Valid()
      ensures Snapshot() == if key == "Enter" && !shiftKey
                            then SendTurn(old(Snapshot()), userId, replyId)
                            else old(Snapshot())
    {
      if key == "Enter" && !shiftKey {
        Send(userId, replyId);
      }
    }
  }
}
