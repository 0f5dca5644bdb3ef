# Between The Lines chat widget: router, send turn and consent gate

This project models the decision logic of a browser chat widget for a
mental-health support service, and proves properties of it in Dafny.

- **The message router.** Every message the user sends is lower-cased and
  first checked for seven crisis phrases. A hit opens the crisis-resource
  surface in place of a reply. Otherwise a fixed priority chain picks the
  answering agent and its canned text: help words (`hilfe`,
  `unterstützung`) go to the help finder, then clinical terms
  (`depression`, `angst`) go to the information agent, and anything else
  gets the orchestrator's generic acknowledgement.
- **The send turn.** The chat component holds the history, the input
  field, the typing indicator, the crisis-surface flag, the agent status
  and the consent flag. Sending is ignored for blank input or without
  consent. Otherwise the user's message is appended, the input is
  cleared, and the agent either raises the crisis surface or appends
  exactly one reply.
- **The consent gate.** A banner with two independent check boxes. Its
  accept button hands over to the chat only when both boxes are ticked.

Files, one module each:

- `chat_types.dfy` holds `ChatTypes`, the value types of
  `src/types/chat.ts`.
- `text.dfy` holds `Text`, the three string primitives the component uses
  (`toLowerCase`, `includes`, `trim`). Lower-casing is proved against its
  inverse, an upper-casing of the same letters. The substring scan is
  proved against a declarative containment predicate. Trimming is proved
  to cut off exactly the whitespace at both ends.
- `router.dfy` holds `Router`: crisis detection, the routing function
  `Route` and the properties of the routing policy.
- `chat.dfy` holds `Chat`. It has the component state as a value
  `ChatState`, the pure specification `SendTurn` of one turn, and the
  history invariant. It also has the class `ChatSession`, whose handlers
  update their fields step by step and are proved against `SendTurn`.
- `consent.dfy` holds `Consent`, the class `ConsentBanner`.

Modelling choices:

- The source gives message ids from `Date.now()`. They become the number
  parameters `userId` and `replyId` of `Send`, supplied by the host
  clock. The greeting keeps id 1.
- Timestamps are dropped.
- The two-second `await` before a reply is one sequential step.
- The source combines two help words with `a.includes(x) || a.includes(y)`.
  The model tests them with `IncludesAny` over a two-element list, with
  the same meaning; the same goes for the clinical terms.

How the code reads and what the model does with it:

- A message that matches no category gets the orchestrator's reply: that
  is the initial value of the `agentType` variable, and the code has no
  separate default category.
- The code lower-cases the message again for each of its four category
  tests. The model lower-cases it once and uses that for all four tests.
  The result is the same, because lower-casing is a pure function of the
  message.

## Model

| member | source | states |
|---|---|---|
| Text.ToLowerChar | src/components/ChatInterface.tsx:47 | an upper-case letter becomes the lower-case letter 0x20 code points above it; any other character is unchanged; the result is never upper case |
| Text.LowerAfterUpper | src/components/ChatInterface.tsx:47 | lower-casing the upper-case form of a lower-case letter gives the letter back |
| Text.UpperAfterLower | src/components/ChatInterface.tsx:47 | upper-casing the lower-case form of an upper-case letter gives the letter back, so each upper-case letter has exactly one lower-case image ("Ö" becomes "ö") |
| Text.ToLower | src/components/ChatInterface.tsx:47 | lower-casing keeps the length and maps every character independently |
| Text.ToLowerIdempotent | src/components/ChatInterface.tsx:47 | lower-casing twice is the same as lower-casing once |
| Text.Includes | src/components/ChatInterface.tsx:48 | the left-to-right scan answers true exactly when the phrase occurs at some position of the text (the reference predicate `Contains`); the empty phrase is always included |
| Text.IncludesAny | src/components/ChatInterface.tsx:48 | `some(k => s.includes(k))` is true exactly when some keyword of the list occurs in the text |
| Text.TrimStart | src/components/ChatInterface.tsx:94 | the result is a suffix of the input, everything dropped is whitespace, and the result does not start with whitespace |
| Text.TrimEnd | src/components/ChatInterface.tsx:94 | the result is a prefix of the input, everything dropped is whitespace, and the result does not end with whitespace |
| Text.TrimIsPadded | src/components/ChatInterface.tsx:94 | the contract of `Text.Trim`: the trimmed text is a piece of the input with only whitespace before and after it, and it neither starts nor ends with whitespace |
| Text.BlankIffAllWhitespace | src/components/ChatInterface.tsx:94 | the contract of `Text.IsBlank` (`!s.trim()`): the input trims to the empty string exactly when every character of it is whitespace |
| Router.DetectCrisis | src/components/ChatInterface.tsx:41-49 | true exactly when the lower-cased message contains one of the seven crisis phrases, anywhere in it |
| Router.Route | src/components/ChatInterface.tsx:56-78 | a reply only ever comes from the help finder, the information agent or the orchestrator, each with its own fixed text |
| Router.RoutePolicy | src/components/ChatInterface.tsx:56-78 | the decision table: crisis exactly when a crisis phrase occurs; else a help word gives the help finder; else a clinical term gives the information agent; else the orchestrator's generic text |
| Router.RouteIgnoresCase | src/components/ChatInterface.tsx:70-75 | a message and its lower-cased form are routed alike |
| Router.RouteSameUpToCase | src/components/ChatInterface.tsx:70-75 | two messages equal up to case get the same decision |
| Router.CrisisInAnyCase | src/components/ChatInterface.tsx:46-48 | a crisis phrase written in any case at any position makes the message a crisis |
| Router.CrisisEmbedded | src/components/ChatInterface.tsx:46-48 | a crisis phrase inside arbitrary surrounding text makes the message a crisis |
| Router.CrisisKeywordsAreLower | src/components/ChatInterface.tsx:41-44 | every crisis phrase is already lower case, so comparing it with the lower-cased message is sound |
| Router.CrisisBeatsHelp | src/components/ChatInterface.tsx:56-75 | any message that mentions a crisis phrase and also a help word or a clinical term, in any case and in any order, is a crisis: crisis detection pre-empts the categories |
| Router.HelpBeatsClinical | src/components/ChatInterface.tsx:70-75 | a non-crisis message with both a help word and a clinical term goes to the help finder |
| Router.ExampleHelp | src/components/ChatInterface.tsx:70-72 | "Ich brauche Hilfe" gets the help finder's text |
| Router.ExampleCrisis | src/components/ChatInterface.tsx:41-49 | "ich möchte nicht mehr leben" is a crisis |
| Router.ExampleShoutedCrisis | src/components/ChatInterface.tsx:46-48 | "ICH WILL MICH TÖTEN", shouted with an upper-case umlaut, is a crisis |
| Router.ExampleInformation | src/components/ChatInterface.tsx:73-75 | "Was ist Depression?" gets the information agent's text |
| Router.ExampleGeneric | src/components/ChatInterface.tsx:76-77 | "Hallo" gets the orchestrator's generic acknowledgement |
| Chat.AcceptsVisibleInput | src/components/ChatInterface.tsx:94 | the contract of the guard `Chat.Accepts`: a send is accepted exactly when consent was given and the input has a character that is not whitespace |
| Chat.SendTurn | src/components/ChatInterface.tsx:93-108 | a rejected send (blank input or no consent) changes nothing; an accepted one clears the input, keeps consent and ends typing |
| Chat.SendTurnCrisis | src/components/ChatInterface.tsx:56-60 | an accepted send on a crisis message adds only the user's untrimmed message to the history; it opens the crisis surface and sets the crisis status |
| Chat.SendTurnReply | src/components/ChatInterface.tsx:66-90 | an accepted send without a crisis adds the user's untrimmed message and then the router's reply to it, stamped with the reply id; the crisis flag is kept and the status is idle |
| Chat.RespondOutcome | src/components/ChatInterface.tsx:51-91 | the contract of the agent's step `Chat.Respond`: typing ends and input and consent are untouched; a crisis keeps the history, opens the crisis surface and sets the crisis status; a reply is appended to the history with the status back to idle |
| Chat.InitialInvariant | src/components/ChatInterface.tsx:14-28 | the initial state, with only the orchestrator's greeting, satisfies the invariant |
| Chat.AppendUserKeepsWellFormed | src/components/ChatInterface.tsx:103 | appending a user message keeps the history well formed |
| Chat.AppendReplyKeepsWellFormed | src/components/ChatInterface.tsx:88 | appending, right after a user message, the router's reply to it keeps the history well formed |
| Chat.SendTurnPreservesInvariant | src/components/ChatInterface.tsx:51-108 | after a turn: the greeting is still first, every agent reply answers the user message just before it as the router decides, typing is off and the status is idle or crisis |
| Chat.SendTwiceIsSendOnce | src/components/ChatInterface.tsx:94-105 | a second send without new input does nothing, because the accepted send cleared the input |
| Chat.ChatSession.constructor | src/components/ChatInterface.tsx:14-28 | history is the greeting alone, input empty, all flags false, status idle |
| Chat.ChatSession.Send | src/components/ChatInterface.tsx:93-108 | the new state is `SendTurn` of the old one, and the invariant is kept |
| Chat.ChatSession.SendAccepted | src/components/ChatInterface.tsx:96-107 | after the guard: the new state is the agent's step on the old state with the user's message appended and the input cleared |
| Chat.ChatSession.SimulateAgentResponse | src/components/ChatInterface.tsx:51-91 | the new state is the agent's response to the message: the crisis surface or one appended reply, with typing reset |
| Chat.ChatSession.KeyPress | src/components/ChatInterface.tsx:110-115 | Enter without Shift is a send; any other key changes nothing |
| Chat.ChatSession.SetInput | src/components/ChatInterface.tsx:197 | only the input changes |
| Chat.ChatSession.OpenCrisisModal | src/components/ChatInterface.tsx:163 | only the crisis flag changes, to true |
| Chat.ChatSession.CloseCrisisModal | src/components/ChatInterface.tsx:218 | only the crisis flag changes, to false |
| Chat.ChatSession.AcceptConsent | src/components/ChatInterface.tsx:127 | only the consent flag changes, to true |
| Chat.ChatSession.SubmitConsent | src/components/ChatInterface.tsx:126-127 | consent is recorded exactly when the banner's accept fires (both boxes ticked); nothing else changes |
| Consent.ConsentBanner.constructor | src/components/GDPRBanner.tsx:14-15 | both boxes start unticked |
| Consent.ConsentBanner.SetTerms | src/components/GDPRBanner.tsx:53-56 | the terms flag takes the box's value; the privacy flag is unchanged |
| Consent.ConsentBanner.SetPrivacy | src/components/GDPRBanner.tsx:69-72 | the privacy flag takes the box's value; the terms flag is unchanged |
| Consent.ConsentBanner.HandleAccept | src/components/GDPRBanner.tsx:17-23 | the callback fires exactly when `canProceed` holds, and so exactly when both boxes are ticked (the contract of `CanProceed`); the banner's state is left unchanged |

## Left out

- Rendering is left out: JSX, CSS classes, icons, the card, dialog, badge and button wrappers, and the status colours (`getAgentStatusColor`). The model has no display.
- Scrolling to the newest message, the input ref, `window.history.back` and `window.open` are host calls with no effect on the modelled state.
- `Date.now()` ids become caller-supplied numbers, and the Date timestamps are dropped.
- The asynchronous two-second delay is one sequential step. The model therefore does not show the intermediate state in which the typing indicator is on and the status is processing. It also does not show handlers that run during the delay, such as the emergency alert's "Hilfe" button.
- The send button's `disabled` guard on the typing indicator is not modelled. It is a rendering guard, and between handlers the typing indicator is always off (`Chat.Invariant`).
- Text.ToLower: `String.prototype.toLowerCase` is modelled only for Latin-1 upper-case letters (A–Z, U+00C0–U+00D6, U+00D8–U+00DE), which covers Ä, Ö and Ü. The rest of the Unicode case tables is not reproduced. One consequence: the browser lower-cases U+212A KELVIN SIGN to `k`, so a message "\u212Aann nicht mehr" (Kelvin sign, then "ann nicht mehr") is a crisis in the browser but not in the model. The same goes for other letters outside Latin-1 whose lower-case form is a Latin letter, and for U+0130, whose lower-case form is two characters long.
- The whitespace that `trim` removes is the ECMAScript WhiteSpace and LineTerminator set, written out character by character. It follows the Unicode space separators as they stand today.
- The banner's details dialog flag (`showDetails`, src/components/GDPRBanner.tsx:13) only opens a dialog of static text and is not modelled.
- The `resources` field of a message is never set by the modelled code and is not modelled.
- src/components/CrisisModal.tsx and src/components/MessageBubble.tsx are not part of this model. They hold static contact tables, presentation switches and time formatting.
- The types `Resource`, `HelpOption` and `CompassDialogue` of src/types/chat.ts are not used by any modelled logic.
