/** The message router of the chat component (src/components/ChatInterface.tsx):
    crisis detection, and otherwise the choice of the answering agent and
    its canned reply. */
module Router {
  import opened ChatTypes
  import opened Text

  /** The crisis phrases, all lower case. */
  const CrisisKeywords: seq<string> := [
    "umbringen", "kann nicht mehr", "möchte nicht mehr leben",
    "selbstmord", "suizid", "töten", "sterben will"
  ]

  /** Words asking for help, then clinical terms, in priority order. */
  const HelpKeywords: seq<string> := ["hilfe", "unterstützung"]
  const ClinicalKeywords: seq<string> := ["depression", "angst"]

  const HelpResponse: string :=
    "Ich verstehe, dass du nach Hilfe suchst. Um dir die passende Unterstützung zu empfehlen, möchte ich dir ein paar Fragen stellen. Wie lange fühlst du dich schon so? Beeinträchtigt das deinen Alltag?"
  const InformationResponse: string :=
    "Das sind wichtige Themen. Depression und Angststörungen sind häufige psychische Erkrankungen, die gut behandelbar sind. Möchtest du mehr über die Symptome erfahren oder suchst du nach konkreter Hilfe?"
  const GenericResponse: string :=
    "Danke für deine Nachricht. Ich bin hier, um dir zu helfen. Kannst du mir etwas mehr darüber erzählen, womit du dich beschäftigst?"

  /** What the router decides for one message: open the crisis surface, or
      append a reply from an agent. */
  datatype Decision = Crisis | Reply(agent: AgentType, text: string)

  /** The canned text each answering agent gives. */
  function CannedResponse(agent: AgentType): string {
    match agent
    case HelpFinder => HelpResponse
    case Information => InformationResponse
    case _ => GenericResponse
  }

  /** The lower-cased message contains one of the given phrases. */
  ghost predicate Mentions(message: string, keywords: seq<string>) {
    exists j :: 0 <= j < |keywords| && Contains(ToLower(message), keywords[j])
  }

  /** `detectCrisis`: true exactly when the lower-cased message contains
      one of the seven crisis phrases, anywhere in it. */
  function DetectCrisis(message: string): (b: bool)
    ensures b <==> Mentions(message, CrisisKeywords)
  {
    IncludesAny(ToLower(message), CrisisKeywords)
  }

  /** The crisis check followed by the category chain of `simulateAgentResponse`.
      Only the three agents of the chain ever answer, each with its canned text. */
  function Route(message: string): (d: Decision)
    ensures d.Reply? ==> d.agent in {HelpFinder, Information, Orchestrator}
                         && d.text == CannedResponse(d.agent)
  {
    if DetectCrisis(message) then Crisis
    else
      var lower := ToLower(message);
      if IncludesAny(lower, HelpKeywords) then
        Reply(HelpFinder, HelpResponse)
      else if IncludesAny(lower, ClinicalKeywords) then
        Reply(Information, InformationResponse)
      else
        Reply(Orchestrator, GenericResponse)
  }

  // ---------------------------------------------------------------------
  // Properties of the routing policy
  // ---------------------------------------------------------------------

  /** The decision table: crisis first, then help words, then clinical
      terms, then the generic acknowledgement, all on the lower-cased message. */
  lemma RoutePolicy(message: string)
    ensures Route(message).Crisis? <==> Mentions(message, CrisisKeywords)
    ensures (!Mentions(message, CrisisKeywords) && Mentions(message, HelpKeywords))
              ==> Route(message) == Reply(HelpFinder, HelpResponse)
    ensures (!Mentions(message, CrisisKeywords) && !Mentions(message, HelpKeywords)
             && Mentions(message, ClinicalKeywords))
              ==> Route(message) == Reply(Information, InformationResponse)
    ensures (!Mentions(message, CrisisKeywords) && !Mentions(message, HelpKeywords)
             && !Mentions(message, ClinicalKeywords))
              ==> Route(message) == Reply(Orchestrator, GenericResponse)
  {
  }

  /** Routing depends only on the lower-cased message. */
  lemma RouteIgnoresCase(message: string)
    ensures Route(ToLower(message)) == Route(message)
  {
    ToLowerIdempotent(message);
  }

  /** Messages that agree up to case are routed alike. */
  lemma RouteSameUpToCase(a: string, b: string)
    requires ToLower(a) == ToLower(b)
    ensures Route(a) == Route(b)
  {
  }

  /** A crisis phrase written in any mixture of upper and lower case at any
      position of the message makes it a crisis, whatever else it says. */
  lemma CrisisInAnyCase(message: string, i: nat, j: nat)
    requires j < |CrisisKeywords|
    requires i + |CrisisKeywords[j]| <= |message|
    requires ToLower(message[i..i + |CrisisKeywords[j]|]) == CrisisKeywords[j]
    ensures Route(message) == Crisis
  {
    var k := CrisisKeywords[j];
    ToLowerSlice(message, i, i + |k|);
    assert OccursAt(ToLower(message), k, i);
  }

  /** A crisis phrase embedded in arbitrary surrounding text triggers the crisis path. */
  lemma CrisisEmbedded(pre: string, j: nat, post: string)
    requires j < |CrisisKeywords|
    ensures Route(pre + CrisisKeywords[j] + post) == Crisis
  {
    var k := CrisisKeywords[j];
    ToLowerConcat(pre + k, post);
    ToLowerConcat(pre, k);
    CrisisKeywordsAreLower();
    ToLowerFixesLower(k);
    ContainsEmbedded(ToLower(pre), k, ToLower(post));
  }

  /** The crisis phrases are written in lower case, so they can be compared
      with a lower-cased message as they are. */
  lemma CrisisKeywordsAreLower()
    ensures forall j :: 0 <= j < |CrisisKeywords| ==> IsLower(CrisisKeywords[j])
  {
    forall j | 0 <= j < |CrisisKeywords| ensures IsLower(CrisisKeywords[j]) {
      assert CrisisKeywords[j] in {"umbringen", "kann nicht mehr", "möchte nicht mehr leben",
                                   "selbstmord", "suizid", "töten", "sterben will"};
    }
  }

  /** Crisis pre-empts every category: a message that mentions a crisis
      phrase is a crisis even when it also mentions a help word or a
      clinical term, in any case and in any order. */
  lemma CrisisBeatsHelp(message: string)
    requires Mentions(message, CrisisKeywords)
    requires Mentions(message, HelpKeywords) || Mentions(message, ClinicalKeywords)
    ensures Route(message) == Crisis
  {
    RoutePolicy(message);
  }

  /** The help group comes first: a non-crisis message that mentions both a
      help word and a clinical term goes to the help finder. */
  lemma HelpBeatsClinical(message: string)
    requires !Mentions(message, CrisisKeywords)
    requires Mentions(message, HelpKeywords) && Mentions(message, ClinicalKeywords)
    ensures Route(message) == Reply(HelpFinder, HelpResponse)
  {
  }

  // ---------------------------------------------------------------------
  // The worked examples
  // ---------------------------------------------------------------------

  /** None of `keywords` occurs in `lower`, shown by naming, for each of
      them, a character of it that `lower` lacks. */
  lemma {:induction false} NoneOccurs(lower: string, keywords: seq<string>, missing: seq<char>)
    requires |missing| == |keywords|
    requires forall j :: 0 <= j < |keywords| ==> missing[j] in keywords[j] && missing[j] !in lower
    ensures forall j :: 0 <= j < |keywords| ==> !Contains(lower, keywords[j])
  {
    forall j | 0 <= j < |keywords| ensures !Contains(lower, keywords[j]) {
      MissingChar(lower, keywords[j], missing[j]);
    }
  }

  lemma ExampleHelp(message: string)
    requires message == "Ich brauche Hilfe"
    ensures Route(message) == Reply(HelpFinder, HelpResponse)
  {
    var lower := "ich brauche hilfe";
    assert ToLower(message) == lower;
    NoCrisisInRequest(lower);
    assert Contains(lower, HelpKeywords[0]) by {
      assert lower == "ich brauche " + HelpKeywords[0] + "";
      ContainsEmbedded("ich brauche ", HelpKeywords[0], "");
    }
  }

  /** The keyword facts of the worked example "Ich brauche Hilfe". */
  lemma NoCrisisInRequest(lower: string)
    requires lower == "ich brauche hilfe"
    ensures forall j :: 0 <= j < |CrisisKeywords| ==> !Contains(lower, CrisisKeywords[j])
  {
    NoneOccurs(lower, CrisisKeywords, "mkmssts");
  }

  lemma ExampleCrisis(message: string)
    requires message == "ich möchte nicht mehr leben"
    ensures Route(message) == Crisis
  {
    assert message == "ich " + CrisisKeywords[2] + "";
    CrisisEmbedded("ich ", 2, "");
  }

  /** A shouted crisis phrase, with an upper-case umlaut, is still a crisis. */
  lemma ExampleShoutedCrisis(message: string)
    requires message == "ICH WILL MICH TÖTEN"
    ensures Route(message) == Crisis
  {
    assert message[14..19] == "TÖTEN";
    assert ToLower("TÖTEN") == CrisisKeywords[5];
    CrisisInAnyCase(message, 14, 5);
  }

  lemma ExampleInformation(message: string)
    requires message == "Was ist Depression?"
    ensures Route(message) == Reply(Information, InformationResponse)
  {
    var lower := "was ist depression?";
    assert ToLower(message) == lower;
    NoCrisisOrHelpInQuestion(lower);
    assert Contains(lower, ClinicalKeywords[0]) by {
      assert lower == "was ist " + ClinicalKeywords[0] + "?";
      ContainsEmbedded("was ist ", ClinicalKeywords[0], "?");
    }
    assert !Mentions(message, CrisisKeywords) && !Mentions(message, HelpKeywords);
    assert Mentions(message, ClinicalKeywords);
    RoutePolicy(message);
  }

  /** The keyword facts of the worked example "Was ist Depression?". */
  lemma NoCrisisOrHelpInQuestion(lower: string)
    requires lower == "was ist depression?"
    ensures forall j :: 0 <= j < |CrisisKeywords| ==> !Contains(lower, CrisisKeywords[j])
    ensures forall j :: 0 <= j < |HelpKeywords| ==> !Contains(lower, HelpKeywords[j])
  {
    NoneOccurs(lower, CrisisKeywords, "ukmluöb");
    NoneOccurs(lower, HelpKeywords, "hu");
  }

  lemma ExampleGeneric(message: string)
    requires message == "Hallo"
    ensures Route(message) == Reply(Orchestrator, GenericResponse)
  {
    var lower := "hallo";
    NoneOccurs(lower, CrisisKeywords, "ukmssts");
    NoneOccurs(lower, HelpKeywords, "iu");
    NoneOccurs(lower, ClinicalKeywords, "dn");
    assert ToLower(message) == lower;
  }
}
