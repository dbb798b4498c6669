/**
 * `AgentChat.handle_user_input`: validates the input, records the user turn,
 * classifies the flattened conversation, records the assistant turn, routes
 * the request to one of five branches and saves exactly one version.
 *
 * The four language-model calls (classification, description, diagram,
 * restyling) arrive together as a `Generators` value.
 */
module Orchestrator {
  import opened Wrappers
  import opened Text
  import opened ChatLog
  import opened Agents
  import opened Llm
  import opened Visualization
  import opened DescriptionAgent
  import opened ProjectStore

  const InputRequired := "Both user input and project name are required"
  const DefaultChatPlantUml := "@startuml\nleft to right direction\nskinparam monochrome true\ntitle Your New Project\n\nclass ExampleEntity {\n  +id: string\n  +name: string\n}\n\nnote \"Start building your domain model!\" as N1\n@enduml"

  const OffTopic := "OFF_TOPIC"
  const UpdateDescriptionOnly := "UPDATE_DESCRIPTION_ONLY"
  const PlantUmlAdjustment := "PLANTUML_ADJUSTMENT"
  const InitialDomainModel := "INITIAL_DOMAIN_MODEL"
  const UpdateDomainModel := "UPDATE_DOMAIN_MODEL"
  const DomainModelQuestion := "DOMAIN_MODEL_QUESTION"

  /** The language-model calls behind the agents; `None` stands for a call that raised. */
  datatype Generators = Generators(
    classify: string -> ClassifierReply,
    describe: string -> Option<string>,
    draw: string -> Option<string>,
    restyle: (string, string, string) -> Option<string>)

  // ---------------------------------------------------------------------------
  // The conversation as text
  // ---------------------------------------------------------------------------

  /** `"User: ..."` for a user entry, `"Assistant: ..."` for any other role. */
  function Line(m: Message): (l: string)
    ensures m.role == UserRole ==> l == "User: " + m.content
    ensures m.role != UserRole ==> l == "Assistant: " + m.content
  {
    (if m.role == UserRole then "User" else "Assistant") + ": " + m.content
  }

  function Lines(history: seq<Message>): (ls: seq<string>)
    ensures |ls| == |history| && forall i :: 0 <= i < |history| ==> ls[i] == Line(history[i])
  {
    seq(|history|, i requires 0 <= i < |history| => Line(history[i]))
  }

  /**
   * The conversation handed to the classifier and the generators: one line
   * per entry. It is empty exactly when there are no entries, and otherwise
   * starts with the first entry's line.
   */
  function Flatten(history: seq<Message>): (text: string)
    ensures text == "" <==> history == []
    ensures history != [] ==> Line(history[0]) <= text
  {
    if history == [] then ""
    else
      JoinStartsWithFirst(Lines(history), [NewLine]);
      Join(Lines(history), [NewLine])
  }

  /** One more entry adds one more line at the end. */
  lemma FlattenSnoc(history: seq<Message>, m: Message)
    ensures Flatten(history + [m]) == if history == [] then Line(m) else Flatten(history) + "\n" + Line(m)
  {
    assert Lines(history + [m]) == Lines(history) + [Line(m)];
    JoinSnoc(Lines(history), Line(m), [NewLine]);
  }

  /** While no entry holds a line break, the lines of the text are exactly the entries' lines. */
  lemma FlattenSplitsBack(history: seq<Message>)
    requires history != []
    requires forall i :: 0 <= i < |history| ==> NewLine !in history[i].content
    ensures Split(Flatten(history), NewLine) == Lines(history)
  {
    forall i | 0 <= i < |history|
      ensures NewLine !in Lines(history)[i]
    {
      var prefix := if history[i].role == UserRole then "User: " else "Assistant: ";
      assert NewLine !in prefix;
      assert Lines(history)[i] == prefix + history[i].content;
    }
    SplitJoin(Lines(history), NewLine);
  }

  // ---------------------------------------------------------------------------
  // Reading the classification
  // ---------------------------------------------------------------------------

  /** The assistant turn: list suggestions joined by line breaks, a bare string as it is, else `""`. */
  function SuggestionText(c: Classification): (t: string)
    ensures c.suggestions.None? ==> t == ""
    ensures c.suggestions.Some? && c.suggestions.value.Single? ==> t == c.suggestions.value.text
    ensures c.suggestions.Some? && c.suggestions.value.Lines? ==> t == Join(c.suggestions.value.lines, [NewLine])
  {
    match c.suggestions
    case None => ""
    case Some(Single(s)) => s
    case Some(Lines(ls)) => Join(ls, [NewLine])
  }

  /** `classification.get("request_type", "OFF_TOPIC")`. */
  function RequestType(c: Classification): (t: string)
    ensures c.requestType.None? ==> t == OffTopic
    ensures c.requestType.Some? ==> t == c.requestType.value
  {
    c.requestType.GetOr(OffTopic)
  }

  datatype Branch = DescriptionOnly | Adjustment | Generation | Question | Casual

  /**
   * The branch a classification selects, in the order the conditions are
   * tested: description-only (type or flag), diagram adjustment, generation
   * (either type or flag), question, and everything else.
   */
  function Route(c: Classification): (b: Branch)
    ensures b == DescriptionOnly <==> RequestType(c) == UpdateDescriptionOnly || Flag(c.descriptionOnlyUpdate)
    ensures b == Adjustment <==> b != DescriptionOnly && RequestType(c) == PlantUmlAdjustment
    ensures b == Generation <==>
              (b != DescriptionOnly && b != Adjustment &&
               (RequestType(c) in {InitialDomainModel, UpdateDomainModel} || Flag(c.requiresDomainModelUpdate)))
    ensures b == Question <==> b !in {DescriptionOnly, Adjustment, Generation} && RequestType(c) == DomainModelQuestion
  {
    var t := RequestType(c);
    if t == UpdateDescriptionOnly || Flag(c.descriptionOnlyUpdate) then DescriptionOnly
    else if t == PlantUmlAdjustment then Adjustment
    else if t == InitialDomainModel || t == UpdateDomainModel || Flag(c.requiresDomainModelUpdate) then Generation
    else if t == DomainModelQuestion then Question
    else Casual
  }

  /**
   * The classifier only ever yields the `get_decision` keys, never the three
   * keys the router reads: every classification built from a reply whose
   * arguments stay within that schema, and both fallback records, take the
   * casual branch.
   */
  lemma WiredRoutingIsCasual(reply: ClassifierReply)
    requires reply.FunctionCall? ==>
               && reply.arguments.requestType.None?
               && reply.arguments.descriptionOnlyUpdate.None?
               && reply.arguments.requiresDomainModelUpdate.None?
    ensures Route(DetermineInputType(reply)) == Casual
  {
    var c := DetermineInputType(reply);
    assert c.requestType.None? && c.descriptionOnlyUpdate.None? && c.requiresDomainModelUpdate.None?;
    assert RequestType(c) == OffTopic;
  }

  // ---------------------------------------------------------------------------
  // What a handled request saves
  // ---------------------------------------------------------------------------

  /** The project's latest description and diagram, or the chat agent's own defaults. */
  function Existing(t: Table, name: string): (e: (string, string))
    ensures name in t && t[name] != [] ==> e == (t[name][|t[name]| - 1].description, t[name][|t[name]| - 1].plantUml)
    ensures !(name in t && t[name] != []) ==> e == (InitialDescription, DefaultChatPlantUml)
  {
    if name in t && t[name] != [] then (t[name][|t[name]| - 1].description, t[name][|t[name]| - 1].plantUml)
    else (InitialDescription, DefaultChatPlantUml)
  }

  /** `get_current_domain_model_description() or existing_dmd`. */
  function CurrentDescription(held: Option<string>, existing: string): (d: string)
    ensures Truthy(held) ==> d == held.value
    ensures !Truthy(held) ==> d == existing
  {
    if Truthy(held) then held.value else existing
  }

  /** What a routed request does: save one version with these texts, or raise for a missing agent. */
  datatype Decision = Save(description: string, plantUml: string) | Raise(error: string)

  /**
   * The texts each branch saves, given the conversation text, the existing
   * texts, the description the chat agent's own service holds, and who is
   * connected to whom.
   */
  function Decide(c: Classification, text: string, input: string, existing: (string, string), held: Option<string>,
                  chatConnected: set<string>, descConnected: set<string>, g: Generators): (d: Decision)
    ensures d.Raise? <==> (Route(c) in {DescriptionOnly, Generation} && DomainModelAgentName !in chatConnected)
                          || (Route(c) == Adjustment && VisualizationAgentName !in chatConnected)
    ensures d.Raise? ==> (Route(c) in {DescriptionOnly, Generation} && d.error == NotConnected(DomainModelAgentName))
                         || (Route(c) == Adjustment && d.error == NotConnected(VisualizationAgentName))
    ensures Route(c) == DescriptionOnly && d.Save? ==>
              d == Save(DescriptionText(g.describe(text)), existing.1)
    ensures Route(c) == Adjustment && d.Save? ==> d.description == CurrentDescription(held, existing.0)
    ensures Route(c) in {Question, Casual} ==> d == Save(CurrentDescription(held, existing.0), existing.1)
  {
    var current := CurrentDescription(held, existing.0);
    match Route(c)
    case DescriptionOnly =>
      (match Deliver(chatConnected, DomainModelAgentName)
       case Refused(e) => Raise(e)
       case Delivered =>
         var r := DescOnly(DescriptionText(g.describe(text)));
         Save(DescriptionOr(r, existing.0).GetOr(existing.0), existing.1))
    case Adjustment =>
      (match Deliver(chatConnected, VisualizationAgentName)
       case Refused(e) => Raise(e)
       case Delivered =>
         var r := AdjustResult(current, existing.1, input, g.draw, g.restyle);
         Save(current, PlantUmlOr(r, Some(existing.1)).GetOr(existing.1)))
    case Generation =>
      (match Deliver(chatConnected, DomainModelAgentName)
       case Refused(e) => Raise(e)
       case Delivered =>
         var r := DescriptionAgent.Generation(DescriptionText(g.describe(text)), VisualizationAgentName in descConnected, g.draw);
         Save(DescriptionOr(r, existing.0).GetOr(existing.0), DiagramOr(r, existing.1)))
    case Question => Save(current, existing.1)
    case Casual => Save(current, existing.1)
  }

  /**
   * The generation branch saves the freshly generated description; the
   * diagram is the one drawn for it (`""` when drawing failed) when the
   * description agent reaches the visualization agent, else the existing one.
   */
  lemma GenerationBranchSaves(c: Classification, text: string, input: string, existing: (string, string),
                              held: Option<string>, chatConnected: set<string>, descConnected: set<string>, g: Generators)
    requires Route(c) == Generation && DomainModelAgentName in chatConnected
    ensures var desc := DescriptionText(g.describe(text));
      Decide(c, text, input, existing, held, chatConnected, descConnected, g) ==
        Save(desc, if VisualizationAgentName !in descConnected then existing.1
                   else if desc != "" && g.draw(desc).Some? then g.draw(desc).value
                   else "")
  {
    RefinementIsIdentity(DescriptionText(g.describe(text)), g.draw);
  }

  /**
   * The adjustment branch saves the adjusted diagram, or the diagram drawn
   * afresh when the stored one is empty; when the adjustment fails, or the
   * agent answers without a diagram, the existing one.
   */
  lemma AdjustmentBranchSaves(c: Classification, text: string, input: string, existing: (string, string),
                              held: Option<string>, chatConnected: set<string>, descConnected: set<string>, g: Generators)
    requires Route(c) == Adjustment && VisualizationAgentName in chatConnected
    ensures var current := CurrentDescription(held, existing.0);
      var r := AdjustResult(current, existing.1, input, g.draw, g.restyle);
      && (r.Adjusted? ==> Decide(c, text, input, existing, held, chatConnected, descConnected, g) == Save(current, r.plantUml))
      && (r.Generated? ==>
            existing.1 == "" && Decide(c, text, input, existing, held, chatConnected, descConnected, g) == Save(current, r.plantUml))
      && (r.AdjustFailed? || r.VizError? ==>
            Decide(c, text, input, existing, held, chatConnected, descConnected, g) == Save(current, existing.1))
  {
  }

  // ---------------------------------------------------------------------------
  // What a routed request leaves in the other agents
  // ---------------------------------------------------------------------------

  /**
   * The description agent's held model after a routed request: replaced by
   * the generated description exactly when a generating branch reaches it.
   */
  function ModelAfterRoute(c: Classification, text: string, chatConnected: set<string>, g: Generators,
                           before: Option<string>): (after: Option<string>)
    ensures Route(c) in {DescriptionOnly, Generation} && DomainModelAgentName in chatConnected
            ==> after == Some(DescriptionText(g.describe(text)))
    ensures Route(c) in {Adjustment, Question, Casual} || DomainModelAgentName !in chatConnected ==> after == before
  {
    if Route(c) in {DescriptionOnly, Generation} && DomainModelAgentName in chatConnected
    then Some(DescriptionText(g.describe(text)))
    else before
  }

  /**
   * The description held by the description agent's own service: replaced
   * only when a generating branch reaches the agent and the model answers.
   */
  function ServiceTextAfterRoute(c: Classification, text: string, chatConnected: set<string>, g: Generators,
                                 before: Option<string>): (after: Option<string>)
    ensures after != before ==>
              && Route(c) in {DescriptionOnly, Generation} && DomainModelAgentName in chatConnected
              && g.describe(text).Some? && after == Some(Strip(g.describe(text).value))
    ensures Route(c) in {DescriptionOnly, Generation} && DomainModelAgentName in chatConnected && g.describe(text).Some?
            ==> after == Some(Strip(g.describe(text).value))
  {
    if Route(c) in {DescriptionOnly, Generation} && DomainModelAgentName in chatConnected && g.describe(text).Some?
    then Some(DescriptionText(g.describe(text)))
    else before
  }

  /** The diagram the chat agent's visualization agent holds after the adjustment branch; no other branch changes it there. */
  function AdjustedDiagramAfter(c: Classification, input: string, existing: (string, string), held: Option<string>,
                                chatConnected: set<string>, g: Generators, before: Option<string>): (after: Option<string>)
    ensures Route(c) == Adjustment && VisualizationAgentName in chatConnected ==>
              after == StoredPlantUml(AdjustResult(CurrentDescription(held, existing.0), existing.1, input, g.draw, g.restyle),
                                      before)
    ensures Route(c) != Adjustment || VisualizationAgentName !in chatConnected ==> after == before
  {
    if Route(c) == Adjustment && VisualizationAgentName in chatConnected
    then StoredPlantUml(AdjustResult(CurrentDescription(held, existing.0), existing.1, input, g.draw, g.restyle), before)
    else before
  }

  /**
   * The diagram the description agent's visualization agent holds after the
   * generation branch; it changes only when both hops are connected.
   */
  function GeneratedDiagramAfter(c: Classification, text: string, chatConnected: set<string>, descConnected: set<string>,
                                 g: Generators, before: Option<string>): (after: Option<string>)
    ensures Route(c) == Generation && DomainModelAgentName in chatConnected && VisualizationAgentName in descConnected
            ==> after == StoredPlantUml(GenerationResult(DescriptionText(g.describe(text)), g.draw), before)
    ensures Route(c) != Generation || DomainModelAgentName !in chatConnected || VisualizationAgentName !in descConnected
            ==> after == before
  {
    if Route(c) == Generation && DomainModelAgentName in chatConnected && VisualizationAgentName in descConnected
    then StoredPlantUml(GenerationResult(DescriptionText(g.describe(text)), g.draw), before)
    else before
  }

  /** The answer record of `handle_user_input`. */
  datatype ChatReply =
    | InputError(error: string)
    | ModelReply(description: string, suggestion: string, plantUml: string)
    | ConversationReply(response: string, history: seq<Message>, description: string, plantUml: string)
    | AgentMissing(error: string)        // the `ValueError` of `send_message`, propagated to the caller

  /** The reply for a decision: question and casual branches also hand back the whole conversation. */
  function ReplyFor(b: Branch, response: string, history: seq<Message>, d: Decision): (r: ChatReply)
    ensures d.Raise? ==> r == AgentMissing(d.error)
    ensures d.Save? && b in {Question, Casual} ==> r == ConversationReply(response, history, d.description, d.plantUml)
    ensures d.Save? && b !in {Question, Casual} ==> r == ModelReply(d.description, response, d.plantUml)
  {
    match d
    case Raise(e) => AgentMissing(e)
    case Save(desc, plantUml) =>
      if b == Question || b == Casual then ConversationReply(response, history, desc, plantUml)
      else ModelReply(desc, response, plantUml)
  }

  // ---------------------------------------------------------------------------
  // The agent
  // ---------------------------------------------------------------------------

  /**
   * The chat agent owns an `LLMService` (for the classifier and the
   * conversation) and shares the project store with the rest of the backend;
   * the description and visualization agents are fixed at construction.
   */
  class AgentChat {
    var connected: set<string>
    var currentProjectName: Option<string>
    var chatHistory: seq<Message>
    const llm: LLMService
    const store: ProjectService
    const domainAgent: DomainModelAgent
    const viz: VisualizationAgent

    /**
     * The agent's own list and its service's history hold the same turns; its
     * service never generates a description, so it holds none.
     */
    ghost predicate Valid()
      reads this, llm.history, llm.current, store
    {
      && llm.history.messages == chatHistory
      && llm.current.text == None
      && llm.current != domainAgent.llm.current
      && store.Valid()
    }

    constructor (store: ProjectService, domainAgent: DomainModelAgent, viz: VisualizationAgent)
      requires store.Valid()
      ensures Valid() && fresh(llm) && fresh(llm.history) && fresh(llm.current)
      ensures this.store == store && this.domainAgent == domainAgent && this.viz == viz
      ensures connected == {} && currentProjectName == None && chatHistory == []
    {
      this.store := store;
      this.domainAgent := domainAgent;
      this.viz := viz;
      llm := new LLMService();
      connected := {};
      currentProjectName := None;
      chatHistory := [];
    }

    method Connect(name: string)
      requires Valid()
      modifies this
      ensures Valid() && connected == old(connected) + {name}
      ensures chatHistory == old(chatHistory) && currentProjectName == old(currentProjectName)
    {
      connected := connected + {name};
    }

    /** The chat agent's `current_dmd` is always the project's description: its service holds none. */
    lemma CurrentIsExisting(existing: string)
      requires Valid()
      ensures CurrentDescription(llm.current.text, existing) == existing
    {
    }

    /**
     * Sends the request to the agent its branch needs and reads back the
     * texts to save; raises (as `Raise`) when that agent is not connected.
     */
    method RouteRequest(c: Classification, text: string, input: string, existing: (string, string),
                        held: Option<string>, g: Generators) returns (decision: Decision)
      requires Valid()
      modifies domainAgent, domainAgent.llm.current, domainAgent.viz, viz
      ensures Valid()
      ensures decision == Decide(c, text, input, existing, held, connected, old(domainAgent.connected), g)
      ensures domainAgent.currentDomainModel == ModelAfterRoute(c, text, connected, g, old(domainAgent.currentDomainModel))
      ensures domainAgent.llm.current.text == ServiceTextAfterRoute(c, text, connected, g, old(domainAgent.llm.current.text))
      ensures viz.currentPlantUml ==
                AdjustedDiagramAfter(c, input, existing, held, connected, g,
                  if viz == domainAgent.viz
                  then GeneratedDiagramAfter(c, text, connected, old(domainAgent.connected), g, old(viz.currentPlantUml))
                  else old(viz.currentPlantUml))
      ensures domainAgent.viz != viz ==>
                domainAgent.viz.currentPlantUml ==
                  GeneratedDiagramAfter(c, text, connected, old(domainAgent.connected), g, old(domainAgent.viz.currentPlantUml))
      ensures domainAgent.connected == old(domainAgent.connected) && viz.connected == old(viz.connected)
    {
      var current := CurrentDescription(held, existing.0);
      match Route(c) {
        case DescriptionOnly =>
          var delivery := Deliver(connected, DomainModelAgentName);
          if delivery.Refused? {
            return Raise(delivery.error);
          }
          var r := domainAgent.ReceiveMessage(
            Envelope(ChatAgentName, "generate_domain_model_only", map["chat_history_text" := text]), g.describe, g.draw);
          decision := Save(DescriptionOr(r, existing.0).GetOr(existing.0), existing.1);
        case Adjustment =>
          var delivery := Deliver(connected, VisualizationAgentName);
          if delivery.Refused? {
            return Raise(delivery.error);
          }
          var r := viz.ReceiveMessage(
            Envelope(ChatAgentName, "adjust_plantuml",
                     map["domain_model_description" := current, "existing_plant_uml" := existing.1,
                         "adjustment_request" := input]), g.draw, g.restyle);
          decision := Save(current, PlantUmlOr(r, Some(existing.1)).GetOr(existing.1));
        case Generation =>
          var delivery := Deliver(connected, DomainModelAgentName);
          if delivery.Refused? {
            return Raise(delivery.error);
          }
          var r := domainAgent.ReceiveMessage(
            Envelope(ChatAgentName, "generate_domain_model", map["chat_history_text" := text]), g.describe, g.draw);
          decision := Save(DescriptionOr(r, existing.0).GetOr(existing.0), DiagramOr(r, existing.1));
        case Question =>
          decision := Save(current, existing.1);
        case Casual =>
          decision := Save(current, existing.1);
      }
    }

    /**
     * Records one exchange: the user turn, the classification of the
     * flattened conversation, and the assistant turn built from its
     * suggestions. Only the conversation changes.
     */
    method RecordExchange(input: string, g: Generators) returns (text: string, c: Classification, response: string)
      requires Valid()
      modifies this, llm.history
      ensures Valid()
      ensures text == Flatten(old(chatHistory) + [Message(UserRole, input)])
      ensures c == DetermineInputType(g.classify(text)) && response == SuggestionText(c)
      ensures chatHistory == old(chatHistory) + [Message(UserRole, input), Message(AssistantRole, response)]
      ensures connected == old(connected) && currentProjectName == old(currentProjectName)
    {
      llm.AddToChatHistory(UserRole, input);
      chatHistory := chatHistory + [Message(UserRole, input)];
      var history := llm.GetChatHistory();
      text := Flatten(history);
      c := DetermineInputType(g.classify(text));
      response := SuggestionText(c);
      llm.AddToChatHistory(AssistantRole, response);
      chatHistory := chatHistory + [Message(AssistantRole, response)];
    }

    /**
     * Handles one user message for a project. An empty input or project name
     * is refused with nothing changed. Otherwise the project name is
     * remembered, the conversation grows by the user turn and the assistant
     * turn, and one version holding both turns and the branch's texts is
     * saved, unless a needed agent is not connected. A project missing from
     * the store saves nothing. The other agents change only as the branch
     * taken says.
     */
    method HandleUserInput(input: string, name: string, g: Generators) returns (reply: ChatReply)
      requires Valid()
      modifies this, llm.history, store, domainAgent, domainAgent.llm.current, domainAgent.viz, viz
      ensures Valid() && connected == old(connected)
      ensures input == "" || name == "" ==>
                && reply == InputError(InputRequired)
                && chatHistory == old(chatHistory) && currentProjectName == old(currentProjectName)
                && store.projects == old(store.projects)
                && domainAgent.currentDomainModel == old(domainAgent.currentDomainModel)
                && domainAgent.llm.current.text == old(domainAgent.llm.current.text)
                && viz.currentPlantUml == old(viz.currentPlantUml)
                && domainAgent.viz.currentPlantUml == old(domainAgent.viz.currentPlantUml)
      ensures input != "" && name != "" ==>
                var text := Flatten(old(chatHistory) + [Message(UserRole, input)]);
                var c := DetermineInputType(g.classify(text));
                var response := SuggestionText(c);
                var d := Decide(c, text, input, Existing(old(store.projects), name), None,
                                old(connected), old(domainAgent.connected), g);
                && currentProjectName == Some(name)
                && chatHistory == old(chatHistory) + [Message(UserRole, input), Message(AssistantRole, response)]
                && reply == ReplyFor(Route(c), response, chatHistory, d)
                && (d.Raise? ==> store.projects == old(store.projects))
                && (d.Save? ==>
                      store.projects == AfterSave(old(store.projects), name, Some(input), Some(response),
                                                  Some(d.description), Some(d.plantUml)))
      ensures input != "" && name != "" ==>
                var text := Flatten(old(chatHistory) + [Message(UserRole, input)]);
                var c := DetermineInputType(g.classify(text));
                var existing := Existing(old(store.projects), name);
                && domainAgent.currentDomainModel == ModelAfterRoute(c, text, old(connected), g, old(domainAgent.currentDomainModel))
                && domainAgent.llm.current.text ==
                     ServiceTextAfterRoute(c, text, old(connected), g, old(domainAgent.llm.current.text))
                && viz.currentPlantUml ==
                     AdjustedDiagramAfter(c, input, existing, None, old(connected), g,
                       if viz == domainAgent.viz
                       then GeneratedDiagramAfter(c, text, old(connected), old(domainAgent.connected), g, old(viz.currentPlantUml))
                       else old(viz.currentPlantUml))
                && (domainAgent.viz != viz ==>
                      domainAgent.viz.currentPlantUml ==
                        GeneratedDiagramAfter(c, text, old(connected), old(domainAgent.connected), g,
                                              old(domainAgent.viz.currentPlantUml)))
    {
      if input == "" || name == "" {
        return InputError(InputRequired);
      }
      currentProjectName := Some(name);

      var data := store.GetProjectData(name);
      var existing := if data.Success? then (data.value.description, data.value.plantUml)
                      else (InitialDescription, DefaultChatPlantUml);
      assert existing == Existing(store.projects, name);

      var text, c, response := RecordExchange(input, g);
      var held := llm.GetCurrentDomainModelDescription();
      var decision := RouteRequest(c, text, input, existing, held, g);
      if decision.Raise? {
        return AgentMissing(decision.error);
      }
      var _ := store.SaveVersion(name, Some(input), Some(response), Some(decision.description), Some(decision.plantUml));
      var all := llm.GetChatHistory();
      reply := ReplyFor(Route(c), response, all, decision);
    }
  }
}
