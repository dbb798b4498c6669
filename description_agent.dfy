/**
 * `AgentDomainModelDescription`: generates the textual domain model through
 * its own `LLMService`, keeps the last one, asks the visualization agent for
 * a diagram, and answers the refinement request, which keeps the model as
 * it is.
 */
module DescriptionAgent {
  import opened Wrappers
  import opened Text
  import opened Agents
  import opened Llm
  import opened Visualization

  const NoRefinements := "No refinements made"
  const NoModelAnswer := "There is no domain model to answer questions about yet. Please create a domain model first."
  const AnswerFailed := "Failed to answer question about the domain model"

  /** The dictionaries the agent answers with. */
  datatype DescResult =
    | DescOnly(description: string)
    | DescAndDiagram(description: string, plantUml: string)
    | Acknowledged                                  // {"status": "acknowledged", "message": "No refinements made"}
    | CurrentModel(current: Option<string>)
    | DescUnknown(kind: string)

  /** `result.get("domain_model_description", default)`. */
  function DescriptionOr(r: DescResult, default: string): (d: Option<string>)
    ensures r.DescOnly? || r.DescAndDiagram? ==> d == Some(r.description)
    ensures r.CurrentModel? ==> d == r.current
    ensures r.Acknowledged? || r.DescUnknown? ==> d == Some(default)
  {
    match r
    case DescOnly(t) => Some(t)
    case DescAndDiagram(t, _) => Some(t)
    case CurrentModel(c) => c
    case _ => Some(default)
  }

  /** `result.get("plant_uml", default)`: only a description-and-diagram record has the key. */
  function DiagramOr(r: DescResult, default: string): (p: string)
    ensures r.DescAndDiagram? ==> p == r.plantUml
    ensures !r.DescAndDiagram? ==> p == default
  {
    if r.DescAndDiagram? then r.plantUml else default
  }

  /**
   * `refine_domain_model`: with feedback and a non-empty held model, the held
   * model (unchanged) with the diagram passed through; otherwise an
   * acknowledgement that nothing was refined.
   */
  function Refine(feedback: string, plantUml: string, current: Option<string>): (r: DescResult)
    ensures feedback != "" && Truthy(current) ==> r == DescAndDiagram(current.value, plantUml)
    ensures !(feedback != "" && Truthy(current)) ==> r == Acknowledged
  {
    if feedback != "" && Truthy(current) then DescAndDiagram(current.value, plantUml) else Acknowledged
  }

  /**
   * What `generate_domain_model` answers for the generated description `d`:
   * without a visualization agent, the description alone; with one, the
   * description and the diagram it drew (`""` when drawing failed), passed
   * through a refinement step when the heuristic asks for one.
   */
  function Generation(d: string, vizConnected: bool, draw: string -> Option<string>): (r: DescResult)
    ensures vizConnected <==> r.DescAndDiagram?
    ensures !vizConnected ==> r == DescOnly(d)
    ensures r.DescAndDiagram? && d == "" ==> r.plantUml == ""
  {
    if !vizConnected then DescOnly(d)
    else
      var v := GenerationResult(d, draw);
      var p := PlantUmlOr(v, Some("")).GetOr("");
      var feedback := if v.Generated? then v.feedback else "";
      if v.Generated? && v.needsRefinement then
        var refined := Refine(feedback, p, Some(d));
        DescAndDiagram(DescriptionOr(refined, d).GetOr(d), DiagramOr(refined, p))
      else
        DescAndDiagram(d, p)
  }

  /**
   * The refinement step is the identity: with a visualization agent the
   * answer is always the generated description and the drawn diagram, or
   * `""` when nothing was drawn.
   */
  lemma RefinementIsIdentity(d: string, draw: string -> Option<string>)
    ensures Generation(d, false, draw) == DescOnly(d)
    ensures Generation(d, true, draw) ==
              DescAndDiagram(d, if d != "" && draw(d).Some? then draw(d).value else "")
  {
    var v := GenerationResult(d, draw);
    if v.Generated? && v.needsRefinement {
      assert v.feedback != "";
      if d == "" {
        assert false;
      }
    }
  }

  /** `receive_message` for the four known types, or an error record naming the unknown one. */
  function Reply(m: Envelope, current: Option<string>, vizConnected: bool,
                 describe: string -> Option<string>, draw: string -> Option<string>): (r: DescResult)
    ensures m.kind == "generate_domain_model" ==>
              r == Generation(DescriptionText(describe(Field(m.content, "chat_history_text"))), vizConnected, draw)
    ensures m.kind == "generate_domain_model_only" ==>
              r == DescOnly(DescriptionText(describe(Field(m.content, "chat_history_text"))))
    ensures m.kind == "get_domain_model" ==> r == CurrentModel(current)
    ensures m.kind == "refine_domain_model" ==>
              r == Refine(Field(m.content, "uml_feedback"), Field(m.content, "plant_uml"), current)
    ensures m.kind !in {"generate_domain_model", "generate_domain_model_only", "get_domain_model", "refine_domain_model"}
            ==> r == DescUnknown(m.kind)
  {
    var d := DescriptionText(describe(Field(m.content, "chat_history_text")));
    if m.kind == "generate_domain_model" then Generation(d, vizConnected, draw)
    else if m.kind == "generate_domain_model_only" then DescOnly(d)
    else if m.kind == "get_domain_model" then CurrentModel(current)
    else if m.kind == "refine_domain_model" then
      Refine(Field(m.content, "uml_feedback"), Field(m.content, "plant_uml"), current)
    else DescUnknown(m.kind)
  }

  /** The held model after a message: only the two generating types replace it. */
  function ModelAfter(m: Envelope, before: Option<string>, describe: string -> Option<string>): (after: Option<string>)
    ensures m.kind in {"generate_domain_model", "generate_domain_model_only"} ==>
              after == Some(DescriptionText(describe(Field(m.content, "chat_history_text"))))
    ensures m.kind !in {"generate_domain_model", "generate_domain_model_only"} ==> after == before
  {
    if m.kind == "generate_domain_model" || m.kind == "generate_domain_model_only"
    then Some(DescriptionText(describe(Field(m.content, "chat_history_text"))))
    else before
  }

  // ---------------------------------------------------------------------------
  // Answering questions
  // ---------------------------------------------------------------------------

  datatype Answer = Answered(answer: string) | AnswerError(error: string)

  /**
   * `answer_domain_question` as written: the empty-model guard, then a call
   * through `self._client`, an attribute this agent never sets; the raised
   * `AttributeError` is caught and turned into the error record.
   */
  function AnswerAsWritten(question: string, model: Option<string>): (a: Answer)
    ensures !Truthy(model) ==> a == Answered(NoModelAnswer)
    ensures Truthy(model) ==> a == AnswerError(AnswerFailed)
  {
    if !Truthy(model) then Answered(NoModelAnswer) else AnswerError(AnswerFailed)
  }

  /**
   * `answer_domain_question` as evidently intended: the same guard, then the
   * stripped answer of the model call, `ask(model, question)`, or the error
   * record when that call raises.
   */
  function AnswerQuestion(question: string, model: Option<string>, ask: (string, string) -> Option<string>): (a: Answer)
    ensures !Truthy(model) ==> a == Answered(NoModelAnswer)
    ensures Truthy(model) && ask(model.value, question).Some? ==> a == Answered(Strip(ask(model.value, question).value))
    ensures Truthy(model) && ask(model.value, question).None? ==> a == AnswerError(AnswerFailed)
  {
    if !Truthy(model) then Answered(NoModelAnswer)
    else match ask(model.value, question)
      case Some(t) => Answered(Strip(t))
      case None => AnswerError(AnswerFailed)
  }

  /**
   * As written, no question about an existing model is ever answered, even
   * when the model call would have answered it; the intended version agrees
   * on the guard and answers whenever the call does.
   */
  lemma AnswerAsWrittenNeverAnswers(question: string, model: Option<string>, ask: (string, string) -> Option<string>)
    ensures !Truthy(model) ==> AnswerAsWritten(question, model) == AnswerQuestion(question, model, ask)
    ensures Truthy(model) ==> AnswerAsWritten(question, model).AnswerError?
    ensures Truthy(model) && ask(model.value, question).Some? ==>
              AnswerAsWritten(question, model) != AnswerQuestion(question, model, ask)
  {
  }

  const SampleQuestion := "Which entities are there?"
  const SampleModel := "A library lends books."
  const SampleAnswer := "A library and a book."

  /**
   * The question "Which entities are there?" about "A library lends books."
   * gets the error record as written, and the model's answer once corrected.
   */
  lemma AnswerAsWrittenExample(ask: (string, string) -> Option<string>)
    requires ask(SampleModel, SampleQuestion) == Some(SampleAnswer)
    ensures AnswerAsWritten(SampleQuestion, Some(SampleModel)) == AnswerError(AnswerFailed)
    ensures AnswerQuestion(SampleQuestion, Some(SampleModel), ask) == Answered(SampleAnswer)
  {
    assert Truthy(Some(SampleModel));
    assert AnswerQuestion(SampleQuestion, Some(SampleModel), ask) == Answered(Strip(SampleAnswer));
    assert !IsSpace(SampleAnswer[0]) && !IsSpace(SampleAnswer[|SampleAnswer| - 1]);
    StripKeepsTrimmed(SampleAnswer);
  }

  // ---------------------------------------------------------------------------
  // The agent
  // ---------------------------------------------------------------------------

  /**
   * The agent keeps the last generated model and the names it is connected
   * to. Its own `LLMService` and the visualization agent it talks to are
   * fixed at construction. Its notifications to the chat agent change no
   * state there, so they are not sent here.
   */
  class DomainModelAgent {
    var currentDomainModel: Option<string>
    var connected: set<string>
    const llm: LLMService
    const viz: VisualizationAgent

    constructor (viz: VisualizationAgent)
      ensures this.viz == viz && fresh(llm) && fresh(llm.current) && fresh(llm.history)
      ensures llm.current.text == None && llm.history.messages == []
      ensures currentDomainModel == None && connected == {}
    {
      this.viz := viz;
      llm := new LLMService();
      currentDomainModel := None;
      connected := {};
    }

    method Connect(name: string)
      modifies this
      ensures connected == old(connected) + {name} && currentDomainModel == old(currentDomainModel)
    {
      connected := connected + {name};
    }

    /**
     * Stores the generated description as the held model before asking for
     * a diagram; the visualization agent, when connected, keeps the diagram.
     */
    method GenerateDomainModel(chatHistoryText: string, describe: string -> Option<string>,
                               draw: string -> Option<string>) returns (r: DescResult)
      modifies this, llm.current, viz
      ensures var d := DescriptionText(describe(chatHistoryText));
        && r == Generation(d, VisualizationAgentName in old(connected), draw)
        && currentDomainModel == Some(d)
        && llm.current.text == (if describe(chatHistoryText).Some? then Some(d) else old(llm.current.text))
        && viz.currentPlantUml == (if VisualizationAgentName in old(connected)
                                   then StoredPlantUml(GenerationResult(d, draw), old(viz.currentPlantUml))
                                   else old(viz.currentPlantUml))
      ensures connected == old(connected) && viz.connected == old(viz.connected)
    {
      var d := llm.GenerateDomainModelDescription(chatHistoryText, describe);
      currentDomainModel := Some(d);
      if Deliver(connected, VisualizationAgentName).Delivered? {
        var v := viz.ReceiveMessage(Envelope(DomainModelAgentName, "generate_plantuml",
                                             map["domain_model_description" := d]), draw, (a, b, c) => None);
        var plantUml := PlantUmlOr(v, Some("")).GetOr("");
        var feedback := if v.Generated? then v.feedback else "";
        if v.Generated? && v.needsRefinement {
          var refined := RefineDomainModel(feedback, plantUml);
          return DescAndDiagram(DescriptionOr(refined, d).GetOr(d), DiagramOr(refined, plantUml));
        }
        return DescAndDiagram(d, plantUml);
      }
      r := DescOnly(d);
    }

    /** Stores the generated description and answers it alone, never with a diagram. */
    method GenerateDescriptionOnly(chatHistoryText: string, describe: string -> Option<string>) returns (r: DescResult)
      modifies this, llm.current
      ensures r == DescOnly(DescriptionText(describe(chatHistoryText)))
      ensures currentDomainModel == Some(r.description) && connected == old(connected)
      ensures llm.current.text == (if describe(chatHistoryText).Some? then Some(r.description) else old(llm.current.text))
    {
      var d := llm.GenerateDomainModelDescription(chatHistoryText, describe);
      currentDomainModel := Some(d);
      r := DescOnly(d);
    }

    /** Re-stores the held model as it is: nothing changes. */
    method RefineDomainModel(feedback: string, plantUml: string) returns (r: DescResult)
      ensures r == Refine(feedback, plantUml, currentDomainModel)
    {
      if feedback != "" && Truthy(currentDomainModel) {
        r := DescAndDiagram(currentDomainModel.value, plantUml);
      } else {
        r := Acknowledged;
      }
    }

    method GetDomainModel() returns (r: DescResult)
      ensures r == CurrentModel(currentDomainModel)
    {
      r := CurrentModel(currentDomainModel);
    }

    /** Dispatch on the message type; only the generating types change the held model. */
    method ReceiveMessage(m: Envelope, describe: string -> Option<string>, draw: string -> Option<string>)
      returns (r: DescResult)
      modifies this, llm.current, viz
      ensures r == Reply(m, old(currentDomainModel), VisualizationAgentName in old(connected), describe, draw)
      ensures currentDomainModel == ModelAfter(m, old(currentDomainModel), describe)
      ensures var text := Field(m.content, "chat_history_text");
        llm.current.text == if m.kind in {"generate_domain_model", "generate_domain_model_only"} && describe(text).Some?
                            then Some(DescriptionText(describe(text)))
                            else old(llm.current.text)
      ensures var text := Field(m.content, "chat_history_text");
        viz.currentPlantUml == if m.kind == "generate_domain_model" && VisualizationAgentName in old(connected)
                               then StoredPlantUml(GenerationResult(DescriptionText(describe(text)), draw), old(viz.currentPlantUml))
                               else old(viz.currentPlantUml)
      ensures connected == old(connected) && viz.connected == old(viz.connected)
    {
      var text := Field(m.content, "chat_history_text");
      if m.kind == "generate_domain_model" {
        r := GenerateDomainModel(text, describe, draw);
      } else if m.kind == "generate_domain_model_only" {
        r := GenerateDescriptionOnly(text, describe);
      } else if m.kind == "get_domain_model" {
        r := GetDomainModel();
      } else if m.kind == "refine_domain_model" {
        r := RefineDomainModel(Field(m.content, "uml_feedback"), Field(m.content, "plant_uml"));
      } else {
        r := DescUnknown(m.kind);
      }
    }
  }
}
