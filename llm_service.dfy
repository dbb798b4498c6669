/**
 * `LLMService`: the fail-soft boundary around the language model.
 *
 * The model itself is not part of this model. Its answers arrive as values:
 * a `ClassifierReply` for the classification call, and an `Option<string>`
 * for a text-generation call, where `None` stands for a call that raised.
 */
module Llm {
  import opened Wrappers
  import opened Text
  import opened ChatLog
  import opened DescriptionHolder

  // ---------------------------------------------------------------------------
  // Classification records
  // ---------------------------------------------------------------------------

  /** The `suggestions` value of a record: a JSON list of lines or a bare string. */
  datatype Suggestions = Lines(lines: seq<string>) | Single(text: string)

  /**
   * A parsed classification record. Every key is optional, as in the JSON
   * dictionary the source works on. The first six keys are those of the
   * `get_decision` function schema; the last three are the keys the chat
   * router reads.
   */
  datatype Classification = Classification(
    decision: Option<bool>,
    isUpdate: Option<bool>,
    isCasualComment: Option<bool>,
    isStyleChange: Option<bool>,
    styleType: Option<string>,
    suggestions: Option<Suggestions>,
    requestType: Option<string>,
    descriptionOnlyUpdate: Option<bool>,
    requiresDomainModelUpdate: Option<bool>)

  /** What the classification call produced. */
  datatype ClassifierReply =
    | Raised                                            // the call or the JSON parsing raised
    | NoFunctionCall                                    // the reply carried no function call
    | FunctionCall(name: string, arguments: Classification)

  const DecisionFunction := "get_decision"
  const GeneralStyle := "general"

  const StyleSuggestion := "I've reformatted the domain model description as requested."
  const CasualSuggestion := "I'm glad you like it! Let me know if you want to make any changes to the domain model."
  const UpdateSuggestion := "I've updated the domain model with your changes."
  const DecisionSuggestion := "I've created a domain model based on your description."
  const MoreDetailsSuggestion := "Please provide more details about the entities and relationships in your domain."
  const NoCallSuggestion := "I need more information about your domain to help you. Could you describe the main entities and how they relate to each other?"
  const ErrorSuggestion := "I encountered an issue while analyzing your input. Could you try describing your domain again with key entities and relationships?"

  /** Python truthiness of a `suggestions` value: absent, `[]` and `""` are false. */
  predicate HasSuggestions(s: Option<Suggestions>) {
    match s
    case None => false
    case Some(Lines(ls)) => ls != []
    case Some(Single(t)) => t != ""
  }

  /** The single default line, chosen by style change > casual > update > decision > otherwise. */
  function DefaultSuggestion(r: Classification): (line: string)
    ensures Flag(r.isStyleChange) ==> line == StyleSuggestion
    ensures !Flag(r.isStyleChange) && Flag(r.isCasualComment) ==> line == CasualSuggestion
    ensures !Flag(r.isStyleChange) && !Flag(r.isCasualComment) && Flag(r.isUpdate) ==> line == UpdateSuggestion
    ensures !Flag(r.isStyleChange) && !Flag(r.isCasualComment) && !Flag(r.isUpdate) && Flag(r.decision)
            ==> line == DecisionSuggestion
    ensures !Flag(r.isStyleChange) && !Flag(r.isCasualComment) && !Flag(r.isUpdate) && !Flag(r.decision)
            ==> line == MoreDetailsSuggestion
  {
    if Flag(r.isStyleChange) then StyleSuggestion
    else if Flag(r.isCasualComment) then CasualSuggestion
    else if Flag(r.isUpdate) then UpdateSuggestion
    else if Flag(r.decision) then DecisionSuggestion
    else MoreDetailsSuggestion
  }

  /**
   * The defaulting applied to a parsed record: a missing `is_style_change`
   * becomes false, a missing `style_type` becomes "general" for a style
   * change, and missing or empty suggestions become one default line.
   * No other key is touched and no present value is overwritten, except
   * that empty suggestions are replaced.
   */
  function Normalize(r: Classification): (n: Classification)
    ensures n.isStyleChange == (if r.isStyleChange.None? then Some(false) else r.isStyleChange)
    ensures n.styleType.None? ==> r.styleType.None? && !Flag(r.isStyleChange)
    ensures r.styleType.Some? ==> n.styleType == r.styleType
    ensures r.styleType.None? && Flag(r.isStyleChange) ==> n.styleType == Some(GeneralStyle)
    ensures HasSuggestions(n.suggestions)
    ensures HasSuggestions(r.suggestions) ==> n.suggestions == r.suggestions
    ensures !HasSuggestions(r.suggestions) ==> n.suggestions == Some(Lines([DefaultSuggestion(r)]))
    ensures n.decision == r.decision && n.isUpdate == r.isUpdate && n.isCasualComment == r.isCasualComment
    ensures n.requestType == r.requestType && n.descriptionOnlyUpdate == r.descriptionOnlyUpdate
    ensures n.requiresDomainModelUpdate == r.requiresDomainModelUpdate
  {
    var r1 := if r.isStyleChange.None? then r.(isStyleChange := Some(false)) else r;
    var r2 := if r1.styleType.None? && Flag(r1.isStyleChange) then r1.(styleType := Some(GeneralStyle)) else r1;
    if HasSuggestions(r2.suggestions) then r2
    else r2.(suggestions := Some(Lines([DefaultSuggestion(r2)])))
  }

  /** Defaulting a second time changes nothing. */
  lemma NormalizeIdempotent(r: Classification)
    ensures Normalize(Normalize(r)) == Normalize(r)
  {
  }

  /** The fixed record of the fail-soft paths: every flag false, one suggestion line. */
  function FallbackRecord(line: string): (r: Classification)
    ensures r.decision == Some(false) && r.isUpdate == Some(false)
    ensures r.isCasualComment == Some(false) && r.isStyleChange == Some(false)
    ensures r.suggestions == Some(Lines([line]))
    ensures r.styleType.None? && r.requestType.None?
    ensures r.descriptionOnlyUpdate.None? && r.requiresDomainModelUpdate.None?
  {
    Classification(Some(false), Some(false), Some(false), Some(false), None, Some(Lines([line])), None, None, None)
  }

  /**
   * `determine_input_type` after the model call: a `get_decision` call is
   * defaulted, any other reply gives the no-call record, a raised call gives
   * the error record. It never raises.
   */
  function DetermineInputType(reply: ClassifierReply): (c: Classification)
    ensures reply.FunctionCall? && reply.name == DecisionFunction ==> c == Normalize(reply.arguments)
    ensures reply.NoFunctionCall? || (reply.FunctionCall? && reply.name != DecisionFunction)
            ==> c == FallbackRecord(NoCallSuggestion)
    ensures reply.Raised? ==> c == FallbackRecord(ErrorSuggestion)
    ensures c.isStyleChange.Some? && HasSuggestions(c.suggestions)
  {
    match reply
    case Raised => FallbackRecord(ErrorSuggestion)
    case NoFunctionCall => FallbackRecord(NoCallSuggestion)
    case FunctionCall(name, arguments) =>
      if name == DecisionFunction then Normalize(arguments) else FallbackRecord(NoCallSuggestion)
  }

  // ---------------------------------------------------------------------------
  // Description generation
  // ---------------------------------------------------------------------------

  const ErrorSentinel := "An error occurred while generating the domain model description."

  /** The text `generate_domain_model_description` returns for a model answer. */
  function DescriptionText(answer: Option<string>): (d: string)
    ensures answer.None? ==> d == ErrorSentinel
    ensures answer.Some? ==> d == Strip(answer.value)
  {
    match answer
    case Some(t) => Strip(t)
    case None => ErrorSentinel
  }

  /** `LLMService`: owns a chat history and the last generated description. */
  class LLMService {
    const history: ChatHistory
    const current: DomainModelDescription

    constructor ()
      ensures fresh(history) && fresh(current)
      ensures history.messages == [] && current.text == None
    {
      history := new ChatHistory();
      current := new DomainModelDescription(None);
    }

    /**
     * On success stores the stripped answer as the current description and
     * returns it; on failure returns the sentinel and keeps the stored text.
     */
    method GenerateDomainModelDescription(chatHistoryText: string, describe: string -> Option<string>)
      returns (d: string)
      modifies current
      ensures d == DescriptionText(describe(chatHistoryText))
      ensures current.text == if describe(chatHistoryText).Some? then Some(d) else old(current.text)
    {
      var answer := describe(chatHistoryText);
      if answer.Some? {
        d := Strip(answer.value);
        current.SetText(d);
      } else {
        d := ErrorSentinel;
      }
    }

    /** Appends one message to the held history. */
    method AddToChatHistory(role: string, content: string)
      modifies history
      ensures history.messages == old(history.messages) + [Message(role, content)]
    {
      history.AddMessage(role, content);
    }

    method GetChatHistory() returns (messages: seq<Message>)
      ensures messages == history.messages
    {
      messages := history.GetMessages();
    }

    /** Empties the held history. */
    method ClearChatHistory()
      modifies history
      ensures history.messages == []
    {
      history.Clear();
    }

    /** The last stored description, `None` before the first success. */
    method GetCurrentDomainModelDescription() returns (t: Option<string>)
      ensures t == current.text
    {
      t := current.GetText();
    }
  }
}
