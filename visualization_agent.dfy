/**
 * `AgentDomainModelVisualization`: turns a description into a PlantUML
 * diagram, judges the diagram with a line-counting heuristic, and adjusts
 * the layout direction of an existing diagram.
 *
 * The diagram generator and the free-text restyling call are language-model
 * calls; they arrive as function parameters, `None` standing for a call that
 * raised.
 */
module Visualization {
  import opened Wrappers
  import opened Text
  import opened Agents

  const NewLine := '\n'
  const StartUml := "@startuml"
  const LeftToRight := "left to right direction"
  const TopToBottom := "top to bottom direction"
  const LeftToRightRequest := "left to right"
  const TopToBottomRequest := "top to bottom"

  const DescriptionRequired := "Domain model description is required"
  const GenerationFailed := "Failed to generate PlantUML diagram"
  const AdjustmentFailed := "Failed to adjust PlantUML diagram"

  // ---------------------------------------------------------------------------
  // Direction patching
  // ---------------------------------------------------------------------------

  /** Where a directive line goes: right after a first line holding `@startuml`, else first. */
  function DirectiveSlot(lines: seq<string>): (k: nat)
    ensures k <= |lines| && k <= 1
    ensures k == 1 <==> lines != [] && Contains(lines[0], StartUml)
  {
    if lines != [] && Contains(lines[0], StartUml) then 1 else 0
  }

  /** `lines.insert(k, line)` at the directive slot. */
  function WithDirective(lines: seq<string>, line: string): (out: seq<string>)
    ensures |out| == |lines| + 1
    ensures out[DirectiveSlot(lines)] == line
    ensures out[..DirectiveSlot(lines)] + out[DirectiveSlot(lines) + 1..] == lines
  {
    var k := DirectiveSlot(lines);
    assert (lines[..k] + [line] + lines[k..])[k + 1..] == lines[k..];
    lines[..k] + [line] + lines[k..]
  }

  /** `[line for line in lines if needle not in line]`. */
  function DropLines(lines: seq<string>, needle: string): (kept: seq<string>)
    ensures |kept| <= |lines|
    ensures forall i :: 0 <= i < |kept| ==> !Contains(kept[i], needle) && kept[i] in lines
    ensures forall l :: l in lines && !Contains(l, needle) ==> l in kept
  {
    if lines == [] then []
    else if Contains(lines[0], needle) then DropLines(lines[1..], needle)
    else [lines[0]] + DropLines(lines[1..], needle)
  }

  /** Every line without the needle survives the filter with all its copies; the others with none. */
  lemma {:induction false} DropLinesCounts(lines: seq<string>, needle: string)
    ensures forall l :: multiset(DropLines(lines, needle))[l] ==
                        if Contains(l, needle) then 0 else multiset(lines)[l]
  {
    if lines != [] {
      assert lines == [lines[0]] + lines[1..];
      DropLinesCounts(lines[1..], needle);
    }
  }

  /** The filter keeps the order of the lines: filtering a concatenation filters each part. */
  lemma {:induction false} DropLinesAppend(a: seq<string>, b: seq<string>, needle: string)
    ensures DropLines(a + b, needle) == DropLines(a, needle) + DropLines(b, needle)
  {
    if a == [] {
      assert a + b == b;
    } else {
      var ab := a + b;
      assert ab[0] == a[0] && ab[1..] == a[1..] + b;
      DropLinesAppend(a[1..], b, needle);
      if Contains(a[0], needle) {
        calc {
          DropLines(ab, needle);
          DropLines(a[1..] + b, needle);
          DropLines(a[1..], needle) + DropLines(b, needle);
        }
      } else {
        calc {
          DropLines(ab, needle);
          [a[0]] + DropLines(a[1..] + b, needle);
          [a[0]] + (DropLines(a[1..], needle) + DropLines(b, needle));
          ([a[0]] + DropLines(a[1..], needle)) + DropLines(b, needle);
        }
      }
    }
  }

  /** What the direction branches of `adjust_plantuml` do with a non-empty diagram. */
  datatype Patch =
    | Patched(plantUml: string)
    | PatchFailed      // "top to bottom" removed every line: the insert indexes an empty list
    | NotDirection     // neither phrase: the request goes to the language model

  /**
   * "left to right" (in any case) wins over "top to bottom"; the first adds
   * its directive unless one is present, the second drops every line holding
   * the left-to-right directive and adds its own.
   */
  function PatchDirection(existing: string, request: string): (p: Patch)
    ensures p.NotDirection? <==>
              !Contains(Lower(request), LeftToRightRequest) && !Contains(Lower(request), TopToBottomRequest)
    ensures p.PatchFailed? ==> !Contains(Lower(request), LeftToRightRequest)
    ensures Contains(Lower(request), LeftToRightRequest) && Contains(existing, LeftToRight) ==> p == Patched(existing)
  {
    var req := Lower(request);
    if Contains(req, LeftToRightRequest) then
      if !Contains(existing, LeftToRight) then
        Patched(Join(WithDirective(Split(existing, NewLine), LeftToRight), [NewLine]))
      else
        Patched(existing)
    else if Contains(req, TopToBottomRequest) then
      var kept := DropLines(Split(existing, NewLine), LeftToRight);
      if kept == [] then PatchFailed
      else Patched(Join(WithDirective(kept, TopToBottom), [NewLine]))
    else
      NotDirection
  }

  lemma NoNewLineInDirectives()
    ensures NewLine !in LeftToRight && NewLine !in TopToBottom
  {
  }

  /** A directive line inserted into split lines splits back out at the same place. */
  lemma {:induction false} InsertedLineSplitsBack(lines: seq<string>, line: string)
    requires NewLine !in line
    requires forall i :: 0 <= i < |lines| ==> NewLine !in lines[i]
    ensures Split(Join(WithDirective(lines, line), [NewLine]), NewLine) == WithDirective(lines, line)
  {
    var out := WithDirective(lines, line);
    forall i | 0 <= i < |out|
      ensures NewLine !in out[i]
    {
      if i != DirectiveSlot(lines) {
        var k := DirectiveSlot(lines);
        assert out[i] in out[..k] + out[k + 1..];
      }
    }
    SplitJoin(out, NewLine);
  }

  /**
   * A left-to-right request on a diagram without the directive adds exactly
   * one line, the directive, right after a first `@startuml` line or else in
   * front; taking it out again gives back the original diagram.
   */
  lemma LeftToRightInserts(existing: string, request: string)
    requires Contains(Lower(request), LeftToRightRequest) && !Contains(existing, LeftToRight)
    ensures PatchDirection(existing, request).Patched?
    ensures var lines := Split(existing, NewLine);
      var k := DirectiveSlot(lines);
      var out := Split(PatchDirection(existing, request).plantUml, NewLine);
      && |out| == |lines| + 1
      && out[k] == LeftToRight
      && (k == 1 <==> Contains(lines[0], StartUml))
      && out[..k] + out[k + 1..] == lines
      && Join(out[..k] + out[k + 1..], [NewLine]) == existing
  {
    var lines := Split(existing, NewLine);
    NoNewLineInDirectives();
    InsertedLineSplitsBack(lines, LeftToRight);
    JoinSplit(existing, NewLine);
  }

  /** Asking for left to right twice is the same as asking once. */
  lemma LeftToRightIdempotent(existing: string, request: string)
    requires Contains(Lower(request), LeftToRightRequest)
    ensures PatchDirection(existing, request).Patched?
    ensures PatchDirection(PatchDirection(existing, request).plantUml, request) == PatchDirection(existing, request)
  {
    if !Contains(existing, LeftToRight) {
      var out := WithDirective(Split(existing, NewLine), LeftToRight);
      ContainsSelf(LeftToRight);
      JoinContainsPiece(out, [NewLine], DirectiveSlot(Split(existing, NewLine)), LeftToRight);
    }
  }

  /** The top-to-bottom directive does not contain the left-to-right one. */
  lemma TopToBottomIsNotLeftToRight()
    ensures !Contains(TopToBottom, LeftToRight)
  {
    assert TopToBottom[0] != LeftToRight[0];
    ShorterDoesNotContain(TopToBottom[1..], LeftToRight);
  }

  /**
   * A top-to-bottom request (without "left to right") keeps, in order, the
   * lines free of the left-to-right directive and adds its own directive at
   * the slot; no line of the result holds the left-to-right directive. When
   * no line is left it fails.
   */
  lemma TopToBottomReplaces(existing: string, request: string)
    requires !Contains(Lower(request), LeftToRightRequest) && Contains(Lower(request), TopToBottomRequest)
    ensures var kept := DropLines(Split(existing, NewLine), LeftToRight);
      && (kept == [] <==> PatchDirection(existing, request) == PatchFailed)
      && (kept != [] ==>
            var k := DirectiveSlot(kept);
            var out := Split(PatchDirection(existing, request).plantUml, NewLine);
            && PatchDirection(existing, request).Patched?
            && |out| == |kept| + 1
            && out[k] == TopToBottom
            && out[..k] + out[k + 1..] == kept
            && (forall i :: 0 <= i < |out| ==> !Contains(out[i], LeftToRight)))
  {
    var kept := DropLines(Split(existing, NewLine), LeftToRight);
    if kept != [] {
      assert PatchDirection(existing, request) == Patched(Join(WithDirective(kept, TopToBottom), [NewLine]));
      forall i | 0 <= i < |kept|
        ensures NewLine !in kept[i]
      {
        assert kept[i] in Split(existing, NewLine);
      }
      NoNewLineInDirectives();
      InsertedLineSplitsBack(kept, TopToBottom);
      TopToBottomIsNotLeftToRight();
      WithDirectiveAvoids(kept, TopToBottom, LeftToRight);
    }
  }

  /** Inserting a line free of `needle` into lines free of it leaves every line free of it. */
  lemma WithDirectiveAvoids(lines: seq<string>, line: string, needle: string)
    requires !Contains(line, needle)
    requires forall i :: 0 <= i < |lines| ==> !Contains(lines[i], needle)
    ensures forall i :: 0 <= i < |WithDirective(lines, line)| ==> !Contains(WithDirective(lines, line)[i], needle)
  {
    var out := WithDirective(lines, line);
    var k := DirectiveSlot(lines);
    forall i | 0 <= i < |out|
      ensures !Contains(out[i], needle)
    {
      if i != k {
        assert out[i] in out[..k] + out[k + 1..];
      }
    }
  }

  /** A diagram that is nothing but the left-to-right directive cannot be turned top to bottom. */
  lemma TopToBottomOnBareDirectiveFails()
    ensures PatchDirection(LeftToRight, TopToBottomRequest) == PatchFailed
  {
    LowerWithoutCapitals(TopToBottomRequest);
    ContainsSelf(TopToBottomRequest);
    assert !Contains(TopToBottomRequest, LeftToRightRequest) by {
      assert LeftToRightRequest[0] != TopToBottomRequest[0];
      ShorterDoesNotContain(TopToBottomRequest[1..], LeftToRightRequest);
    }
    NoNewLineInDirectives();
    SplitWithoutSeparator(LeftToRight, NewLine);
    ContainsSelf(LeftToRight);
  }

  // ---------------------------------------------------------------------------
  // Quality heuristic
  // ---------------------------------------------------------------------------

  const PlainLink := " -- "
  const Inheritance := "<|--"
  const Aggregation := "o--"
  const Composition := "*--"
  const AttributeMark := ": "
  const ClassWord := "class"

  const FewRelationships := "The UML diagram has very few relationships. Consider enriching the domain model with more connections between entities."
  const MissingAttributes := "Domain model mentions classes with attributes but none appear in the UML diagram."

  /** `sum(1 for line in lines if needle in line)`. */
  function CountContaining(lines: seq<string>, needle: string): (n: nat)
    ensures n <= |lines|
    ensures n == 0 <==> forall i :: 0 <= i < |lines| ==> !Contains(lines[i], needle)
  {
    if lines == [] then 0
    else (if Contains(lines[0], needle) then 1 else 0) + CountContaining(lines[1..], needle)
  }

  /** The four counts of `analyze_uml_quality` added up; a line may count under several. */
  function RelationshipCount(plantUml: string): (n: nat)
    ensures n <= 4 * |Split(plantUml, NewLine)|
  {
    var lines := Split(plantUml, NewLine);
    CountContaining(lines, PlainLink) + CountContaining(lines, Inheritance)
    + CountContaining(lines, Aggregation) + CountContaining(lines, Composition)
  }

  datatype Quality = Quality(needsRefinement: bool, feedback: string)

  /**
   * Fewer than two relationship lines, or a description mentioning "class"
   * over a diagram without any `": "`, asks for refinement, each with its
   * own feedback; feedback is present exactly when refinement is asked for.
   */
  function AnalyzeUmlQuality(plantUml: string, description: string): (q: Quality)
    ensures q.needsRefinement <==>
              RelationshipCount(plantUml) < 2 || (Contains(Lower(description), ClassWord) && !Contains(plantUml, AttributeMark))
    ensures q.feedback != "" <==> q.needsRefinement
    ensures RelationshipCount(plantUml) < 2 ==> q.feedback == FewRelationships
    ensures RelationshipCount(plantUml) >= 2 && q.needsRefinement ==> q.feedback == MissingAttributes
  {
    if RelationshipCount(plantUml) < 2 then Quality(true, FewRelationships)
    else if Contains(Lower(description), ClassWord) && !Contains(plantUml, AttributeMark) then Quality(true, MissingAttributes)
    else Quality(false, "")
  }

  /** Each of the four relationship markers holds "--". */
  lemma MarkersHaveDashes(needle: string)
    requires needle in {PlainLink, Inheritance, Aggregation, Composition}
    ensures Contains(needle, "--")
  {
    if needle == PlainLink {
      ContainsMiddle(" ", "--", " ");
      assert " " + "--" + " " == PlainLink;
    } else if needle == Inheritance {
      ContainsMiddle("<|", "--", "");
      assert "<|" + "--" + "" == Inheritance;
    } else if needle == Aggregation {
      ContainsMiddle("o", "--", "");
      assert "o" + "--" + "" == Aggregation;
    } else {
      ContainsMiddle("*", "--", "");
      assert "*" + "--" + "" == Composition;
    }
  }

  /** Every relationship marker contains "--": a diagram without "--" always asks for more relationships. */
  lemma NoLinksNeedsRefinement(plantUml: string, description: string)
    requires !Contains(plantUml, "--")
    ensures AnalyzeUmlQuality(plantUml, description) == Quality(true, FewRelationships)
  {
    var lines := Split(plantUml, NewLine);
    forall i, needle | 0 <= i < |lines| && needle in {PlainLink, Inheritance, Aggregation, Composition}
      ensures !Contains(lines[i], needle)
    {
      if Contains(lines[i], needle) {
        MarkersHaveDashes(needle);
        ContainsTransitive(lines[i], needle, "--");
        SplitPieceInside(plantUml, NewLine, i);
        ContainsTransitive(plantUml, lines[i], "--");
        assert false;
      }
    }
    assert RelationshipCount(plantUml) == 0;
  }

  // ---------------------------------------------------------------------------
  // The agent
  // ---------------------------------------------------------------------------

  /** The dictionaries the agent answers with. */
  datatype VizResult =
    | Generated(plantUml: string, needsRefinement: bool, feedback: string)
    | Adjusted(plantUml: string)
    | AdjustFailed(plantUml: string)          // the original diagram, with the error marker
    | VizError(error: string)
    | CurrentPlantUml(current: Option<string>)
    | VizUnknown(kind: string)

  /** `result.get("plant_uml", default)`: `Some` when the record has the key. */
  function PlantUmlOr(r: VizResult, default: Option<string>): (u: Option<string>)
    ensures r.VizError? || r.VizUnknown? ==> u == default
    ensures r.Generated? || r.Adjusted? || r.AdjustFailed? ==> u == Some(r.plantUml)
    ensures r.CurrentPlantUml? ==> u == r.current
  {
    match r
    case Generated(p, _, _) => Some(p)
    case Adjusted(p) => Some(p)
    case AdjustFailed(p) => Some(p)
    case CurrentPlantUml(c) => c
    case _ => default
  }

  /** The diagram the agent holds after answering `r`: only new diagrams replace it. */
  function StoredPlantUml(r: VizResult, before: Option<string>): (after: Option<string>)
    ensures r.Generated? || r.Adjusted? ==> after == Some(r.plantUml)
    ensures !(r.Generated? || r.Adjusted?) ==> after == before
  {
    if r.Generated? || r.Adjusted? then Some(r.plantUml) else before
  }

  /**
   * `generate_plantuml`: an empty description is refused before the generator
   * is called; a generator failure gives the generic error; otherwise the
   * diagram comes back with its quality verdict.
   */
  function GenerationResult(description: string, draw: string -> Option<string>): (r: VizResult)
    ensures description == "" ==> r == VizError(DescriptionRequired)
    ensures description != "" && draw(description).None? ==> r == VizError(GenerationFailed)
    ensures description != "" && draw(description).Some? ==>
              && r.Generated? && r.plantUml == draw(description).value
              && Quality(r.needsRefinement, r.feedback) == AnalyzeUmlQuality(r.plantUml, description)
              && (r.feedback != "" <==> r.needsRefinement)
  {
    if description == "" then VizError(DescriptionRequired)
    else match draw(description)
      case None => VizError(GenerationFailed)
      case Some(p) =>
        var q := AnalyzeUmlQuality(p, description);
        Generated(p, q.needsRefinement, q.feedback)
  }

  /**
   * `adjust_plantuml`: an empty diagram is generated afresh; otherwise the
   * direction patch or the stripped restyling answer is the new diagram, and
   * any failure gives the original diagram back with the error marker.
   */
  function AdjustResult(description: string, existing: string, request: string,
                        draw: string -> Option<string>,
                        restyle: (string, string, string) -> Option<string>): (r: VizResult)
    ensures existing == "" ==> r == GenerationResult(description, draw)
    ensures existing != "" ==> r.Adjusted? || r == AdjustFailed(existing)
    ensures existing != "" && PatchDirection(existing, request).Patched? ==>
              r == Adjusted(PatchDirection(existing, request).plantUml)
    ensures existing != "" && PatchDirection(existing, request).PatchFailed? ==> r == AdjustFailed(existing)
    ensures existing != "" && PatchDirection(existing, request).NotDirection? ==>
              r == (match restyle(description, existing, request)
                    case Some(t) => Adjusted(Strip(t))
                    case None => AdjustFailed(existing))
  {
    if existing == "" then GenerationResult(description, draw)
    else match PatchDirection(existing, request)
      case Patched(p) => Adjusted(p)
      case PatchFailed => AdjustFailed(existing)
      case NotDirection =>
        match restyle(description, existing, request)
        case Some(t) => Adjusted(Strip(t))
        case None => AdjustFailed(existing)
  }

  /**
   * `receive_message`: generation for `generate_plantuml` and
   * `update_domain_model`, adjustment, the held diagram, or an error record
   * naming the unknown type.
   */
  function Dispatch(m: Envelope, current: Option<string>, draw: string -> Option<string>,
                    restyle: (string, string, string) -> Option<string>): (r: VizResult)
    ensures m.kind == "generate_plantuml" || m.kind == "update_domain_model" ==>
              r == GenerationResult(Field(m.content, "domain_model_description"), draw)
    ensures m.kind == "adjust_plantuml" ==>
              r == AdjustResult(Field(m.content, "domain_model_description"), Field(m.content, "existing_plant_uml"),
                                Field(m.content, "adjustment_request"), draw, restyle)
    ensures m.kind == "get_plantuml" ==> r == CurrentPlantUml(current)
    ensures m.kind !in {"generate_plantuml", "update_domain_model", "adjust_plantuml", "get_plantuml"} ==>
              r == VizUnknown(m.kind)
  {
    if m.kind == "generate_plantuml" then GenerationResult(Field(m.content, "domain_model_description"), draw)
    else if m.kind == "adjust_plantuml" then
      AdjustResult(Field(m.content, "domain_model_description"), Field(m.content, "existing_plant_uml"),
                   Field(m.content, "adjustment_request"), draw, restyle)
    else if m.kind == "update_domain_model" then GenerationResult(Field(m.content, "domain_model_description"), draw)
    else if m.kind == "get_plantuml" then CurrentPlantUml(current)
    else VizUnknown(m.kind)
  }

  /**
   * The agent keeps the last diagram it produced and the names it is
   * connected to. Its notifications to the chat agent and its refinement
   * request to the description agent change no state there, so they are not
   * sent here.
   */
  class VisualizationAgent {
    var currentPlantUml: Option<string>
    var connected: set<string>

    constructor ()
      ensures currentPlantUml == None && connected == {}
    {
      currentPlantUml := None;
      connected := {};
    }

    method Connect(name: string)
      modifies this
      ensures connected == old(connected) + {name} && currentPlantUml == old(currentPlantUml)
    {
      connected := connected + {name};
    }

    /** Stores the generated diagram before judging it; a refusal or failure keeps the held one. */
    method GeneratePlantUml(description: string, draw: string -> Option<string>) returns (r: VizResult)
      modifies this
      ensures r == GenerationResult(description, draw)
      ensures currentPlantUml == StoredPlantUml(r, old(currentPlantUml)) && connected == old(connected)
    {
      if description == "" {
        return VizError(DescriptionRequired);
      }
      var answer := draw(description);
      if answer.None? {
        return VizError(GenerationFailed);
      }
      var plantUml := answer.value;
      currentPlantUml := Some(plantUml);
      var q := AnalyzeUmlQuality(plantUml, description);
      r := Generated(plantUml, q.needsRefinement, q.feedback);
    }

    /** Stores the adjusted diagram; a failed adjustment keeps the held one. */
    method AdjustPlantUml(description: string, existing: string, request: string,
                          draw: string -> Option<string>,
                          restyle: (string, string, string) -> Option<string>) returns (r: VizResult)
      modifies this
      ensures r == AdjustResult(description, existing, request, draw, restyle)
      ensures currentPlantUml == StoredPlantUml(r, old(currentPlantUml)) && connected == old(connected)
    {
      if existing == "" {
        r := GeneratePlantUml(description, draw);
        return;
      }
      var adjusted: string;
      match PatchDirection(existing, request) {
        case Patched(p) =>
          adjusted := p;
        case PatchFailed =>
          return AdjustFailed(existing);
        case NotDirection =>
          var answer := restyle(description, existing, request);
          if answer.None? {
            return AdjustFailed(existing);
          }
          adjusted := Strip(answer.value);
      }
      currentPlantUml := Some(adjusted);
      r := Adjusted(adjusted);
    }

    method GetCurrentPlantUml() returns (r: VizResult)
      ensures r == CurrentPlantUml(currentPlantUml)
    {
      r := CurrentPlantUml(currentPlantUml);
    }

    method ReceiveMessage(m: Envelope, draw: string -> Option<string>,
                          restyle: (string, string, string) -> Option<string>) returns (r: VizResult)
      modifies this
      ensures r == Dispatch(m, old(currentPlantUml), draw, restyle)
      ensures currentPlantUml == StoredPlantUml(r, old(currentPlantUml)) && connected == old(connected)
    {
      var description := Field(m.content, "domain_model_description");
      if m.kind == "generate_plantuml" || m.kind == "update_domain_model" {
        r := GeneratePlantUml(description, draw);
      } else if m.kind == "adjust_plantuml" {
        r := AdjustPlantUml(description, Field(m.content, "existing_plant_uml"),
                            Field(m.content, "adjustment_request"), draw, restyle);
      } else if m.kind == "get_plantuml" {
        r := GetCurrentPlantUml();
      } else {
        r := VizUnknown(m.kind);
      }
    }
  }
}
