# Domain-modelling copilot backend, modelled in Dafny

This project models the backend of the domain-modelling copilot. A user chats about a domain. Three cooperating agents turn the conversation into a textual domain model and a PlantUML class diagram. Every exchange is saved as a new version of the project.

The model covers:

- **Project store (`ProjectStore`).** A map from project name to an append-only list of versions. It models creating a project with a fresh "Project N" name, renaming, saving a version with carry-forward of missing texts, undo, and fetching the current state with a chat transcript rebuilt from all versions.
- **Chat agent (`Orchestrator`).** Validates a user message and flattens the conversation to `User: …` / `Assistant: …` lines. It classifies the message, routes it to one of five branches in a fixed order, and saves exactly one version (none when the project is missing from the store).
- **Description agent (`DescriptionAgent`).** Dispatches on message type and keeps the current model. Its refinement step turns out to be the identity. It also guards question answering against an empty model.
- **Visualization agent (`Visualization`).** Generates a diagram and applies the relationship-counting quality heuristic. It patches the layout direction of an existing diagram ("left to right" / "top to bottom").
- **LLM service (`Llm`).** Post-parse defaulting of a classification record, the two fail-soft fallback records, and the sentinel returned when description generation fails.
- **Small state holders.** `ChatHistory` (module `ChatLog`) and `DomainModelDescription` (module `DescriptionHolder`).
- **Legacy store (`LegacyProjects`).** Projects holding named files, with upsert of a file record and duplicate checks.

Every language-model call is a function parameter. The description generator, the diagram generator and the free-text diagram restyler return `Option`, where `None` means the call raised. The classifier returns `ClassifierReply`: `Raised`, `NoFunctionCall` (a reply without a function call) or `FunctionCall` (the name and arguments of the call). MongoDB is an in-memory map. The Python string operations the code relies on (`in`, `split`, `join`, `strip`, `lower`, `str(int)`) are written out in module `Text`.

Proved properties include:

- Fresh project names.
- Versions numbered 1..n; undo right after a save restores the table.
- The rebuilt chat equals the loop's output and gains the saved version's non-empty turns (one exchange when both texts are non-empty).
- Each chat branch carries over exactly the texts it should.
- Left-to-right patching inserts exactly one line and is idempotent.
- Top-to-bottom patching leaves no left-to-right line.
- The refinement step never changes the generated model.
- Wired into the running system, every request takes the casual branch. The classifier never emits the keys the router reads (`Orchestrator.WiredRoutingIsCasual`).
- The file upsert leaves exactly one record per name.

The model follows the code as written. Some points where its behaviour is easy to misread:

- **Branch order.** The branches are tested in the code's order: description-only (by type or flag), diagram adjustment, generation (by type or flag), question, then everything else.
- **Carry-forward.** `save_version` replaces only a `None` text by the previous one. An empty string is stored as given.
- **Failed generation.** The sentinel "An error occurred while generating …" is saved as the description like any other text. A diagram that failed to generate in the generation branch is saved as `""`.
- **Current description.** The chat agent's own `LLMService` never generates a description. Its `current_dmd` is therefore always the project's stored description (`Orchestrator.AgentChat.CurrentIsExisting`).
- **Default diagram.** For a project without versions, the chat agent falls back to a default diagram that already has a `left to right direction` line. The store's seed diagram has none.
- **Shared conversation.** The chat agent's conversation is one list per chat controller, not one per project. It is shared by all projects until the home page is loaded again, which builds a new controller. So the text handed to the classifier and the generators also holds the turns about earlier projects.

## Model

| member | source | states |
|---|---|---|
| ChatLog.ChatHistory.constructor | src/model/chat_history.py:4-6 | a new history is empty |
| ChatLog.ChatHistory.AddMessage | src/model/chat_history.py:8-10 | exactly one `{role, content}` entry appended at the end, earlier entries unchanged |
| ChatLog.ChatHistory.GetMessages | src/model/chat_history.py:12-14 | all entries in insertion order, nothing changed |
| ChatLog.ChatHistory.Clear | src/model/chat_history.py:16-18 | the history is empty afterwards |
| DescriptionHolder.DomainModelDescription.constructor | src/model/domain_model_description.py:4-6 | the initial text is the argument |
| DescriptionHolder.DomainModelDescription.SetText | src/model/domain_model_description.py:8-10 | the held text becomes `t` |
| DescriptionHolder.DomainModelDescription.AddText | src/model/domain_model_description.py:12-14 | replaces the held text rather than appending |
| DescriptionHolder.DomainModelDescription.GetText | src/model/domain_model_description.py:16-18 | returns the held text and changes nothing |
| DescriptionHolder.SetThenGet | src/model/domain_model_description.py:8-18 | after `set_text(t)`, `get_text()` answers `t` |
| Llm.DefaultSuggestion | src/model/llm_service.py:134-144 | the one default line, by precedence style change > casual > update > decision > otherwise |
| Llm.Normalize | src/model/llm_service.py:128-146 | missing `is_style_change` becomes false; `style_type` becomes "general" only when missing on a style change; missing or empty suggestions become exactly one default line; no other key changes |
| Llm.NormalizeIdempotent | src/model/llm_service.py:128-146 | defaulting a defaulted record changes nothing |
| Llm.FallbackRecord | src/model/llm_service.py:149-155 | the fixed record: the four flags false and a single suggestion |
| Llm.DetermineInputType | src/model/llm_service.py:122-166 | a `get_decision` call is defaulted; any other reply gives the no-call record; a raised call gives the error record; it never raises |
| Llm.DescriptionText | src/model/llm_service.py:168-191 | the stripped answer, or the fixed sentinel when the call raised |
| Llm.LLMService.constructor | src/model/llm_service.py:10-14 | a fresh empty history and no held description |
| Llm.LLMService.GenerateDomainModelDescription | src/model/llm_service.py:168-191 | on success stores and returns the stripped text; on failure returns the sentinel and keeps the stored text |
| Llm.LLMService.AddToChatHistory | src/model/llm_service.py:194-196 | appends one message |
| Llm.LLMService.GetChatHistory | src/model/llm_service.py:198-200 | the held history |
| Llm.LLMService.ClearChatHistory | src/model/llm_service.py:202-204 | the held history is empty afterwards |
| Llm.LLMService.GetCurrentDomainModelDescription | src/model/llm_service.py:206-208 | the last stored description |
| Listing.ListNames | src/model/project_service.py:24-29 | every project name exactly once |
| ProjectStore.Seed | src/model/project_service.py:53-66 | version 1, no user input, the welcome reply, the placeholder description and diagram |
| ProjectStore.ProjectNumberOfName | src/model/project_service.py:40-45 | the number is recovered from "Project N", so distinct counters give distinct names |
| ProjectStore.ProjectName | src/model/project_service.py:41-45 | "Project " followed by the decimal digits of the counter |
| ProjectStore.FreshProjectNumber | src/model/project_service.py:40-45 | the counter loop ends on a free name above the project count, and every number it skipped was taken |
| ProjectStore.NextVersion | src/model/project_service.py:157-183 | numbered `len + 1`; a `None` text is replaced by the latest version's (or the placeholder without versions), and any other value, `""` included, is kept |
| ProjectStore.Turns | src/model/project_service.py:122-126 | the user turn first and the assistant turn last, each present exactly when its text is non-empty |
| ProjectStore.Transcript | src/model/project_service.py:120-126 | at most two turns per version, each a non-empty user or assistant turn |
| ProjectStore.TranscriptSnoc | src/model/project_service.py:120-126 | a new version adds exactly its own turns at the end of the chat |
| ProjectStore.BuildChatHistory | src/model/project_service.py:120-126 | the loop builds exactly the transcript |
| ProjectStore.AfterSave | src/model/project_service.py:140-190 | an existing, named project gains exactly the next version at the end; otherwise, and for every other project, nothing changes |
| ProjectStore.AfterUndo | src/model/project_service.py:200-221 | the project's list becomes a prefix one shorter when it has more than one version; otherwise, and for every other project, nothing changes |
| ProjectStore.AfterRename | src/model/project_service.py:77-93 | on success the history moves to the new key and every other project stays; any refusal leaves the table unchanged |
| ProjectStore.SaveAppendsOneVersion | src/model/project_service.py:174-190 | one version appended at the end with the next number and the given turns; earlier versions and other projects unchanged |
| ProjectStore.SaveKeepsNumbering | src/model/project_service.py:174-183 | versions stay numbered 1..n |
| ProjectStore.UndoAfterSave | src/model/project_service.py:213-221 | undo right after a save gives the table back |
| ProjectStore.UndoKeepsSeed | src/model/project_service.py:213-215 | undo never removes a project's first version |
| ProjectStore.FetchAfterSave | src/model/project_service.py:114-131 | after a save, the fetch answers the saved texts and the chat ends with the saved version's non-empty turns |
| ProjectStore.NoneCarriesForward | src/model/project_service.py:157-165 | any run of saves with `None` texts keeps the last description and diagram |
| ProjectStore.RenameMovesHistory | src/model/project_service.py:77-93 | a successful rename moves the whole history to the new name and changes nothing else |
| ProjectStore.ProjectService.GetProjects | src/model/project_service.py:24-29 | exactly the stored project names, each once |
| ProjectStore.ProjectService.CreateProject | src/model/project_service.py:34-69 | stores a seed-only project under the first free "Project N" above the count |
| ProjectStore.ProjectService.RenameProject | src/model/project_service.py:77-93 | 400 for an empty name, 409 for a taken new name (itself included), 404 for a missing old name, else only the key changes |
| ProjectStore.ProjectService.GetProjectData | src/model/project_service.py:98-138 | 400 / 404 / 404 without versions, else the latest texts and the rebuilt chat |
| ProjectStore.ProjectService.SaveVersion | src/model/project_service.py:140-198 | 400 and 404 leave the store unchanged; otherwise the next version is appended |
| ProjectStore.ProjectService.UndoVersion | src/model/project_service.py:200-231 | 400 for one version or fewer; otherwise exactly the last version is removed and the new current state is answered |
| Agents.Field | src/model/AgentDomainModelVisualization.py:41-48 | `content.get(key, "")` |
| Agents.NotConnected | src/model/AgentDomainModelDescription.py:21-22 | the error text names the missing agent |
| Agents.Deliver | src/model/AgentDomainModelDescription.py:19-31 | a message is handed over exactly when the name is connected, else `ValueError` |
| Visualization.DirectiveSlot | src/model/AgentDomainModelVisualization.py:156-159 | index 1 exactly when the first line holds `@startuml`, else 0 |
| Visualization.WithDirective | src/model/AgentDomainModelVisualization.py:156-159 | one line inserted at the slot; removing it gives the list back |
| Visualization.DropLines | src/model/AgentDomainModelVisualization.py:167-167 | no kept line holds the directive, and every line without it is kept |
| Visualization.DropLinesCounts | src/model/AgentDomainModelVisualization.py:167-167 | a line without the directive keeps all its copies; a line with it keeps none |
| Visualization.DropLinesAppend | src/model/AgentDomainModelVisualization.py:167-167 | the filter keeps the order of the lines: filtering a concatenation filters each part |
| Visualization.PatchDirection | src/model/AgentDomainModelVisualization.py:150-173 | "left to right" wins over "top to bottom"; neither phrase goes to the model; an existing directive is left as is |
| Visualization.LeftToRightInserts | src/model/AgentDomainModelVisualization.py:151-160 | exactly one `left to right direction` line, at index 1 after a `@startuml` first line or else at 0; all other lines kept in order |
| Visualization.LeftToRightIdempotent | src/model/AgentDomainModelVisualization.py:151-162 | asking twice equals asking once |
| Visualization.TopToBottomReplaces | src/model/AgentDomainModelVisualization.py:164-173 | the lines without the left-to-right directive, in order (`DropLinesAppend`), plus `top to bottom direction` at the slot; no result line holds the left-to-right directive; fails exactly when no line is left |
| Visualization.TopToBottomOnBareDirectiveFails | src/model/AgentDomainModelVisualization.py:166-172 | a diagram that is only the left-to-right directive hits the empty-list index |
| Visualization.CountContaining | src/model/AgentDomainModelVisualization.py:114-117 | counts lines holding the marker; zero exactly when none does |
| Visualization.RelationshipCount | src/model/AgentDomainModelVisualization.py:113-119 | the four counts added, at most four per line |
| Visualization.AnalyzeUmlQuality | src/model/AgentDomainModelVisualization.py:110-135 | refinement is asked for exactly when fewer than 2 relationships, or "class" in the description with no `": "` in the diagram; feedback is non-empty exactly then |
| Visualization.NoLinksNeedsRefinement | src/model/AgentDomainModelVisualization.py:113-126 | a diagram without "--" always gets the few-relationships feedback |
| Visualization.PlantUmlOr | src/model/AgentChat.py:153-153 | `result.get("plant_uml", default)` over the agent's records |
| Visualization.StoredPlantUml | src/model/AgentDomainModelVisualization.py:72-73 | the held diagram is replaced only by a generated or adjusted diagram |
| Visualization.GenerationResult | src/model/AgentDomainModelVisualization.py:62-108 | empty description refused before the generator; generator failure gives the generic error; otherwise the diagram with its quality verdict |
| Visualization.AdjustResult | src/model/AgentDomainModelVisualization.py:141-214 | an empty diagram is generated afresh; otherwise the patch or the stripped restyling, and on any failure the original diagram with the error marker |
| Visualization.Dispatch | src/model/AgentDomainModelVisualization.py:33-60 | the four message types, else an error record naming the type |
| Visualization.VisualizationAgent.constructor | src/model/AgentDomainModelVisualization.py:8-12 | no diagram held, nothing connected |
| Visualization.VisualizationAgent.Connect | src/model/AgentDomainModelVisualization.py:14-17 | the name is connected |
| Visualization.VisualizationAgent.GeneratePlantUml | src/model/AgentDomainModelVisualization.py:62-108 | the result above; the generated diagram is held, and a refusal or failure keeps the held one |
| Visualization.VisualizationAgent.AdjustPlantUml | src/model/AgentDomainModelVisualization.py:141-214 | the result above; only a successful adjustment replaces the held diagram |
| Visualization.VisualizationAgent.GetCurrentPlantUml | src/model/AgentDomainModelVisualization.py:137-139 | the held diagram |
| Visualization.VisualizationAgent.ReceiveMessage | src/model/AgentDomainModelVisualization.py:33-60 | the dispatch above, and the held diagram changes only for a new diagram |
| DescriptionAgent.DescriptionOr | src/model/AgentChat.py:120-120 | `result.get("domain_model_description", default)` |
| DescriptionAgent.DiagramOr | src/model/AgentDomainModelDescription.py:98-98 | `result.get("plant_uml", default)` |
| DescriptionAgent.Refine | src/model/AgentDomainModelDescription.py:137-164 | with feedback and a non-empty model, the model unchanged and the diagram passed through; else acknowledged |
| DescriptionAgent.Generation | src/model/AgentDomainModelDescription.py:61-107 | with visualization connected, a description-and-diagram record (an empty description gets an empty diagram); without it, the description alone |
| DescriptionAgent.RefinementIsIdentity | src/model/AgentDomainModelDescription.py:80-107 | generation answers the generated description and the drawn diagram (or `""`), whatever the heuristic says; without visualization, the description alone |
| DescriptionAgent.Reply | src/model/AgentDomainModelDescription.py:33-59 | the four message types, else an error record |
| DescriptionAgent.ModelAfter | src/model/AgentDomainModelDescription.py:39-47 | only the two generating types replace the held model |
| DescriptionAgent.AnswerAsWritten | src/model/AgentDomainModelDescription.py:170-199 | the empty-model answer, else always the error record |
| DescriptionAgent.AnswerQuestion | src/model/AgentDomainModelDescription.py:170-199 | the empty-model answer, else the stripped model answer or the error record |
| DescriptionAgent.AnswerAsWrittenNeverAnswers | src/model/AgentDomainModelDescription.py:175-199 | both versions agree on the guard; as written, no question about a model is answered |
| DescriptionAgent.AnswerAsWrittenExample | src/model/AgentDomainModelDescription.py:189-199 | a concrete question that gets the error record as written and an answer once corrected |
| DescriptionAgent.DomainModelAgent.constructor | src/model/AgentDomainModelDescription.py:8-12 | its own fresh service, no model, nothing connected |
| DescriptionAgent.DomainModelAgent.Connect | src/model/AgentDomainModelDescription.py:14-17 | the name is connected |
| DescriptionAgent.DomainModelAgent.GenerateDomainModel | src/model/AgentDomainModelDescription.py:61-110 | the generated description is held before the diagram is requested; the diagram is requested only when visualization is connected |
| DescriptionAgent.DomainModelAgent.GenerateDescriptionOnly | src/model/AgentDomainModelDescription.py:112-135 | a record with the description only, never a diagram; the description is held |
| DescriptionAgent.DomainModelAgent.RefineDomainModel | src/model/AgentDomainModelDescription.py:137-164 | the refine record, nothing changed |
| DescriptionAgent.DomainModelAgent.GetDomainModel | src/model/AgentDomainModelDescription.py:166-168 | the held model |
| DescriptionAgent.DomainModelAgent.ReceiveMessage | src/model/AgentDomainModelDescription.py:33-59 | the reply above; only the two generating types replace the held model, the service's text (when the model answers) and, for full generation with visualization connected, the diagram; every other type leaves all of them unchanged |
| Orchestrator.Line | src/model/AgentChat.py:88-88 | "User: " for a user entry, "Assistant: " for any other |
| Orchestrator.Lines | src/model/AgentChat.py:87-90 | one line per entry, in order |
| Orchestrator.Flatten | src/model/AgentChat.py:86-90 | empty exactly for an empty conversation, otherwise starting with the first entry's line |
| Orchestrator.FlattenSnoc | src/model/AgentChat.py:87-90 | one more entry adds one line at the end |
| Orchestrator.FlattenSplitsBack | src/model/AgentChat.py:87-90 | without line breaks in the entries, the text splits back into the entries' lines |
| Orchestrator.SuggestionText | src/model/AgentChat.py:98-99 | list suggestions joined by "\n", a bare string as is, else "" |
| Orchestrator.RequestType | src/model/AgentChat.py:94-94 | a missing type reads as OFF_TOPIC |
| Orchestrator.Route | src/model/AgentChat.py:109-220 | the precedence description-only > adjustment > generation > question > other |
| Orchestrator.WiredRoutingIsCasual | src/model/AgentChat.py:94-171 | classifications of the schema's keys, and both fallbacks, take the casual branch |
| Orchestrator.Existing | src/model/AgentChat.py:72-79 | the latest texts, or the chat agent's defaults |
| Orchestrator.CurrentDescription | src/model/AgentChat.py:106-106 | the held description when non-empty, else the existing one |
| Orchestrator.Decide | src/model/AgentChat.py:108-237 | raises exactly when the branch's agent is not connected, naming it; description-only keeps the diagram; adjustment keeps the current description; question and casual keep both |
| Orchestrator.GenerationBranchSaves | src/model/AgentChat.py:171-192 | generation saves the new description and the drawn diagram (`""` if drawing failed), or the existing diagram without visualization |
| Orchestrator.AdjustmentBranchSaves | src/model/AgentChat.py:138-162 | adjustment saves the adjusted diagram, or a freshly drawn one when the stored diagram is empty, or the existing one on failure |
| Orchestrator.ModelAfterRoute | src/model/AgentDomainModelDescription.py:66-69 | the description agent's model is replaced by the generated description exactly when a description-only or generation branch reaches it |
| Orchestrator.ServiceTextAfterRoute | src/model/llm_service.py:168-191 | the description agent's service changes its text only when a generating branch reaches it and the model answers, and then to the stripped answer |
| Orchestrator.AdjustedDiagramAfter | src/model/AgentChat.py:138-150 | the visualization agent's diagram changes only in the adjustment branch with the agent connected, and then as the adjustment stores it |
| Orchestrator.GeneratedDiagramAfter | src/model/AgentDomainModelDescription.py:80-87 | the visualization agent's diagram changes only in the generation branch when both hops are connected, and then as the generation stores it |
| Orchestrator.ReplyFor | src/model/AgentChat.py:131-237 | question and casual replies carry the whole conversation; the others carry the texts |
| Orchestrator.AgentChat.constructor | src/model/AgentChat.py:8-14 | a fresh service, empty conversation, no project |
| Orchestrator.AgentChat.Connect | src/model/AgentChat.py:16-19 | the name is connected |
| Orchestrator.AgentChat.CurrentIsExisting | src/model/AgentChat.py:106-106 | the chat agent's current description is always the project's |
| Orchestrator.AgentChat.RecordExchange | src/model/AgentChat.py:82-103 | the conversation grows by the user turn and the assistant turn built from the classification of the flattened conversation; nothing else changes |
| Orchestrator.AgentChat.RouteRequest | src/model/AgentChat.py:108-199 | returns exactly the decision above; only the agent the branch reaches changes (the description agent's model and service text, or the diagram of the adjusting or drawing visualization agent), and question and casual change no agent |
| Orchestrator.AgentChat.HandleUserInput | src/model/AgentChat.py:63-237 | empty input: error, and no conversation, store or agent state changed; otherwise one user and one assistant turn appended, exactly one version saved with both turns and the branch's texts (none if an agent is missing or the project is not in the store), and the other agents change only as the branch says |
| LegacyProjects.IndexOf | models/project_manager.py:42-51 | the first file with the name, or the length |
| LegacyProjects.FindFile | models/project_manager.py:42-51 | the search loop stops at exactly that first match |
| LegacyProjects.Upsert | models/project_manager.py:41-58 | replace the first match in place, else append |
| LegacyProjects.UpsertWritesOne | models/project_manager.py:33-58 | grows by at most one; other files unchanged; with unique names, exactly one record has the name and it is the submitted one |
| LegacyProjects.AfterSubmit | models/project_manager.py:22-58 | the project is created with the submitter's name when missing, and the record is upserted into its files; other projects stay |
| LegacyProjects.SubmitKeepsUniqueNames | models/project_manager.py:41-58 | a submit keeps the file names of every project unique |
| LegacyProjects.FileNames | models/project_manager.py:148-148 | the names in stored order |
| LegacyProjects.ProjectManager.SubmitToDatabase | models/project_manager.py:15-63 | 400 with nothing changed for an empty name; otherwise the project is created if missing and the file upserted; names stay unique |
| LegacyProjects.ProjectManager.GetProjects | models/project_manager.py:65-73 | distinct project names |
| LegacyProjects.ProjectManager.CreateProject | models/project_manager.py:75-96 | 400 for an empty or taken name; otherwise a project with no files |
| LegacyProjects.ProjectManager.CreateFile | models/project_manager.py:98-133 | 400 / 404 / 400 for a duplicate; otherwise an empty record appended |
| LegacyProjects.ProjectManager.GetFiles | models/project_manager.py:135-152 | 400 / 404 / the file names in order |

## Left out

- MongoDB is an in-memory map. Connection set-up, the "database not available" and `modified_count` 500 paths, exceptions from the driver, timestamps and logging are not modelled.
- Both stores use the same `projects` collection. The model keeps them as two separate maps, so `count_documents` counts only the versioned projects.
- ProjectStore.ProjectService.GetProjects: the order of the names is not modelled, only that each appears once.
- LegacyProjects.ProjectManager.GetProjects: the order of the names is not modelled, only that each appears once.
- Language-model calls are function parameters. Prompts, model names, JSON parsing of the reply and the free-text content of answers are not modelled. JSON `null` and a missing key are not distinguished in a classification record.
- The `refine_domain_model` request the visualization agent sends back to the description agent, and every notification sent to the chat agent, are not sent in the model. The description agent re-stores its model unchanged, and the chat agent answers these types with an error record that nobody reads. So neither changes any state.
- `AgentChat.receive_message` only ever gets the two notifications, and it answers both with the unknown-type error record. Its other branches and `AgentChat.generate_domain_model_description_only` are never reached, so none of them is modelled.
- The description agent's `{"error": "Failed to generate domain model description"}` path cannot be reached: generation never raises. It is not modelled.
- Text.Lower: folds ASCII capitals only, not full Unicode `str.lower()`. It is exact for the phrases the code looks for.
- The front end, Flask routes and controllers, `openai_client.py`, `llm_wrapper.py`, `scenario.py`, `chatbot.py` and `user.py` are not part of this model.

## Findings

| source | as written | input that shows it | evidently intended | confidence | as-written member | corrected member |
|---|---|---|---|---|---|---|
| src/model/AgentDomainModelDescription.py:189-199 | the call goes through `self._client`, which this agent never sets, so the `AttributeError` is always caught and every question about an existing model gets the error record | question "Which entities are there?" about the model "A library lends books." | ask the language model and return its stripped answer | high (not executed) | DescriptionAgent.AnswerAsWritten | DescriptionAgent.AnswerQuestion |
