/**
 * `ProjectService`: the project table with an embedded, append-only version
 * history per project. The document store is an in-memory map from project
 * name to its list of versions.
 */
module ProjectStore {
  import opened Wrappers
  import opened Text
  import opened ChatLog
  import Listing

  const InitialDescription := "Welcome to your new project! Start by describing your domain."
  const InitialPlantUml := "@startuml\nskinparam monochrome true\ntitle Your New Project\n\nclass ExampleEntity {\n  +id: string\n  +name: string\n}\n\nnote \"Start building your domain model!\" as N1\n@enduml"
  const InitialAssistant := "Welcome to your new project! How can I help you model your domain?"
  const ProjectPrefix := "Project "

  /** One snapshot of a project (the timestamp is not modelled). */
  datatype Version = Version(
    number: nat,
    userInput: Option<string>,
    assistant: Option<string>,
    description: string,
    plantUml: string)

  /** What `get_project_data` answers: the latest texts and the rebuilt chat. */
  datatype ProjectData = ProjectData(description: string, plantUml: string, chatHistory: seq<Message>)

  /** The projects collection: project name to version list. */
  type Table = map<string, seq<Version>>

  /** Versions are numbered 1, 2, ..., n in list order. */
  ghost predicate Numbered(vs: seq<Version>) {
    forall i :: 0 <= i < |vs| ==> vs[i].number == i + 1
  }

  /** The version a new project starts with. */
  function Seed(): (v: Version)
    ensures v.number == 1 && v.userInput == None && v.assistant == Some(InitialAssistant)
    ensures v.description == InitialDescription && v.plantUml == InitialPlantUml
  {
    Version(1, None, Some(InitialAssistant), InitialDescription, InitialPlantUml)
  }

  // ---------------------------------------------------------------------------
  // Fresh project names
  // ---------------------------------------------------------------------------

  /** `f"Project {k}"`. */
  function ProjectName(k: nat): (name: string)
    ensures ProjectPrefix <= name && |name| > |ProjectPrefix|
    ensures forall i :: |ProjectPrefix| <= i < |name| ==> '0' <= name[i] <= '9'
  {
    ProjectPrefix + ShowNat(k)
  }

  /** The number written after the prefix (0 for a name too short to have one). */
  function ProjectNumber(name: string): nat {
    if |name| >= |ProjectPrefix| then ParseDigits(name[|ProjectPrefix|..]) else 0
  }

  /** Distinct numbers give distinct names. */
  lemma ProjectNumberOfName(k: nat)
    ensures ProjectNumber(ProjectName(k)) == k
  {
    ParseShow(k);
    assert ProjectName(k)[|ProjectPrefix|..] == ShowNat(k);
  }

  lemma SubsetSize(s: set<string>, t: set<string>)
    requires s <= t
    ensures |s| <= |t|
  {
    assert t == s + (t - s);
  }

  /**
   * The counter loop of `create_project`: start from the number of projects
   * plus one and step up while the name is taken. The result is free, above
   * the project count, and every number skipped on the way was taken.
   */
  method FreshProjectNumber(taken: set<string>) returns (k: nat)
    ensures k > |taken|
    ensures ProjectName(k) !in taken
    ensures forall j :: |taken| < j < k ==> ProjectName(j) in taken
  {
    var count := |taken|;
    var name := ProjectName(count + 1);
    ghost var seen: set<string> := {};
    while name in taken
      invariant count >= |taken|
      invariant name == ProjectName(count + 1)
      invariant seen <= taken && |seen| == count - |taken|
      invariant forall s :: s in seen ==> ProjectNumber(s) <= count
      invariant forall j :: |taken| < j <= count ==> ProjectName(j) in taken
      decreases |taken| - |seen|
    {
      ProjectNumberOfName(count + 1);
      SubsetSize(seen + {name}, taken);
      seen := seen + {name};
      count := count + 1;
      name := ProjectName(count + 1);
    }
    k := count + 1;
  }

  // ---------------------------------------------------------------------------
  // Versions and the rebuilt chat
  // ---------------------------------------------------------------------------

  /**
   * The version `save_version` appends: numbered one past the last, with a
   * `None` description or diagram replaced by the latest version's value (or
   * the placeholder when there is none). Only `None` is replaced: an empty
   * text is stored as given.
   */
  function NextVersion(vs: seq<Version>, userInput: Option<string>, assistant: Option<string>,
                       description: Option<string>, plantUml: Option<string>): (v: Version)
    ensures v.number == |vs| + 1
    ensures v.userInput == userInput && v.assistant == assistant
    ensures description.Some? ==> v.description == description.value
    ensures description.None? && vs != [] ==> v.description == vs[|vs| - 1].description
    ensures description.None? && vs == [] ==> v.description == InitialDescription
    ensures plantUml.Some? ==> v.plantUml == plantUml.value
    ensures plantUml.None? && vs != [] ==> v.plantUml == vs[|vs| - 1].plantUml
    ensures plantUml.None? && vs == [] ==> v.plantUml == InitialPlantUml
  {
    var fallbackDescription := if vs != [] then vs[|vs| - 1].description else InitialDescription;
    var fallbackPlantUml := if vs != [] then vs[|vs| - 1].plantUml else InitialPlantUml;
    Version(|vs| + 1, userInput, assistant,
            description.GetOr(fallbackDescription), plantUml.GetOr(fallbackPlantUml))
  }

  /** The chat turns one version contributes: its user input, then its reply, each only if non-empty. */
  function Turns(v: Version): (turns: seq<Message>)
    ensures |turns| == (if Truthy(v.userInput) then 1 else 0) + (if Truthy(v.assistant) then 1 else 0)
    ensures Truthy(v.userInput) ==> turns[0] == Message(UserRole, v.userInput.value)
    ensures Truthy(v.assistant) ==> turns[|turns| - 1] == Message(AssistantRole, v.assistant.value)
  {
    (if Truthy(v.userInput) then [Message(UserRole, v.userInput.value)] else [])
    + (if Truthy(v.assistant) then [Message(AssistantRole, v.assistant.value)] else [])
  }

  /**
   * The chat history rebuilt from all versions in order. Every entry is a
   * non-empty user or assistant turn, and there are at most two per version.
   */
  function Transcript(vs: seq<Version>): (chat: seq<Message>)
    ensures |chat| <= 2 * |vs|
    ensures forall i :: 0 <= i < |chat| ==>
              chat[i].content != "" && (chat[i].role == UserRole || chat[i].role == AssistantRole)
    decreases |vs|
  {
    if vs == [] then [] else Turns(vs[0]) + Transcript(vs[1..])
  }

  /** Appending a version appends exactly its turns to the chat. */
  lemma {:induction false} TranscriptSnoc(vs: seq<Version>, v: Version)
    ensures Transcript(vs + [v]) == Transcript(vs) + Turns(v)
    decreases |vs|
  {
    if vs == [] {
      assert [v][1..] == [];
    } else {
      TranscriptSnoc(vs[1..], v);
      assert (vs + [v])[1..] == vs[1..] + [v];
    }
  }

  /** The loop of `get_project_data` that rebuilds the chat history. */
  method BuildChatHistory(versions: seq<Version>) returns (chat: seq<Message>)
    ensures chat == Transcript(versions)
  {
    chat := [];
    for i := 0 to |versions|
      invariant chat == Transcript(versions[..i])
    {
      var v := versions[i];
      if Truthy(v.userInput) {
        chat := chat + [Message(UserRole, v.userInput.value)];
      }
      if Truthy(v.assistant) {
        chat := chat + [Message(AssistantRole, v.assistant.value)];
      }
      TranscriptSnoc(versions[..i], v);
      assert versions[..i + 1] == versions[..i] + [v];
    }
    assert versions[..|versions|] == versions;
  }

  /** The current state of a project: its latest texts and the whole chat. */
  function CurrentState(vs: seq<Version>): ProjectData
    requires vs != []
  {
    ProjectData(vs[|vs| - 1].description, vs[|vs| - 1].plantUml, Transcript(vs))
  }

  // ---------------------------------------------------------------------------
  // The effect of each mutating operation on the table
  // ---------------------------------------------------------------------------

  /** `save_version`: one version appended to an existing, named project; otherwise no change. */
  function AfterSave(t: Table, name: string, userInput: Option<string>, assistant: Option<string>,
                     description: Option<string>, plantUml: Option<string>): (t': Table)
    ensures t'.Keys == t.Keys
    ensures forall other :: other in t && other != name ==> t'[other] == t[other]
    ensures name != "" && name in t ==> t'[name] == t[name] + [NextVersion(t[name], userInput, assistant, description, plantUml)]
    ensures name == "" || name !in t ==> t' == t
  {
    if name != "" && name in t
    then t[name := t[name] + [NextVersion(t[name], userInput, assistant, description, plantUml)]]
    else t
  }

  /** `undo_version`: the last version dropped, but never the only one. */
  function AfterUndo(t: Table, name: string): (t': Table)
    ensures t'.Keys == t.Keys
    ensures forall other :: other in t && other != name ==> t'[other] == t[other]
    ensures name in t ==> t'[name] <= t[name]
    ensures name != "" && name in t && |t[name]| > 1 ==> |t'[name]| == |t[name]| - 1
    ensures name == "" || name !in t || |t[name]| <= 1 ==> t' == t
  {
    if name != "" && name in t && |t[name]| > 1 then t[name := t[name][..|t[name]| - 1]] else t
  }

  /** `rename_project`: the history moves to the new key when the old exists and the new is free. */
  function AfterRename(t: Table, oldName: string, newName: string): (t': Table)
    ensures oldName == "" || newName == "" || newName in t || oldName !in t ==> t' == t
    ensures oldName != "" && newName != "" && newName !in t && oldName in t ==>
              && t'.Keys == t.Keys - {oldName} + {newName}
              && t'[newName] == t[oldName]
              && (forall other :: other in t && other != oldName ==> t'[other] == t[other])
  {
    if oldName == "" || newName == "" || newName in t || oldName !in t then t
    else (t - {oldName})[newName := t[oldName]]
  }

  /**
   * Saving appends exactly one version, numbered one past the previous count,
   * at the end; every earlier version and every other project is unchanged.
   */
  lemma SaveAppendsOneVersion(t: Table, name: string, userInput: Option<string>, assistant: Option<string>,
                              description: Option<string>, plantUml: Option<string>)
    requires name != "" && name in t
    ensures var t' := AfterSave(t, name, userInput, assistant, description, plantUml);
      && t'.Keys == t.Keys
      && |t'[name]| == |t[name]| + 1
      && t'[name][..|t[name]|] == t[name]
      && t'[name][|t[name]|].number == |t[name]| + 1
      && t'[name][|t[name]|].userInput == userInput
      && t'[name][|t[name]|].assistant == assistant
      && (forall other :: other in t && other != name ==> t'[other] == t[other])
  {
    var t' := AfterSave(t, name, userInput, assistant, description, plantUml);
    assert t'[name][..|t[name]|] == t[name];
  }

  /** Saving keeps the versions of the project numbered 1..n. */
  lemma {:induction false} SaveKeepsNumbering(vs: seq<Version>, userInput: Option<string>, assistant: Option<string>,
                                              description: Option<string>, plantUml: Option<string>)
    requires Numbered(vs)
    ensures Numbered(vs + [NextVersion(vs, userInput, assistant, description, plantUml)])
  {
    var v := NextVersion(vs, userInput, assistant, description, plantUml);
    forall i | 0 <= i < |vs + [v]|
      ensures (vs + [v])[i].number == i + 1
    {
      if i < |vs| {
        assert (vs + [v])[i] == vs[i];
      }
    }
  }

  /** Undo right after a save gives the table back: undo strictly removes the tail. */
  lemma UndoAfterSave(t: Table, name: string, userInput: Option<string>, assistant: Option<string>,
                      description: Option<string>, plantUml: Option<string>)
    requires name != "" && name in t && t[name] != []
    ensures AfterUndo(AfterSave(t, name, userInput, assistant, description, plantUml), name) == t
  {
    var vs := t[name];
    var v := NextVersion(vs, userInput, assistant, description, plantUml);
    assert (vs + [v])[..|vs|] == vs;
    assert t[name := vs] == t;
  }

  /** Undo never touches the seed: the first version of every project survives. */
  lemma UndoKeepsSeed(t: Table, name: string, other: string)
    requires other in t && t[other] != []
    ensures other in AfterUndo(t, name)
    ensures AfterUndo(t, name)[other] != [] && AfterUndo(t, name)[other][0] == t[other][0]
  {
  }

  /**
   * Fetching after a save answers the saved texts, and the chat ends with the
   * saved exchange: `save(p, "hello", "hi there", "D1", "U1")` then fetch.
   */
  lemma {:induction false} FetchAfterSave(t: Table, name: string, userInput: string, assistant: string,
                                          description: string, plantUml: string)
    requires name != "" && name in t
    requires userInput != "" && assistant != ""
    ensures var vs := AfterSave(t, name, Some(userInput), Some(assistant), Some(description), Some(plantUml))[name];
      && vs != []
      && CurrentState(vs) == ProjectData(description, plantUml,
           Transcript(t[name]) + [Message(UserRole, userInput), Message(AssistantRole, assistant)])
  {
    var v := NextVersion(t[name], Some(userInput), Some(assistant), Some(description), Some(plantUml));
    TranscriptSnoc(t[name], v);
  }

  /** A `None` text carries the previous version's text forward, however many saves in a row. */
  lemma {:induction false} NoneCarriesForward(vs: seq<Version>, inputs: seq<string>)
    requires vs != []
    ensures var vs' := SaveAllWithoutTexts(vs, inputs);
      && |vs'| == |vs| + |inputs|
      && vs'[|vs'| - 1].description == vs[|vs| - 1].description
      && vs'[|vs'| - 1].plantUml == vs[|vs| - 1].plantUml
    decreases |inputs|
  {
    if inputs != [] {
      NoneCarriesForward(vs + [NextVersion(vs, Some(inputs[0]), None, None, None)], inputs[1..]);
    }
  }

  /** A run of saves that pass `None` for both texts, one per user input. */
  function SaveAllWithoutTexts(vs: seq<Version>, inputs: seq<string>): seq<Version>
    decreases |inputs|
  {
    if inputs == [] then vs
    else SaveAllWithoutTexts(vs + [NextVersion(vs, Some(inputs[0]), None, None, None)], inputs[1..])
  }

  /** A successful rename moves the whole history to the new name and changes nothing else. */
  lemma RenameMovesHistory(t: Table, oldName: string, newName: string)
    requires oldName != "" && newName != "" && oldName in t && newName !in t
    ensures var t' := AfterRename(t, oldName, newName);
      && t'.Keys == t.Keys - {oldName} + {newName}
      && t'[newName] == t[oldName]
      && (forall other :: other in t && other != oldName ==> t'[other] == t[other])
  {
  }

  // ---------------------------------------------------------------------------
  // The service
  // ---------------------------------------------------------------------------

  class ProjectService {
    var projects: Table

    /** Every project's versions are numbered 1..n. */
    ghost predicate Valid()
      reads this
    {
      forall name :: name in projects ==> Numbered(projects[name])
    }

    constructor ()
      ensures Valid() && projects == map[]
    {
      projects := map[];
    }

    /** All project names, each once. */
    method GetProjects() returns (names: seq<string>)
      ensures forall n :: n in names <==> n in projects
      ensures forall i, j :: 0 <= i < j < |names| ==> names[i] != names[j]
    {
      names := Listing.ListNames(projects.Keys);
    }

    /**
     * Allocates the first free "Project N" with N above the project count
     * and stores a project holding only the seed version.
     */
    method CreateProject() returns (name: string)
      requires Valid()
      modifies this
      ensures Valid()
      ensures name !in old(projects)
      ensures projects == old(projects)[name := [Seed()]]
      ensures name == ProjectName(ProjectNumber(name)) && ProjectNumber(name) > |old(projects)|
      ensures forall j :: |old(projects)| < j < ProjectNumber(name) ==> ProjectName(j) in old(projects)
    {
      assert |projects.Keys| == |projects|;
      var k := FreshProjectNumber(projects.Keys);
      ProjectNumberOfName(k);
      name := ProjectName(k);
      projects := projects[name := [Seed()]];
    }

    /** 400 for an empty name, 409 for a taken new name, 404 for a missing old name. */
    method RenameProject(oldName: string, newName: string) returns (r: Outcome<()>)
      requires Valid()
      modifies this
      ensures Valid()
      ensures projects == AfterRename(old(projects), oldName, newName)
      ensures oldName == "" || newName == "" ==> r == Failure(BadRequest)
      ensures oldName != "" && newName != "" && newName in old(projects) ==> r == Failure(Conflict)
      ensures oldName != "" && newName != "" && newName !in old(projects) && oldName !in old(projects)
              ==> r == Failure(NotFound)
      ensures oldName != "" && newName != "" && newName !in old(projects) && oldName in old(projects)
              ==> r == Success(())
    {
      if newName == "" || oldName == "" {
        return Failure(BadRequest);
      }
      if newName in projects {
        return Failure(Conflict);
      }
      if oldName !in projects {
        return Failure(NotFound);
      }
      projects := (projects - {oldName})[newName := projects[oldName]];
      r := Success(());
    }

    /** The latest texts and the rebuilt chat; 400 for an empty name, 404 for a missing or empty project. */
    method GetProjectData(name: string) returns (r: Outcome<ProjectData>)
      ensures name == "" ==> r == Failure(BadRequest)
      ensures name != "" && (name !in projects || projects[name] == []) ==> r == Failure(NotFound)
      ensures name != "" && name in projects && projects[name] != [] ==> r == Success(CurrentState(projects[name]))
    {
      if name == "" {
        return Failure(BadRequest);
      }
      if name !in projects {
        return Failure(NotFound);
      }
      var versions := projects[name];
      if versions == [] {
        return Failure(NotFound);
      }
      var latest := versions[|versions| - 1];
      var chat := BuildChatHistory(versions);
      r := Success(ProjectData(latest.description, latest.plantUml, chat));
    }

    /** Appends the next version; 400 for an empty name and 404 for a missing project, both without change. */
    method SaveVersion(name: string, userInput: Option<string>, assistant: Option<string>,
                       description: Option<string>, plantUml: Option<string>) returns (r: Outcome<nat>)
      requires Valid()
      modifies this
      ensures Valid()
      ensures projects == AfterSave(old(projects), name, userInput, assistant, description, plantUml)
      ensures name == "" ==> r == Failure(BadRequest)
      ensures name != "" && name !in old(projects) ==> r == Failure(NotFound)
      ensures name != "" && name in old(projects) ==> r == Success(|old(projects)[name]| + 1)
    {
      if name == "" {
        return Failure(BadRequest);
      }
      if name !in projects {
        return Failure(NotFound);
      }
      var versions := projects[name];
      var d, u := description, plantUml;
      if versions != [] {
        var latest := versions[|versions| - 1];
        if d.None? {
          d := Some(latest.description);
        }
        if u.None? {
          u := Some(latest.plantUml);
        }
      } else {
        if d.None? {
          d := Some(InitialDescription);
        }
        if u.None? {
          u := Some(InitialPlantUml);
        }
      }
      var next := |versions| + 1;
      var v := Version(next, userInput, assistant, d.value, u.value);
      assert v == NextVersion(versions, userInput, assistant, description, plantUml);
      SaveKeepsNumbering(versions, userInput, assistant, description, plantUml);
      projects := projects[name := versions + [v]];
      r := Success(next);
    }

    /** Drops the last version and answers the new current state; 400 when only the seed is left. */
    method UndoVersion(name: string) returns (r: Outcome<ProjectData>)
      requires Valid()
      modifies this
      ensures Valid()
      ensures projects == AfterUndo(old(projects), name)
      ensures name == "" ==> r == Failure(BadRequest)
      ensures name != "" && name !in old(projects) ==> r == Failure(NotFound)
      ensures name != "" && name in old(projects) && |old(projects)[name]| <= 1 ==> r == Failure(BadRequest)
      ensures name != "" && name in old(projects) && |old(projects)[name]| > 1
              ==> name in projects && projects[name] != [] && r == Success(CurrentState(projects[name]))
    {
      if name == "" {
        return Failure(BadRequest);
      }
      if name !in projects {
        return Failure(NotFound);
      }
      var versions := projects[name];
      if |versions| <= 1 {
        return Failure(BadRequest);
      }
      projects := projects[name := versions[..|versions| - 1]];
      r := GetProjectData(name);
    }
  }
}
