/**
 * `ProjectManager`: the older project store, where each project holds a list
 * of named files, each with a scenario, a diagram and a chat history.
 */
module LegacyProjects {
  import opened Wrappers
  import opened ChatLog
  import Listing

  const Ok: nat := 200

  /** One entry of a project's `files` list. */
  datatype FileRecord = FileRecord(
    fileName: string,
    scenario: Option<string>,
    plantUml: Option<string>,
    chatHistory: seq<Message>)

  datatype LegacyProject = LegacyProject(username: string, files: seq<FileRecord>)

  /** No two files of the list share a name. */
  ghost predicate UniqueNames(files: seq<FileRecord>) {
    forall i, j :: 0 <= i < |files| && 0 <= j < |files| && files[i].fileName == files[j].fileName ==> i == j
  }

  /** The position of the first file with this name, or the length of the list when there is none. */
  function IndexOf(files: seq<FileRecord>, name: string): (i: nat)
    ensures i <= |files|
    ensures forall j :: 0 <= j < i ==> files[j].fileName != name
    ensures i < |files| ==> files[i].fileName == name
  {
    if files == [] then 0
    else if files[0].fileName == name then 0
    else 1 + IndexOf(files[1..], name)
  }

  /** The loop of `submit_to_database` that looks for the file, stopping at the first match. */
  method FindFile(files: seq<FileRecord>, name: string) returns (found: bool, i: nat)
    ensures i == IndexOf(files, name)
    ensures found <==> i < |files|
  {
    found := false;
    i := 0;
    while i < |files|
      invariant i <= |files|
      invariant forall j :: 0 <= j < i ==> files[j].fileName != name
    {
      if files[i].fileName == name {
        found := true;
        break;
      }
      i := i + 1;
    }
    IndexOfIsFirst(files, name, i);
  }

  /** The first match is the only index before which no file has the name and at which one has it. */
  lemma {:induction false} IndexOfIsFirst(files: seq<FileRecord>, name: string, i: nat)
    requires i <= |files|
    requires forall j :: 0 <= j < i ==> files[j].fileName != name
    requires i < |files| ==> files[i].fileName == name
    ensures i == IndexOf(files, name)
    decreases i
  {
    if i > 0 {
      IndexOfIsFirst(files[1..], name, i - 1);
    }
  }

  /** Replace the first file with the same name in place, or append the file. */
  function Upsert(files: seq<FileRecord>, f: FileRecord): (r: seq<FileRecord>)
    ensures IndexOf(files, f.fileName) < |files| ==> r == files[IndexOf(files, f.fileName) := f]
    ensures IndexOf(files, f.fileName) == |files| ==> r == files + [f]
  {
    var i := IndexOf(files, f.fileName);
    if i < |files| then files[i := f] else files + [f]
  }

  /**
   * The file list grows by at most one, every file with another name stays
   * where it was, and the submitted record is present; with unique names
   * before, names stay unique and the record is the only one with its name.
   */
  lemma UpsertWritesOne(files: seq<FileRecord>, f: FileRecord)
    ensures var r := Upsert(files, f);
      && |files| <= |r| <= |files| + 1
      && (forall j :: 0 <= j < |files| && files[j].fileName != f.fileName ==> r[j] == files[j])
      && f in r
    ensures UniqueNames(files) ==>
              var r := Upsert(files, f);
              && UniqueNames(r)
              && forall j :: 0 <= j < |r| && r[j].fileName == f.fileName ==> r[j] == f
  {
    var r := Upsert(files, f);
    var i := IndexOf(files, f.fileName);
    assert r[if i < |files| then i else |files|] == f;
  }

  /** The file names, in stored order. */
  function FileNames(files: seq<FileRecord>): (names: seq<string>)
    ensures |names| == |files| && forall i :: 0 <= i < |files| ==> names[i] == files[i].fileName
  {
    seq(|files|, i requires 0 <= i < |files| => files[i].fileName)
  }

  /** The collection after a submit: the project created if missing, then the file written into it. */
  function AfterSubmit(t: map<string, LegacyProject>, projectName: string, username: string, f: FileRecord)
    : (t': map<string, LegacyProject>)
    ensures t'.Keys == t.Keys + {projectName}
    ensures forall other :: other in t && other != projectName ==> t'[other] == t[other]
    ensures projectName in t ==> t'[projectName] == t[projectName].(files := Upsert(t[projectName].files, f))
    ensures projectName !in t ==> t'[projectName] == LegacyProject(username, [f])
  {
    var p := if projectName in t then t[projectName] else LegacyProject(username, []);
    t[projectName := p.(files := Upsert(p.files, f))]
  }

  /** A submit keeps file names unique in every project. */
  lemma SubmitKeepsUniqueNames(t: map<string, LegacyProject>, projectName: string, username: string, f: FileRecord)
    requires forall name :: name in t ==> UniqueNames(t[name].files)
    ensures var t' := AfterSubmit(t, projectName, username, f);
      forall name :: name in t' ==> UniqueNames(t'[name].files)
  {
    var files := if projectName in t then t[projectName].files else [];
    UpsertWritesOne(files, f);
  }

  class ProjectManager {
    var projects: map<string, LegacyProject>

    /** Within every project, file names are unique. */
    ghost predicate Valid()
      reads this
    {
      forall name :: name in projects ==> UniqueNames(projects[name].files)
    }

    constructor ()
      ensures Valid() && projects == map[]
    {
      projects := map[];
    }

    /**
     * 400 for an empty project or file name, with nothing changed; otherwise
     * the project is created when missing and the file record is written in
     * place of the first file with its name, or appended.
     */
    method SubmitToDatabase(projectName: string, fileName: string, username: string, scenario: Option<string>,
                            plantUml: Option<string>, chatHistory: seq<Message>) returns (status: nat)
      requires Valid()
      modifies this
      ensures Valid()
      ensures projectName == "" || fileName == "" ==> status == BadRequest && projects == old(projects)
      ensures projectName != "" && fileName != "" ==>
                && status == Ok
                && projects == AfterSubmit(old(projects), projectName, username,
                                           FileRecord(fileName, scenario, plantUml, chatHistory))
    {
      if projectName == "" || fileName == "" {
        return BadRequest;
      }
      ghost var before := projects;
      if projectName !in projects {
        projects := projects[projectName := LegacyProject(username, [])];
      }
      var project := projects[projectName];
      var record := FileRecord(fileName, scenario, plantUml, chatHistory);
      var found, i := FindFile(project.files, fileName);
      var files := if found then project.files[i := record] else project.files + [record];
      assert files == Upsert(project.files, record);
      projects := projects[projectName := project.(files := files)];
      assert projects == AfterSubmit(before, projectName, username, record);
      SubmitKeepsUniqueNames(before, projectName, username, record);
      status := Ok;
    }

    /** Every project name, each once. */
    method GetProjects() returns (names: seq<string>)
      ensures forall n :: n in names <==> n in projects
      ensures forall i, j :: 0 <= i < j < |names| ==> names[i] != names[j]
    {
      names := Listing.ListNames(projects.Keys);
    }

    /** 400 for an empty or taken name; otherwise a project with no files. */
    method CreateProject(projectName: string, username: string) returns (status: nat)
      requires Valid()
      modifies this
      ensures Valid()
      ensures projectName == "" || projectName in old(projects) ==> status == BadRequest && projects == old(projects)
      ensures projectName != "" && projectName !in old(projects) ==>
                status == Ok && projects == old(projects)[projectName := LegacyProject(username, [])]
    {
      if projectName == "" || projectName in projects {
        return BadRequest;
      }
      projects := projects[projectName := LegacyProject(username, [])];
      status := Ok;
    }

    /**
     * 400 for an empty name, 404 for a missing project, 400 for a file name
     * already in the project; otherwise an empty file record is appended.
     */
    method CreateFile(projectName: string, fileName: string) returns (status: nat)
      requires Valid()
      modifies this
      ensures Valid()
      ensures projectName == "" || fileName == "" ==> status == BadRequest && projects == old(projects)
      ensures projectName != "" && fileName != "" && projectName !in old(projects) ==>
                status == NotFound && projects == old(projects)
      ensures projectName != "" && fileName != "" && projectName in old(projects)
              && fileName in FileNames(old(projects)[projectName].files) ==>
                status == BadRequest && projects == old(projects)
      ensures projectName != "" && fileName != "" && projectName in old(projects)
              && fileName !in FileNames(old(projects)[projectName].files) ==>
                && status == Ok
                && projects == old(projects)[projectName := old(projects)[projectName].(
                     files := old(projects)[projectName].files + [FileRecord(fileName, None, None, [])])]
    {
      if projectName == "" || fileName == "" {
        return BadRequest;
      }
      if projectName !in projects {
        return NotFound;
      }
      var project := projects[projectName];
      var found, _ := FindFile(project.files, fileName);
      if found {
        return BadRequest;
      }
      assert fileName !in FileNames(project.files);
      projects := projects[projectName := project.(files := project.files + [FileRecord(fileName, None, None, [])])];
      status := Ok;
    }

    /** 400 for an empty name, 404 for a missing project, else the file names in stored order. */
    method GetFiles(projectName: string) returns (r: Outcome<seq<string>>)
      ensures projectName == "" ==> r == Failure(BadRequest)
      ensures projectName != "" && projectName !in projects ==> r == Failure(NotFound)
      ensures projectName != "" && projectName in projects ==> r == Success(FileNames(projects[projectName].files))
    {
      if projectName == "" {
        return Failure(BadRequest);
      }
      if projectName !in projects {
        return Failure(NotFound);
      }
      r := Success(FileNames(projects[projectName].files));
    }
  }
}
