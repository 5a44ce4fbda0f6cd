/** The upload route (src/routes/upload.js): the multer file filter that admits only
    requirement documents, the search for an unused project name, and the handler that creates
    the project and saves one document per file inside one transaction, all or nothing. */
module Upload {
  import opened JsText
  import opened JsonValues

  // ---------------------------------------------------------------------------
  // path.extname and the file filter
  // ---------------------------------------------------------------------------

  /** The path with its trailing `/` characters dropped. */
  function DropTrailingSlashes(p: string): (r: string)
    ensures |r| <= |p| && r == p[..|r|]
    ensures |r| > 0 ==> r[|r| - 1] != '/'
    decreases |p|
  {
    if |p| > 0 && Last(p) == '/' then DropTrailingSlashes(Init(p)) else p
  }

  /** The last segment of the path, after trailing slashes are dropped. */
  function LastSegment(p: string): (b: string)
    ensures '/' !in b
  {
    var q := DropTrailingSlashes(p);
    var s := LastIndexOf(q, '/');
    if s.Some? then q[s.value + 1..] else q
  }

  /** `path.extname`: the last segment from its last `.` on; empty when the segment has no
      `.`, when that `.` is its first character (`.bashrc`), or for the segment `..`. */
  function ExtName(p: string): string {
    var b := LastSegment(p);
    var d := LastIndexOf(b, '.');
    if d.None? || d.value == 0 || b == ".." then "" else b[d.value..]
  }

  /** An extension is empty, or a `.` followed by no other `.` and no `/`. */
  lemma ExtNameShape(p: string)
    ensures var x := ExtName(p);
      x == "" || (x[0] == '.' && '.' !in x[1..] && '/' !in x && EndsWith(DropTrailingSlashes(p), x))
    ensures '.' !in p ==> ExtName(p) == ""
  {
    var q := DropTrailingSlashes(p);
    var b := LastSegment(p);
    var d := LastIndexOf(b, '.');
    var s := LastIndexOf(q, '/');
    if d.Some? && d.value != 0 && b != ".." {
      var x := b[d.value..];
      assert x[1..] == b[d.value + 1..];
      assert EndsWith(b, x);
      if s.Some? {
        assert q[|q| - |x|..] == b[|b| - |x|..];
      }
    }
    if '.' !in p {
      assert forall k :: 0 <= k < |q| ==> q[k] == p[k];
      assert '.' !in q;
      if s.Some? {
        assert forall k :: 0 <= k < |b| ==> b[k] == q[s.value + 1 + k];
      }
    }
  }

  /** A plain file name `stem.e` with a non-empty stem has the extension `.e`, except for
      the name `..` itself. */
  lemma ExtNameOfFileName(stem: string, e: string)
    requires |stem| > 0 && '/' !in stem && '/' !in e && '.' !in e
    requires stem + "." + e != ".."
    ensures ExtName(stem + "." + e) == "." + e
  {
    var name := stem + "." + e;
    FileNameIsSegment(stem, e);
    LastDotOfFileName(stem, e);
    assert name[|stem|..] == "." + e;
  }

  lemma FileNameIsSegment(stem: string, e: string)
    requires '/' !in stem && '/' !in e
    ensures LastSegment(stem + "." + e) == stem + "." + e
  {
    var name := stem + "." + e;
    assert '/' !in name by {
      forall k | 0 <= k < |name| ensures name[k] != '/' {
        if k < |stem| { assert name[k] == stem[k]; }
        else if k > |stem| { assert name[k] == e[k - |stem| - 1]; }
      }
    }
    assert DropTrailingSlashes(name) == name;
  }

  lemma LastDotOfFileName(stem: string, e: string)
    requires '.' !in e
    ensures LastIndexOf(stem + "." + e, '.') == Some(|stem|)
  {
    var name := stem + "." + e;
    var d := LastIndexOf(name, '.');
    assert name[|stem|] == '.';
    assert name[|stem| + 1..] == e;
  }

  const AllowedTypes: seq<string> := [".txt", ".md", ".pdf", ".docx", ".doc"]

  /** What the filter tells multer: admit the file, or refuse the upload with a message. */
  datatype FilterVerdict = Admit | Refuse(message: string)

  /** The `fileFilter` of the multer configuration. */
  function FileFilter(originalname: string): FilterVerdict {
    var ext := ToLower(ExtName(originalname));
    if ext in AllowedTypes then Admit
    else Refuse("File type " + ext + " not allowed. Allowed types: " + Join(AllowedTypes, ", "))
  }

  /** A file name `stem.e` is admitted exactly when `.e` lower-cased is one of the five
      document types; a name without a `.` is refused. */
  lemma FileFilterSpec(stem: string, e: string)
    requires |stem| > 0 && '/' !in stem && '/' !in e && '.' !in e
    requires stem + "." + e != ".."
    ensures FileFilter(stem + "." + e).Admit? <==> ToLower("." + e) in AllowedTypes
  {
    ExtNameOfFileName(stem, e);
  }

  lemma FileFilterRefusesNoExtension(name: string)
    requires '.' !in name
    ensures FileFilter(name).Refuse?
  {
    ExtNameShape(name);
    assert ToLower("") == "";
  }

  /** The filter ignores the case of the extension. */
  lemma FileFilterIgnoresCase(stem: string, e: string)
    requires |stem| > 0 && '/' !in stem && '/' !in e && '.' !in e
    requires stem + "." + e != ".."
    ensures FileFilter(stem + "." + e).Admit? <==> FileFilter(stem + "." + ToLower(e)).Admit?
  {
    LowerKeepsSeparators(e);
    FileFilterSpec(stem, e);
    FileFilterSpec(stem, ToLower(e));
    LowerAfterDot(e);
  }

  lemma LowerKeepsSeparators(e: string)
    requires '/' !in e && '.' !in e
    ensures '/' !in ToLower(e) && '.' !in ToLower(e) && |ToLower(e)| == |e|
  {
    var le := ToLower(e);
    forall k | 0 <= k < |le| ensures le[k] != '/' && le[k] != '.' {
      assert e[k] != '/' && e[k] != '.';
    }
  }

  lemma LowerAfterDot(e: string)
    ensures ToLower("." + e) == ToLower("." + ToLower(e))
  {
    var le := ToLower(e);
    forall k | 0 <= k < |e| + 1 ensures ToLower("." + e)[k] == ToLower("." + le)[k] {
      if k > 0 { assert ("." + e)[k] == e[k - 1] && ("." + le)[k] == le[k - 1]; }
    }
  }

  /** A dot file such as `.md` has no extension and is refused. */
  lemma DotFileRefused()
    ensures FileFilter(".md").Refuse?
  {
    assert DropTrailingSlashes(".md") == ".md";
    assert LastSegment(".md") == ".md";
    assert LastIndexOf(".md", '.') == Some(0);
    assert ToLower("") == "";
  }

  // ---------------------------------------------------------------------------
  // A unique project name
  // ---------------------------------------------------------------------------

  const MaxAttempts: nat := 100

  /** The name tried at each attempt: the base name, then `base (1)`, `base (2)`, ... */
  function Candidate(base: string, attempt: nat): string {
    if attempt == 0 then base else base + " (" + NatToString(attempt) + ")"
  }

  /** The attempt at which the search stops, starting from `from`: the first candidate that
      no project has, or attempt 100, whose candidate is not checked. */
  function StopAttempt(base: string, taken: set<string>, from: nat): nat
    requires from <= MaxAttempts
    decreases MaxAttempts - from
  {
    if from < MaxAttempts && Candidate(base, from) in taken then StopAttempt(base, taken, from + 1) else from
  }

  function UniqueName(base: string, taken: set<string>): string {
    Candidate(base, StopAttempt(base, taken, 0))
  }

  /** The `while (nameExists && attempt < 100)` loop, with the names already in the
      projects table as `taken`. */
  method FindUniqueName(base: string, taken: set<string>) returns (projectName: string)
    ensures projectName == UniqueName(base, taken)
  {
    projectName := base;
    var attempt := 0;
    var nameExists := true;
    while nameExists && attempt < MaxAttempts
      invariant attempt <= MaxAttempts && projectName == Candidate(base, attempt)
      invariant nameExists ==> StopAttempt(base, taken, attempt) == StopAttempt(base, taken, 0)
      invariant !nameExists ==> StopAttempt(base, taken, 0) == attempt
      decreases MaxAttempts - attempt, nameExists
    {
      if projectName !in taken {
        nameExists := false;
      } else {
        attempt := attempt + 1;
        projectName := base + " (" + NatToString(attempt) + ")";
      }
    }
  }

  /** The search tries the candidates in order and stops at the first free one among the
      first hundred; when all hundred are taken it settles on `base (100)` unchecked. */
  lemma {:induction false} StopAttemptSpec(base: string, taken: set<string>, from: nat)
    requires from <= MaxAttempts
    ensures var n := StopAttempt(base, taken, from);
      from <= n <= MaxAttempts
      && (forall k :: from <= k < n ==> Candidate(base, k) in taken)
      && (n < MaxAttempts ==> Candidate(base, n) !in taken)
    decreases MaxAttempts - from
  {
    if from < MaxAttempts && Candidate(base, from) in taken {
      StopAttemptSpec(base, taken, from + 1);
    }
  }

  lemma UniqueNameSpec(base: string, taken: set<string>)
    ensures exists n ::
      (0 <= n <= MaxAttempts && UniqueName(base, taken) == Candidate(base, n)
       && (forall k :: 0 <= k < n ==> Candidate(base, k) in taken)
       && (n < MaxAttempts ==> UniqueName(base, taken) !in taken))
    ensures (forall k :: 0 <= k < MaxAttempts ==> Candidate(base, k) in taken) ==> UniqueName(base, taken) == base + " (100)"
  {
    StopAttemptSpec(base, taken, 0);
    LastCandidate(base);
  }

  lemma LastCandidate(base: string)
    ensures Candidate(base, MaxAttempts) == base + " (100)"
  {
    assert NatToString(10) == "10";
  }

  /** Different attempts try different names, so no name is tried twice. */
  lemma CandidatesDistinct(base: string, i: nat, j: nat)
    requires i != j
    ensures Candidate(base, i) != Candidate(base, j)
  {
    if i > 0 && j > 0 && Candidate(base, i) == Candidate(base, j) {
      var a, b := NatToString(i), NatToString(j);
      var ci, cj := Candidate(base, i), Candidate(base, j);
      assert |a| == |b|;
      assert a == ci[|base| + 2..|ci| - 1];
      assert b == cj[|base| + 2..|cj| - 1];
      NatToStringInjective(i, j);
    }
  }

  // ---------------------------------------------------------------------------
  // The handler
  // ---------------------------------------------------------------------------

  /** What happens to one file inside the transaction: its text is extracted and its
      document row inserted, or the extraction fails (`extractFileContent` wraps the reason),
      or the insert fails. */
  datatype FileStep = Saved(content: string) | ExtractionFailed(reason: string) | InsertFailed(reason: string)

  /** A file multer stored: its original name, its temporary path, and how saving it goes. */
  datatype UploadedFile = UploadedFile(originalname: string, path: string, step: FileStep)

  /** The request fields; `""` stands for a missing field. */
  datatype UploadRequest = UploadRequest(
    files: seq<UploadedFile>,
    projectName: string,
    projectDescription: string,
    projectType: string)

  /** The database and the clock as the handler sees them: the project names in use, the id
      the new project receives, and `Date.now()` for the default name. */
  datatype UploadWorld = UploadWorld(taken: set<string>, newProjectId: nat, now: nat)

  datatype ProjectRow = ProjectRow(id: nat, name: string, description: string, projectType: string, status: string)

  /** A row of the documents table. Its `file_type` column is always `FileType(filename)`, so
      the model derives it from the filename instead of storing it. */
  datatype DocumentRow = DocumentRow(projectId: nat, filename: string, content: string)

  /** The reply, the rows committed (none after a rollback), and the temporary files
      unlinked, in order. */
  datatype UploadOutcome = UploadOutcome(
    reply: HttpReply,
    project: Option<ProjectRow>,
    documents: seq<DocumentRow>,
    unlinked: seq<string>)

  /** The `file_type` stored with a document and named in an extraction error. */
  function FileType(filename: string): string {
    ToLower(ExtName(filename))
  }

  function DocumentOf(projectId: nat, f: UploadedFile): DocumentRow
    requires f.step.Saved?
  {
    DocumentRow(projectId, f.originalname, f.step.content)
  }

  /** The error message a failing file carries to the catch block. */
  function FailureOf(f: UploadedFile): string
    requires !f.step.Saved?
  {
    if f.step.ExtractionFailed? then "Failed to extract content from " + FileType(f.originalname) + " file: " + f.step.reason
    else f.step.reason
  }

  /** The documents saved and the files unlinked so far, and the error that ended the loop. */
  datatype Progress = Progress(documents: seq<DocumentRow>, unlinked: seq<string>, failure: Option<string>)

  function SaveFile(s: Progress, projectId: nat, f: UploadedFile): Progress {
    if f.step.Saved? then Progress(s.documents + [DocumentOf(projectId, f)], s.unlinked + [f.path], None)
    else s.(failure := Some(FailureOf(f)))
  }

  /** The `for (const file of req.files)` loop; the first error leaves it. */
  function SaveFiles(projectId: nat, files: seq<UploadedFile>): Progress
    decreases |files|
  {
    if |files| == 0 then Progress([], [], None)
    else
      var s := SaveFiles(projectId, Init(files));
      if s.failure.Some? then s else SaveFile(s, projectId, Last(files))
  }

  function Paths(files: seq<UploadedFile>): (ps: seq<string>)
    ensures |ps| == |files| && forall k :: 0 <= k < |files| ==> ps[k] == files[k].path
  {
    seq(|files|, k requires 0 <= k < |files| => files[k].path)
  }

  function UploadedBody(project: ProjectRow, documents: seq<DocumentRow>): Json {
    JObject([
      ("success", JBool(true)),
      ("project", JObject([("id", JNumber(project.id)), ("name", JString(project.name))])),
      ("documents", JArray(seq(|documents|, k requires 0 <= k < |documents| =>
        JObject([("filename", JString(documents[k].filename))])))),
      ("message", JString("Successfully uploaded " + NatToString(|documents|) + " document(s)"))])
  }

  /** The base name: the requested one, else `Project <Date.now()>`. */
  function BaseName(req: UploadRequest, w: UploadWorld): string {
    if req.projectName != "" then req.projectName else "Project " + NatToString(w.now)
  }

  function NewProject(req: UploadRequest, w: UploadWorld): ProjectRow {
    ProjectRow(w.newProjectId, UniqueName(BaseName(req, w), w.taken), req.projectDescription,
      if req.projectType != "" then req.projectType else "application", "active")
  }

  /** `POST /api/upload` from the files multer admitted. */
  function UploadRoute(req: UploadRequest, w: UploadWorld): UploadOutcome {
    if |req.files| == 0 then UploadOutcome(HttpReply(400, ErrorBody("No files uploaded")), None, [], [])
    else
      var project := NewProject(req, w);
      var s := SaveFiles(w.newProjectId, req.files);
      if s.failure.Some? then
        UploadOutcome(HttpReply(500, FailureBody("Upload failed", s.failure.value)), None, [], s.unlinked + Paths(req.files))
      else
        UploadOutcome(HttpReply(200, UploadedBody(project, s.documents)), Some(project), s.documents, s.unlinked)
  }

  /** The handler, step by step: the name search, the loop over the files, and on an error the
      rollback and the removal of every temporary file. */
  method HandleUpload(req: UploadRequest, w: UploadWorld) returns (out: UploadOutcome)
    ensures out == UploadRoute(req, w)
  {
    if |req.files| == 0 {
      return UploadOutcome(HttpReply(400, ErrorBody("No files uploaded")), None, [], []);
    }
    var baseProjectName := if req.projectName != "" then req.projectName else "Project " + NatToString(w.now);
    var projectName := FindUniqueName(baseProjectName, w.taken);
    var project := ProjectRow(w.newProjectId, projectName, req.projectDescription,
      if req.projectType != "" then req.projectType else "application", "active");
    var saved := SaveEach(w.newProjectId, req.files);
    if saved.failure.Some? {
      var unlinked := UnlinkAll(saved.unlinked, req.files);
      return UploadOutcome(HttpReply(500, FailureBody("Upload failed", saved.failure.value)), None, [], unlinked);
    }
    return UploadOutcome(HttpReply(200, UploadedBody(project, saved.documents)), Some(project), saved.documents, saved.unlinked);
  }

  /** The loop over the files inside the transaction; a failing file leaves it. */
  method SaveEach(projectId: nat, files: seq<UploadedFile>) returns (saved: Progress)
    ensures saved == SaveFiles(projectId, files)
  {
    var documents: seq<DocumentRow> := [];
    var unlinked: seq<string> := [];
    var failure: Option<string> := None;
    var i := 0;
    while i < |files| && failure.None?
      invariant 0 <= i <= |files|
      invariant Progress(documents, unlinked, failure) == SaveFiles(projectId, files[..i])
      decreases |files| - i
    {
      var file := files[i];
      PrefixStep(files, i);
      if file.step.Saved? {
        documents := documents + [DocumentRow(projectId, file.originalname, file.step.content)];
        unlinked := unlinked + [file.path];
      } else {
        failure := Some(FailureOf(file));
      }
      i := i + 1;
    }
    SavingStopsAtFailure(projectId, files, i);
    saved := Progress(documents, unlinked, failure);
  }

  /** The catch block's loop: every temporary file is unlinked, after those already removed. */
  method UnlinkAll(removed: seq<string>, files: seq<UploadedFile>) returns (unlinked: seq<string>)
    ensures unlinked == removed + Paths(files)
  {
    unlinked := removed;
    for k := 0 to |files|
      invariant unlinked == removed + Paths(files[..k])
    {
      PrefixStep(files, k);
      unlinked := unlinked + [files[k].path];
    }
    assert files[..|files|] == files;
  }

  /** Once a file has failed, the files after it change nothing. */
  lemma {:induction false} SavingStopsAtFailure(projectId: nat, files: seq<UploadedFile>, i: nat)
    requires i <= |files|
    requires SaveFiles(projectId, files[..i]).failure.Some? || i == |files|
    ensures SaveFiles(projectId, files) == SaveFiles(projectId, files[..i])
    decreases |files|
  {
    if i < |files| {
      assert Init(files)[..i] == files[..i];
      SavingStopsAtFailure(projectId, Init(files), i);
    } else {
      assert files[..i] == files;
    }
  }

  /** The loop saves the files in order up to the first one that fails: every file before it
      gives its document row and has its temporary file unlinked. */
  lemma {:induction false} SaveFilesSpec(projectId: nat, files: seq<UploadedFile>)
    ensures var s := SaveFiles(projectId, files);
      |s.documents| == |s.unlinked| <= |files|
      && (forall k :: 0 <= k < |s.documents| ==>
            files[k].step.Saved? && s.documents[k] == DocumentOf(projectId, files[k]) && s.unlinked[k] == files[k].path)
      && (s.failure.None? <==> |s.documents| == |files|)
      && (s.failure.Some? ==> !files[|s.documents|].step.Saved? && s.failure.value == FailureOf(files[|s.documents|]))
    decreases |files|
  {
    if |files| > 0 {
      var init := Init(files);
      var s0 := SaveFiles(projectId, init);
      var s := SaveFiles(projectId, files);
      SaveFilesSpec(projectId, init);
      assert forall k :: 0 <= k < |init| ==> files[k] == init[k];
      if s0.failure.None? && Last(files).step.Saved? {
        forall k | 0 <= k < |s.documents|
          ensures files[k].step.Saved? && s.documents[k] == DocumentOf(projectId, files[k]) && s.unlinked[k] == files[k].path
        {
          if k < |s0.documents| {
            assert s.documents[k] == s0.documents[k] && s.unlinked[k] == s0.unlinked[k];
          } else {
            assert k == |init| && files[k] == Last(files);
          }
        }
      }
    }
  }

  /** All or nothing: the project and its documents are committed exactly when every file is
      saved, with one document per file in upload order; otherwise nothing is. */
  lemma UploadAllOrNothing(req: UploadRequest, w: UploadWorld)
    ensures var out := UploadRoute(req, w);
      (out.project.Some? <==> |req.files| > 0 && forall k :: 0 <= k < |req.files| ==> req.files[k].step.Saved?)
      && (out.project.None? ==> out.documents == [] && out.reply.status != 200)
      && (out.project.Some? ==>
            (out.project.value == NewProject(req, w) && out.reply.status == 200
             && |out.documents| == |req.files|
             && forall k :: 0 <= k < |req.files| ==> out.documents[k] == DocumentOf(w.newProjectId, req.files[k])))
  {
    SaveFilesSpec(w.newProjectId, req.files);
  }

  /** Every temporary file is unlinked: after each save on success, and all of them again in
      the catch block on failure. An empty upload is refused before the transaction. */
  lemma UploadRemovesTemporaryFiles(req: UploadRequest, w: UploadWorld)
    ensures var out := UploadRoute(req, w);
      (|req.files| == 0 ==> out.reply == HttpReply(400, ErrorBody("No files uploaded")) && out.unlinked == [] && out.project.None?)
      && (forall k :: 0 <= k < |req.files| ==> req.files[k].path in out.unlinked)
      && (out.project.Some? ==> out.unlinked == Paths(req.files))
  {
    var s := SaveFiles(w.newProjectId, req.files);
    SaveFilesSpec(w.newProjectId, req.files);
    var out := UploadRoute(req, w);
    forall k | 0 <= k < |req.files| ensures req.files[k].path in out.unlinked {
      if s.failure.Some? {
        assert out.unlinked[|s.unlinked| + k] == req.files[k].path;
      } else {
        assert out.unlinked[k] == req.files[k].path;
      }
    }
  }

  /** The project row: the unique name derived from the requested or default base name, the
      description defaulting to empty and the type to `application`. */
  lemma NewProjectDefaults(req: UploadRequest, w: UploadWorld)
    ensures var p := NewProject(req, w);
      p.description == req.projectDescription
      && (req.projectType == "" ==> p.projectType == "application")
      && (req.projectType != "" ==> p.projectType == req.projectType)
      && (req.projectName == "" ==> StartsWith(p.name, "Project "))
      && (req.projectName != "" ==> StartsWith(p.name, req.projectName))
      && p.status == "active"
  {
    var base := BaseName(req, w);
    var n := StopAttempt(base, w.taken, 0);
    assert StartsWith(Candidate(base, n), base);
    if req.projectName == "" {
      assert StartsWith(base, "Project ");
      assert Candidate(base, n)[..|"Project "|] == base[..|"Project "|];
    }
  }
}
