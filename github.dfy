/**
 * `PRResult` and `GitHubPRCreator` of pr_creator.py, against an abstract
 * GitHub repository. Every REST call becomes one `ApiRequest` applied to a
 * `Remote`: the repository state, the log of requests made so far, and the
 * failures that chosen requests will meet (by their position in the log).
 */
module GitHub {
  import opened Wrappers
  import opened Values
  import opened Text

  // ---------------------------------------------------------------------------
  // The repository
  // ---------------------------------------------------------------------------

  datatype FileRev = FileRev(sha: string, content: string)

  datatype PullRequest = PullRequest(
    number: nat, url: string, title: string, body: string,
    head: string, base: string, labels: seq<string>)

  /**
   * What the tool can see of a repository: the default branch (which the
   * repository answer may lack), the head commit of every branch, the file
   * tree of every commit by path, the pull requests in the order they were
   * opened, a counter for fresh ids, and the repository's web address.
   */
  datatype RepoState = RepoState(
    defaultBranch: Option<string>,
    branches: map<string, string>,
    trees: map<string, map<string, FileRev>>,
    pulls: seq<PullRequest>,
    nextId: nat,
    htmlUrl: string)

  /** The REST calls the creator makes, with the payload fields it sends. */
  datatype ApiRequest =
    | GetRepo
    | GetBranch(branch: string)
    | GetRef(branch: string)
    | CreateRef(branch: string, commit: string)
    | GetContents(path: string, ref: string)
    | PutContents(path: string, branch: string, message: string, content: string, sha: Option<string>)
    | CreatePull(title: string, body: string, head: string, base: string)
    | AddLabels(number: nat, labels: seq<string>)

  /** The parts of each JSON answer the creator reads. */
  datatype ApiResponse =
    | RepoInfo(defaultBranch: Option<string>)
    | BranchInfo
    | RefInfo(commit: string)
    | Written
    | Contents(fileSha: Option<string>)
    | PullInfo(number: nat, url: string)
    | Labelled

  /** An `HTTPError` with its status code and message, or any other exception. */
  datatype Failure = HttpError(code: int, message: string) | OtherError(description: string)

  const NOT_FOUND: Failure := HttpError(404, "Not Found")
  const PULL_EXISTS: string := "Validation Failed"

  /** The answer has the kind the request asks for. */
  predicate Answers(req: ApiRequest, resp: ApiResponse) {
    match req
    case GetRepo => resp.RepoInfo?
    case GetBranch(_) => resp.BranchInfo?
    case GetRef(_) => resp.RefInfo?
    case CreateRef(_, _) => resp.Written?
    case GetContents(_, _) => resp.Contents?
    case PutContents(_, _, _, _, _) => resp.Written?
    case CreatePull(_, _, _, _) => resp.PullInfo?
    case AddLabels(_, _) => resp.Labelled?
  }

  /** `q` is `p`, possibly with more labels. */
  predicate SamePull(p: PullRequest, q: PullRequest) {
    q.(labels := p.labels) == p && |p.labels| <= |q.labels| && q.labels[..|p.labels|] == p.labels
  }

  /** Nothing is ever taken away: branches, commits and pull requests only accumulate. */
  predicate Grows(a: RepoState, b: RepoState) {
    && a.defaultBranch == b.defaultBranch && a.htmlUrl == b.htmlUrl
    && a.branches.Keys <= b.branches.Keys
    && a.trees.Keys <= b.trees.Keys
    && |a.pulls| <= |b.pulls|
    && (forall i :: 0 <= i < |a.pulls| ==> SamePull(a.pulls[i], b.pulls[i]))
  }

  lemma GrowsTransitive(a: RepoState, b: RepoState, c: RepoState)
    requires Grows(a, b) && Grows(b, c)
    ensures Grows(a, c)
  {
    forall i | 0 <= i < |a.pulls| ensures SamePull(a.pulls[i], c.pulls[i]) {
      var p, q, r := a.pulls[i], b.pulls[i], c.pulls[i];
      assert q.labels[..|p.labels|] == r.labels[..|q.labels|][..|p.labels|];
    }
  }

  predicate HasPull(s: RepoState, head: string, base: string) {
    exists i :: 0 <= i < |s.pulls| && s.pulls[i].head == head && s.pulls[i].base == base
  }

  function PullUrl(s: RepoState, number: nat): string {
    s.htmlUrl + "/pull/" + IntToString(number)
  }

  /** The files a branch holds: the tree of its head commit (none for an unknown commit). */
  function FilesOf(s: RepoState, branch: string): map<string, FileRev> {
    if branch in s.branches && s.branches[branch] in s.trees then s.trees[s.branches[branch]] else map[]
  }

  /** The sha a file on a branch has now, if there is such a file. */
  function CurrentSha(s: RepoState, branch: string, path: string): Option<string> {
    if path in FilesOf(s, branch) then Some(FilesOf(s, branch)[path].sha) else None
  }

  /**
   * A write of `content` to `path` on `branch`: a new blob and a new commit,
   * named by a fresh id, whose tree is the branch's tree with the file put
   * in; the branch moves to it.
   */
  function AfterWrite(s: RepoState, branch: string, path: string, content: string): (s': RepoState)
    requires branch in s.branches
    ensures Grows(s, s') && s'.pulls == s.pulls && s'.branches.Keys == s.branches.Keys
    ensures path in FilesOf(s', branch) && FilesOf(s', branch)[path].content == content
    ensures FilesOf(s', branch).Keys == FilesOf(s, branch).Keys + {path}
    ensures forall p :: p in FilesOf(s, branch) && p != path ==> FilesOf(s', branch)[p] == FilesOf(s, branch)[p]
    ensures forall b :: b in s.branches && b != branch && s.branches[b] != s'.branches[branch] ==>
                        FilesOf(s', b) == FilesOf(s, b)
  {
    var id := IntToString(s.nextId);
    var commit := "commit-" + id;
    s.(trees := s.trees[commit := FilesOf(s, branch)[path := FileRev("blob-" + id, content)]],
       branches := s.branches[branch := commit],
       nextId := s.nextId + 1)
  }

  /** A new pull request, numbered one past the last, appended to the list. */
  function AfterOpen(s: RepoState, title: string, body: string, head: string, base: string, labels: seq<string>)
    : (s': RepoState)
    ensures Grows(s, s') && s'.branches == s.branches && s'.trees == s.trees
    ensures |s'.pulls| == |s.pulls| + 1 && s'.pulls[..|s.pulls|] == s.pulls
    ensures s'.pulls[|s.pulls|] == PullRequest(|s.pulls| + 1, PullUrl(s, |s.pulls| + 1), title, body, head, base, labels)
  {
    var n := |s.pulls| + 1;
    var s' := s.(pulls := s.pulls + [PullRequest(n, PullUrl(s, n), title, body, head, base, labels)]);
    assert s'.pulls[..|s.pulls|] == s.pulls;
    s'
  }

  /**
   * How the repository answers one request. A new ref points at the given
   * commit and so holds that commit's files. Lookups of a missing branch,
   * file or pull request answer 404; creating a branch that exists, writing
   * a file without its current sha, and opening a second pull request for the
   * same head and base are refused; a refused request changes nothing.
   */
  function Serve(s: RepoState, req: ApiRequest): (out: (RepoState, Result<ApiResponse, Failure>))
    ensures out.1.Ok? ==> Answers(req, out.1.value)
    ensures out.1.Err? ==> out.0 == s
    ensures Grows(s, out.0)
  {
    match req
    case GetRepo => (s, Ok(RepoInfo(s.defaultBranch)))
    case GetBranch(b) =>
      if b in s.branches then (s, Ok(BranchInfo)) else (s, Err(NOT_FOUND))
    case GetRef(b) =>
      if b in s.branches then (s, Ok(RefInfo(s.branches[b]))) else (s, Err(NOT_FOUND))
    case CreateRef(b, sha) =>
      if b in s.branches then (s, Err(HttpError(422, "Reference already exists")))
      else (s.(branches := s.branches[b := sha]), Ok(Written))
    case GetContents(path, ref) =>
      if path in FilesOf(s, ref) then (s, Ok(Contents(Some(FilesOf(s, ref)[path].sha)))) else (s, Err(NOT_FOUND))
    case PutContents(path, b, _, content, sha) =>
      if b !in s.branches then (s, Err(NOT_FOUND))
      else if path in FilesOf(s, b) && sha != Some(FilesOf(s, b)[path].sha) then (s, Err(HttpError(409, "sha does not match")))
      else if path !in FilesOf(s, b) && sha.Some? then (s, Err(HttpError(422, "sha is not expected")))
      else (AfterWrite(s, b, path, content), Ok(Written))
    case CreatePull(title, body, head, base) =>
      if head !in s.branches || base !in s.branches || HasPull(s, head, base) then (s, Err(HttpError(422, PULL_EXISTS)))
      else (AfterOpen(s, title, body, head, base, []), Ok(PullInfo(|s.pulls| + 1, PullUrl(s, |s.pulls| + 1))))
    case AddLabels(n, labels) =>
      if 1 <= n <= |s.pulls| then
        var p := s.pulls[n - 1];
        assert (p.labels + labels)[..|p.labels|] == p.labels;
        (s.(pulls := s.pulls[n - 1 := p.(labels := p.labels + labels)]), Ok(Labelled))
      else (s, Err(NOT_FOUND))
  }

  // ---------------------------------------------------------------------------
  // The remote: repository, request log and injected failures
  // ---------------------------------------------------------------------------

  datatype Remote = Remote(repo: RepoState, log: seq<ApiRequest>, faults: map<nat, Failure>)

  /** `b` is `a` after more requests: same failure plan, longer log, grown repository. */
  predicate Extends(a: Remote, b: Remote) {
    b.faults == a.faults && |a.log| <= |b.log| && b.log[..|a.log|] == a.log && Grows(a.repo, b.repo)
  }

  lemma ExtendsTransitive(a: Remote, b: Remote, c: Remote)
    requires Extends(a, b) && Extends(b, c)
    ensures Extends(a, c)
  {
    GrowsTransitive(a.repo, b.repo, c.repo);
    assert c.log[..|a.log|] == c.log[..|b.log|][..|a.log|];
  }

  /** No request made between `a` and `b` is a label request. */
  predicate NoLabelRequests(a: Remote, b: Remote)
    requires |a.log| <= |b.log|
  {
    forall i :: |a.log| <= i < |b.log| ==> !b.log[i].AddLabels?
  }

  /** The next `k` requests meet no injected failure. */
  predicate NoFaultsAhead(rm: Remote, k: nat) {
    forall i :: |rm.log| <= i < |rm.log| + k ==> i !in rm.faults
  }

  /**
   * `_request`: the request is logged; if a failure is planned for its
   * position it fails and the repository is untouched, otherwise the
   * repository serves it.
   */
  function Perform(rm: Remote, req: ApiRequest): (out: (Remote, Result<ApiResponse, Failure>))
    ensures out.0.log == rm.log + [req] && out.0.faults == rm.faults
    ensures Extends(rm, out.0)
    ensures out.1.Ok? ==> Answers(req, out.1.value)
    ensures out.1.Err? ==> out.0.repo == rm.repo
    ensures |rm.log| in rm.faults ==> out.1 == Err(rm.faults[|rm.log|])
    ensures |rm.log| !in rm.faults ==> (out.0.repo, out.1) == Serve(rm.repo, req)
  {
    var rm' := rm.(log := rm.log + [req]);
    if |rm.log| in rm.faults then (rm', Err(rm.faults[|rm.log|]))
    else
      var (repo, r) := Serve(rm.repo, req);
      (rm'.(repo := repo), r)
  }

  // ---------------------------------------------------------------------------
  // The creator's operations, as functions of the remote
  // ---------------------------------------------------------------------------

  /** `get_default_branch`: the repository's `default_branch`, or "main" when the answer lacks one. */
  function DefaultBranchOn(rm: Remote): (out: (Remote, Result<string, Failure>))
    ensures out.0.log == rm.log + [GetRepo] && Extends(rm, out.0) && out.0.repo == rm.repo
    ensures |rm.log| !in rm.faults ==> out.1 == Ok(rm.repo.defaultBranch.GetOr("main"))
    ensures |rm.log| in rm.faults ==> out.1 == Err(rm.faults[|rm.log|])
  {
    var (rm1, r) := Perform(rm, GetRepo);
    if r.Err? then (rm1, Err(r.error)) else (rm1, Ok(r.value.defaultBranch.GetOr("main")))
  }

  /** `branch_exists`: true on an answer, false on a 404, any other failure passed on. */
  function BranchExistsOn(rm: Remote, branch: string): (out: (Remote, Result<bool, Failure>))
    ensures out.0.log == rm.log + [GetBranch(branch)] && Extends(rm, out.0) && out.0.repo == rm.repo
    ensures |rm.log| !in rm.faults ==> out.1 == Ok(branch in rm.repo.branches)
    ensures |rm.log| in rm.faults ==>
              out.1 == if rm.faults[|rm.log|].HttpError? && rm.faults[|rm.log|].code == 404 then Ok(false) else Err(rm.faults[|rm.log|])
  {
    var (rm1, r) := Perform(rm, GetBranch(branch));
    if r.Ok? then (rm1, Ok(true))
    else if r.error.HttpError? && r.error.code == 404 then (rm1, Ok(false))
    else (rm1, Err(r.error))
  }

  /** `create_branch`: read the base branch's commit, then create the new ref at it. */
  function CreateBranchOn(rm: Remote, newBranch: string, baseBranch: string): (out: (Remote, Result<(), Failure>))
    ensures Extends(rm, out.0) && NoLabelRequests(rm, out.0)
    ensures |out.0.log| > |rm.log| && out.0.log[|rm.log|] == GetRef(baseBranch)
    ensures out.0.repo.pulls == rm.repo.pulls && out.0.repo.trees == rm.repo.trees
    ensures out.1.Ok? ==> baseBranch in rm.repo.branches && newBranch !in rm.repo.branches &&
                          out.0.repo.branches == rm.repo.branches[newBranch := rm.repo.branches[baseBranch]]
    ensures out.1.Ok? ==> FilesOf(out.0.repo, newBranch) == FilesOf(rm.repo, baseBranch)
    ensures out.1.Err? ==> out.0.repo.branches == rm.repo.branches
  {
    var (rm1, r) := Perform(rm, GetRef(baseBranch));
    if r.Err? then (rm1, Err(r.error))
    else
      var (rm2, c) := Perform(rm1, CreateRef(newBranch, r.value.commit));
      ExtendsTransitive(rm, rm1, rm2);
      (rm2, if c.Err? then Err(c.error) else Ok(()))
  }

  /** The `sha` the PUT carries: the probed sha when it is truthy, none otherwise. */
  function PayloadSha(probe: Result<ApiResponse, Failure>): (sha: Option<string>)
    requires probe.Ok? ==> probe.value.Contents?
    ensures sha.Some? <==> probe.Ok? && probe.value.fileSha.Some? && probe.value.fileSha.value != ""
    ensures sha.Some? ==> sha == probe.value.fileSha
  {
    if probe.Ok? && probe.value.fileSha.Some? && probe.value.fileSha.value != "" then probe.value.fileSha else None
  }

  /**
   * `update_or_create_file`: probe the path on the branch; a 404 means a new
   * file, any other probe failure stops before the write; then PUT the content.
   */
  function UpsertFileOn(rm: Remote, branch: string, path: string, content: string, message: string)
    : (out: (Remote, Result<(), Failure>))
    ensures Extends(rm, out.0) && NoLabelRequests(rm, out.0)
    ensures out.0.repo.pulls == rm.repo.pulls
    ensures |out.0.log| > |rm.log| && out.0.log[|rm.log|] == GetContents(path, branch)
  {
    var (rm1, probe) := Perform(rm, GetContents(path, branch));
    if probe.Err? && !(probe.error.HttpError? && probe.error.code == 404) then (rm1, Err(probe.error))
    else
      var (rm2, put) := Perform(rm1, PutContents(path, branch, message, content, PayloadSha(probe)));
      ExtendsTransitive(rm, rm1, rm2);
      (rm2, if put.Err? then Err(put.error) else Ok(()))
  }

  /** Steps 1 and 2 of `create_pr`: the default branch is fetched, then the requested base is kept if it exists. */
  function ResolveBaseOn(rm: Remote, baseBranch: string): (out: (Remote, Result<string, Failure>))
    ensures Extends(rm, out.0) && out.0.repo == rm.repo && NoLabelRequests(rm, out.0)
    ensures |out.0.log| > |rm.log| && out.0.log[|rm.log|] == GetRepo
  {
    var (rm1, d) := DefaultBranchOn(rm);
    if d.Err? then (rm1, Err(d.error))
    else
      var (rm2, e) := BranchExistsOn(rm1, baseBranch);
      ExtendsTransitive(rm, rm1, rm2);
      if e.Err? then (rm2, Err(e.error)) else (rm2, Ok(if e.value then baseBranch else d.value))
  }

  /** Step 3 of `create_pr`: the head branch is created from the base only when it is missing. */
  function EnsureHeadOn(rm: Remote, head: string, base: string): (out: (Remote, Result<(), Failure>))
    ensures Extends(rm, out.0) && NoLabelRequests(rm, out.0)
    ensures out.0.repo.pulls == rm.repo.pulls && out.0.repo.trees == rm.repo.trees
  {
    var (rm1, e) := BranchExistsOn(rm, head);
    if e.Err? then (rm1, Err(e.error))
    else if e.value then (rm1, Ok(()))
    else
      var (rm2, c) := CreateBranchOn(rm1, head, base);
      ExtendsTransitive(rm, rm1, rm2);
      (rm2, c)
  }

  /** Steps 5 and 6 of `create_pr`: open the pull request, then label it when labels are given. */
  function OpenPullOn(rm: Remote, title: string, body: string, head: string, base: string, labels: seq<string>)
    : (out: (Remote, Result<(nat, string), Failure>))
    ensures Extends(rm, out.0)
    ensures |out.0.log| > |rm.log| && out.0.log[|rm.log|] == CreatePull(title, body, head, base)
    ensures labels == [] ==> NoLabelRequests(rm, out.0)
    ensures out.1.Ok? ==>
              && |out.0.repo.pulls| == |rm.repo.pulls| + 1
              && out.0.repo.pulls[|rm.repo.pulls|] ==
                 PullRequest(out.1.value.0, out.1.value.1, title, body, head, base, labels)
              && (labels != [] ==> out.0.log[|out.0.log| - 1] == AddLabels(out.1.value.0, labels))
  {
    var (rm1, p) := Perform(rm, CreatePull(title, body, head, base));
    if p.Err? then (rm1, Err(p.error))
    else
      var pull := (p.value.number, p.value.url);
      if labels == [] then (rm1, Ok(pull))
      else
        var (rm2, l) := Perform(rm1, AddLabels(p.value.number, labels));
        ExtendsTransitive(rm, rm1, rm2);
        (rm2, if l.Err? then Err(l.error) else Ok(pull))
  }

  /** The file committed for a head branch: `configs/<head with "/" as "_">.md`. */
  function ConfigPath(head: string): (path: string)
    ensures |path| == |head| + 11 && StartsWith(path, "configs/") && EndsWith(path, ".md")
    ensures path[8..|path| - 3] == ReplaceChar(head, '/', '_') && '/' !in path[8..|path| - 3]
  {
    var name := ReplaceChar(head, '/', '_');
    var path := "configs/" + name + ".md";
    assert path[8..|path| - 3] == name;
    assert forall k :: 0 <= k < |name| ==> name[k] != '/';
    path
  }

  /** The committed file: a two-line comment header naming the title, a blank line, then the body. */
  function ConfigContent(title: string, body: string): string {
    "# Auto-generated config\n# Title: " + title + "\n\n" + body
  }

  /** The commit message: a conventional `chore:` line naming the title. */
  function CommitMessage(title: string): string {
    "chore: add config for " + title
  }

  /** The committed file names the title and ends with the whole body; the message ends with the title. */
  lemma CommittedTexts(title: string, body: string)
    ensures StartsWith(ConfigContent(title, body), "# Auto-generated config\n# Title: " + title + "\n")
    ensures EndsWith(ConfigContent(title, body), "\n\n" + body)
    ensures StartsWith(CommitMessage(title), "chore: add config for ") && EndsWith(CommitMessage(title), title)
  {
    var head, c := "# Auto-generated config\n# Title: " + title + "\n", ConfigContent(title, body);
    assert c == head + ("\n" + body);
    assert c[..|head|] == head;
    assert c == (head + "\n") + body;
    assert c[|c| - |"\n\n" + body|..] == "\n\n" + body;
  }

  /** `PRResult`. */
  datatype PRResult = PRResult(success: bool, prUrl: string, prNumber: nat, error: string)

  /** The text a failure leaves in `PRResult.error`. */
  function ErrorText(f: Failure): string {
    match f
    case HttpError(code, message) => "GitHub API error " + IntToString(code) + ": " + message
    case OtherError(description) => description
  }

  /**
   * An HTTP failure reads "GitHub API error <code>: <message>", with the
   * code in decimal; any other failure leaves its own description.
   */
  lemma ErrorTextShape(f: Failure)
    ensures f.HttpError? ==>
              && StartsWith(ErrorText(f), "GitHub API error " + IntToString(f.code))
              && EndsWith(ErrorText(f), ": " + f.message)
    ensures f.OtherError? ==> ErrorText(f) == f.description
  {
    if f.HttpError? {
      var pre, t := "GitHub API error " + IntToString(f.code), ErrorText(f);
      assert t == pre + (": " + f.message);
      assert t[..|pre|] == pre;
    }
  }

  function FailureResult(f: Failure): PRResult {
    PRResult(false, "", 0, ErrorText(f))
  }

  /**
   * `create_pr`: resolve the base, make sure the head exists, write the
   * config file, open the pull request and label it. The first failure ends
   * the run with a failure result; nothing done before it is undone.
   */
  function SubmitOn(rm: Remote, title: string, body: string, head: string, baseBranch: string, labels: seq<string>)
    : (out: (Remote, PRResult))
    ensures Extends(rm, out.0)
    ensures out.1.success ==>
              && out.1.error == "" && |out.0.repo.pulls| == |rm.repo.pulls| + 1
              && var p := out.0.repo.pulls[|rm.repo.pulls|];
                 p.number == out.1.prNumber && p.url == out.1.prUrl && p.title == title && p.body == body &&
                 p.head == head && p.labels == labels && ResolveBaseOn(rm, baseBranch).1 == Ok(p.base)
    ensures !out.1.success ==> out.1.prUrl == "" && out.1.prNumber == 0
  {
    var (rm1, b) := ResolveBaseOn(rm, baseBranch);
    if b.Err? then (rm1, FailureResult(b.error))
    else
      var (rm2, h) := EnsureHeadOn(rm1, head, b.value);
      ExtendsTransitive(rm, rm1, rm2);
      if h.Err? then (rm2, FailureResult(h.error))
      else
        var (rm3, f) := UpsertFileOn(rm2, head, ConfigPath(head), ConfigContent(title, body), CommitMessage(title));
        ExtendsTransitive(rm, rm2, rm3);
        if f.Err? then (rm3, FailureResult(f.error))
        else
          var (rm4, p) := OpenPullOn(rm3, title, body, head, b.value, labels);
          ExtendsTransitive(rm, rm3, rm4);
          if p.Err? then (rm4, FailureResult(p.error))
          else (rm4, PRResult(true, p.value.1, p.value.0, ""))
  }

  /** What `str(e)` reads for the AttributeError of calling `.replace` on an int. */
  const INT_REPLACE_ERROR: string := "'int' object has no attribute 'replace'"

  /**
   * `create_pr` when `head_branch` is an int (a numeric BRANCH_NAME cell): the
   * f-strings of the branch requests render the number in decimal, so the base
   * is resolved and the head branch made as usual; building the file path then
   * calls `.replace` on the int, which raises before any file is written, and
   * the run ends with that error.
   */
  function SubmitNumberHeadOn(rm: Remote, head: int, baseBranch: string): (out: (Remote, PRResult))
    ensures Extends(rm, out.0) && NoLabelRequests(rm, out.0)
    ensures out.0.repo.pulls == rm.repo.pulls && out.0.repo.trees == rm.repo.trees
    ensures !out.1.success && out.1.prUrl == "" && out.1.prNumber == 0
  {
    var (rm1, b) := ResolveBaseOn(rm, baseBranch);
    if b.Err? then (rm1, FailureResult(b.error))
    else
      var (rm2, h) := EnsureHeadOn(rm1, IntToString(head), b.value);
      ExtendsTransitive(rm, rm1, rm2);
      NoLabelRequestsTransitive(rm, rm1, rm2);
      if h.Err? then (rm2, FailureResult(h.error))
      else (rm2, FailureResult(OtherError(INT_REPLACE_ERROR)))
  }

  // ---------------------------------------------------------------------------
  // Properties of the workflow
  // ---------------------------------------------------------------------------

  lemma NoLabelRequestsTransitive(a: Remote, b: Remote, c: Remote)
    requires Extends(a, b) && Extends(b, c) && NoLabelRequests(a, b) && NoLabelRequests(b, c)
    ensures |a.log| <= |c.log| && NoLabelRequests(a, c)
  {
    forall i | |a.log| <= i < |b.log| ensures !c.log[i].AddLabels? {
      assert c.log[i] == c.log[..|b.log|][i];
    }
  }

  /** The repository's default branch is always asked for first. */
  lemma SubmitAsksForDefaultBranchFirst(rm: Remote, title: string, body: string, head: string, baseBranch: string, labels: seq<string>)
    ensures var out := SubmitOn(rm, title, body, head, baseBranch, labels).0;
            |out.log| > |rm.log| && out.log[|rm.log|] == GetRepo
  {
    var (rm1, b) := ResolveBaseOn(rm, baseBranch);
    var out := SubmitOn(rm, title, body, head, baseBranch, labels).0;
    assert Extends(rm1, out) by {
      if b.Ok? {
        var (rm2, h) := EnsureHeadOn(rm1, head, b.value);
        if h.Ok? {
          var (rm3, f) := UpsertFileOn(rm2, head, ConfigPath(head), ConfigContent(title, body), CommitMessage(title));
          ExtendsTransitive(rm1, rm2, rm3);
          if f.Ok? {
            ExtendsTransitive(rm1, rm3, OpenPullOn(rm3, title, body, head, b.value, labels).0);
          }
        }
      }
    }
    assert out.log[|rm.log|] == out.log[..|rm1.log|][|rm.log|];
  }

  /**
   * With no failures on the way, the base is the requested branch when it
   * exists and the repository's default branch (or "main") otherwise; the
   * repository is only read.
   */
  lemma ResolveBaseWithoutFaults(rm: Remote, baseBranch: string)
    requires NoFaultsAhead(rm, 2)
    ensures ResolveBaseOn(rm, baseBranch) ==
            (rm.(log := rm.log + [GetRepo, GetBranch(baseBranch)]),
             Ok(if baseBranch in rm.repo.branches then baseBranch else rm.repo.defaultBranch.GetOr("main")))
  {
    var rm1 := DefaultBranchOn(rm).0;
    assert |rm1.log| == |rm.log| + 1 && |rm.log| + 1 !in rm1.faults;
    assert rm.log + [GetRepo, GetBranch(baseBranch)] == rm.log + [GetRepo] + [GetBranch(baseBranch)];
  }

  /**
   * With no failures on the way, an existing head branch is left alone, and
   * a missing one is created at the base branch's commit; nothing else changes.
   */
  lemma EnsureHeadWithoutFaults(rm: Remote, head: string, base: string)
    requires NoFaultsAhead(rm, 3)
    ensures head in rm.repo.branches ==>
              EnsureHeadOn(rm, head, base) == (rm.(log := rm.log + [GetBranch(head)]), Ok(()))
    ensures head !in rm.repo.branches && base in rm.repo.branches ==>
              var commit := rm.repo.branches[base];
              EnsureHeadOn(rm, head, base) ==
              (Remote(rm.repo.(branches := rm.repo.branches[head := commit]),
                      rm.log + [GetBranch(head), GetRef(base), CreateRef(head, commit)], rm.faults),
               Ok(()))
  {
    var rm1 := BranchExistsOn(rm, head).0;
    assert |rm1.log| == |rm.log| + 1;
    if head !in rm.repo.branches && base in rm.repo.branches {
      var rm2 := Perform(rm1, GetRef(base)).0;
      assert |rm2.log| == |rm.log| + 2;
      assert rm.log + [GetBranch(head), GetRef(base), CreateRef(head, rm.repo.branches[base])] ==
             rm.log + [GetBranch(head)] + [GetRef(base)] + [CreateRef(head, rm.repo.branches[base])];
    }
  }

  /**
   * When the probe of the file succeeds, the write carries the file's sha
   * exactly when that sha is truthy; a missing file is written without one.
   */
  lemma UpsertPayloadSha(rm: Remote, branch: string, path: string, content: string, message: string)
    requires NoFaultsAhead(rm, 1)
    ensures var out := UpsertFileOn(rm, branch, path, content, message).0;
            var sha := if path in FilesOf(rm.repo, branch) && FilesOf(rm.repo, branch)[path].sha != ""
                       then Some(FilesOf(rm.repo, branch)[path].sha) else None;
            |out.log| == |rm.log| + 2 && out.log[|rm.log| + 1] == PutContents(path, branch, message, content, sha)
  {
  }

  /** A failed probe other than a 404 stops the upsert before anything is written. */
  lemma UpsertStopsOnProbeFailure(rm: Remote, branch: string, path: string, content: string, message: string)
    requires |rm.log| in rm.faults
    requires var f := rm.faults[|rm.log|]; !(f.HttpError? && f.code == 404)
    ensures UpsertFileOn(rm, branch, path, content, message) ==
            (rm.(log := rm.log + [GetContents(path, branch)]), Err(rm.faults[|rm.log|]))
  {
  }

  /**
   * With no failures, on an existing branch, a file whose sha is truthy (or
   * no file) is probed and then written with its current sha (or none).
   */
  lemma UpsertWithoutFaults(rm: Remote, branch: string, path: string, content: string, message: string)
    requires NoFaultsAhead(rm, 2) && branch in rm.repo.branches
    requires path in FilesOf(rm.repo, branch) ==> FilesOf(rm.repo, branch)[path].sha != ""
    ensures UpsertFileOn(rm, branch, path, content, message) ==
            (Remote(AfterWrite(rm.repo, branch, path, content),
                    rm.log + [GetContents(path, branch), PutContents(path, branch, message, content, CurrentSha(rm.repo, branch, path))],
                    rm.faults),
             Ok(()))
  {
    var (rm1, probe) := Perform(rm, GetContents(path, branch));
    assert PayloadSha(probe) == CurrentSha(rm.repo, branch, path);
    var put := PutContents(path, branch, message, content, CurrentSha(rm.repo, branch, path));
    assert rm1.log + [put] == rm.log + [GetContents(path, branch), put];
  }

  /**
   * With no failures, a pull request for a new head/base pair is opened as
   * the next number, carrying the labels, and the label request comes last.
   */
  lemma OpenPullWithoutFaults(rm: Remote, title: string, body: string, head: string, base: string, labels: seq<string>)
    requires NoFaultsAhead(rm, 2)
    requires head in rm.repo.branches && base in rm.repo.branches && !HasPull(rm.repo, head, base)
    ensures var n := |rm.repo.pulls| + 1;
            OpenPullOn(rm, title, body, head, base, labels) ==
            (Remote(AfterOpen(rm.repo, title, body, head, base, labels),
                    rm.log + [CreatePull(title, body, head, base)] + (if labels == [] then [] else [AddLabels(n, labels)]),
                    rm.faults),
             Ok((n, PullUrl(rm.repo, n))))
  {
    var n := |rm.repo.pulls| + 1;
    var (rm1, r1) := Perform(rm, CreatePull(title, body, head, base));
    assert rm1.repo == AfterOpen(rm.repo, title, body, head, base, []) && r1 == Ok(PullInfo(n, PullUrl(rm.repo, n)));
    if labels != [] {
      assert |rm1.log| == |rm.log| + 1 && |rm1.log| !in rm1.faults;
      var p := rm1.repo.pulls[n - 1];
      assert p.labels + labels == labels;
      var pulls := rm1.repo.pulls[n - 1 := p.(labels := p.labels + labels)];
      assert pulls == rm.repo.pulls + [PullRequest(n, PullUrl(rm.repo, n), title, body, head, base, labels)];
    } else {
      assert rm.log + [CreatePull(title, body, head, base)] + [] == rm1.log;
    }
  }

  /** A second pull request for the same head and base is refused and nothing changes. */
  lemma OpenPullRefused(rm: Remote, title: string, body: string, head: string, base: string, labels: seq<string>)
    requires NoFaultsAhead(rm, 1) && HasPull(rm.repo, head, base)
    ensures OpenPullOn(rm, title, body, head, base, labels) ==
            (rm.(log := rm.log + [CreatePull(title, body, head, base)]), Err(HttpError(422, PULL_EXISTS)))
  {
  }

  /** A failed label request leaves the freshly opened pull request in place, unlabelled. */
  lemma OpenPullLabelFault(rm: Remote, title: string, body: string, head: string, base: string, labels: seq<string>)
    requires NoFaultsAhead(rm, 1) && |rm.log| + 1 in rm.faults && labels != []
    requires head in rm.repo.branches && base in rm.repo.branches && !HasPull(rm.repo, head, base)
    ensures var n := |rm.repo.pulls| + 1;
            OpenPullOn(rm, title, body, head, base, labels) ==
            (Remote(AfterOpen(rm.repo, title, body, head, base, []),
                    rm.log + [CreatePull(title, body, head, base), AddLabels(n, labels)],
                    rm.faults),
             Err(rm.faults[|rm.log| + 1]))
  {
    var rm1 := Perform(rm, CreatePull(title, body, head, base)).0;
    var n := |rm.repo.pulls| + 1;
    assert rm1.log + [AddLabels(n, labels)] == rm.log + [CreatePull(title, body, head, base), AddLabels(n, labels)];
  }

  /** Without labels no label request is made, whatever happens on the way. */
  lemma NoLabelsNoLabelRequest(rm: Remote, title: string, body: string, head: string, baseBranch: string)
    ensures var out := SubmitOn(rm, title, body, head, baseBranch, []).0;
            |rm.log| <= |out.log| && NoLabelRequests(rm, out)
  {
    var (rm1, b) := ResolveBaseOn(rm, baseBranch);
    if b.Ok? {
      var (rm2, h) := EnsureHeadOn(rm1, head, b.value);
      NoLabelRequestsTransitive(rm, rm1, rm2);
      if h.Ok? {
        var (rm3, f) := UpsertFileOn(rm2, head, ConfigPath(head), ConfigContent(title, body), CommitMessage(title));
        ExtendsTransitive(rm, rm1, rm2);
        NoLabelRequestsTransitive(rm, rm2, rm3);
        if f.Ok? {
          ExtendsTransitive(rm, rm2, rm3);
          NoLabelRequestsTransitive(rm, rm3, OpenPullOn(rm3, title, body, head, b.value, []).0);
        }
      }
    }
  }

  /** With labels, a successful submission ends with the label request for the new pull request. */
  lemma LabelsRequestedLast(rm: Remote, title: string, body: string, head: string, baseBranch: string, labels: seq<string>)
    requires labels != []
    ensures var (out, r) := SubmitOn(rm, title, body, head, baseBranch, labels);
            r.success ==> 0 < |out.log| && out.log[|out.log| - 1] == AddLabels(r.prNumber, labels)
  {
    var (rm1, b) := ResolveBaseOn(rm, baseBranch);
    if b.Ok? {
      var (rm2, h) := EnsureHeadOn(rm1, head, b.value);
      if h.Ok? {
        var (rm3, f) := UpsertFileOn(rm2, head, ConfigPath(head), ConfigContent(title, body), CommitMessage(title));
        if f.Ok? {
          SubmitAfterStages(rm, title, body, head, baseBranch, labels, rm1, b.value, rm2, rm3);
        }
      }
    }
  }

  /** `SubmitOn` after three successful stages is whatever opening the pull request gives. */
  lemma SubmitAfterStages(rm: Remote, title: string, body: string, head: string, baseBranch: string, labels: seq<string>,
                          rm1: Remote, base: string, rm2: Remote, rm3: Remote)
    requires ResolveBaseOn(rm, baseBranch) == (rm1, Ok(base))
    requires EnsureHeadOn(rm1, head, base) == (rm2, Ok(()))
    requires UpsertFileOn(rm2, head, ConfigPath(head), ConfigContent(title, body), CommitMessage(title)) == (rm3, Ok(()))
    ensures var (rm4, p) := OpenPullOn(rm3, title, body, head, base, labels);
            SubmitOn(rm, title, body, head, baseBranch, labels) ==
            (rm4, if p.Err? then FailureResult(p.error) else PRResult(true, p.value.1, p.value.0, ""))
  {
  }

  /**
   * The first five requests of a submission whose head branch exists and
   * which meets no failure: the base is kept, no branch is created and the
   * file is written over its current sha. The log is grouped by stage.
   */
  lemma PrefixExistingHead(rm: Remote, title: string, body: string, head: string, baseBranch: string, labels: seq<string>)
    returns (rm3: Remote)
    requires NoFaultsAhead(rm, 5)
    requires baseBranch in rm.repo.branches && head in rm.repo.branches
    requires ConfigPath(head) in FilesOf(rm.repo, head) ==> FilesOf(rm.repo, head)[ConfigPath(head)].sha != ""
    ensures var path, content := ConfigPath(head), ConfigContent(title, body);
            rm3 == Remote(AfterWrite(rm.repo, head, path, content),
                          rm.log + [GetRepo, GetBranch(baseBranch)] + [GetBranch(head)] +
                          [GetContents(path, head), PutContents(path, head, CommitMessage(title), content, CurrentSha(rm.repo, head, path))],
                          rm.faults)
    ensures var (rm4, p) := OpenPullOn(rm3, title, body, head, baseBranch, labels);
            SubmitOn(rm, title, body, head, baseBranch, labels) ==
            (rm4, if p.Err? then FailureResult(p.error) else PRResult(true, p.value.1, p.value.0, ""))
  {
    var path, content, message := ConfigPath(head), ConfigContent(title, body), CommitMessage(title);
    ResolveBaseWithoutFaults(rm, baseBranch);
    var rm1 := ResolveBaseOn(rm, baseBranch).0;
    EnsureHeadWithoutFaults(rm1, head, baseBranch);
    var rm2 := EnsureHeadOn(rm1, head, baseBranch).0;
    UpsertWithoutFaults(rm2, head, path, content, message);
    rm3 := UpsertFileOn(rm2, head, path, content, message).0;
    SubmitAfterStages(rm, title, body, head, baseBranch, labels, rm1, baseBranch, rm2, rm3);
  }

  /**
   * The first seven requests of a submission whose head branch is missing
   * and which meets no failure: the head is created at the base's commit, so
   * it holds the base's files, and the file is written on it over the sha the
   * base's copy has (without one when the base has no such file). The log is
   * grouped by stage.
   */
  lemma PrefixNewHead(rm: Remote, title: string, body: string, head: string, baseBranch: string, labels: seq<string>)
    returns (rm3: Remote)
    requires NoFaultsAhead(rm, 7)
    requires baseBranch in rm.repo.branches && head !in rm.repo.branches
    requires ConfigPath(head) in FilesOf(rm.repo, baseBranch) ==> FilesOf(rm.repo, baseBranch)[ConfigPath(head)].sha != ""
    ensures var path, content := ConfigPath(head), ConfigContent(title, body);
            var commit := rm.repo.branches[baseBranch];
            rm3 == Remote(AfterWrite(rm.repo.(branches := rm.repo.branches[head := commit]), head, path, content),
                          rm.log + [GetRepo, GetBranch(baseBranch)] + [GetBranch(head), GetRef(baseBranch), CreateRef(head, commit)] +
                          [GetContents(path, head), PutContents(path, head, CommitMessage(title), content,
                                                                CurrentSha(rm.repo, baseBranch, path))],
                          rm.faults)
    ensures var (rm4, p) := OpenPullOn(rm3, title, body, head, baseBranch, labels);
            SubmitOn(rm, title, body, head, baseBranch, labels) ==
            (rm4, if p.Err? then FailureResult(p.error) else PRResult(true, p.value.1, p.value.0, ""))
  {
    var path, content, message := ConfigPath(head), ConfigContent(title, body), CommitMessage(title);
    ResolveBaseWithoutFaults(rm, baseBranch);
    var rm1 := ResolveBaseOn(rm, baseBranch).0;
    EnsureHeadWithoutFaults(rm1, head, baseBranch);
    var rm2 := EnsureHeadOn(rm1, head, baseBranch).0;
    assert FilesOf(rm2.repo, head) == FilesOf(rm.repo, baseBranch);
    UpsertWithoutFaults(rm2, head, path, content, message);
    rm3 := UpsertFileOn(rm2, head, path, content, message).0;
    SubmitAfterStages(rm, title, body, head, baseBranch, labels, rm1, baseBranch, rm2, rm3);
  }

  /**
   * A first submission with no failures, the base holding no config file
   * for this head: the head branch is created at the base branch's commit,
   * the config file is written there without a sha, and the pull request is
   * opened as the next number and labelled.
   */
  lemma FirstSubmission(rm: Remote, title: string, body: string, head: string, baseBranch: string, labels: seq<string>)
    requires NoFaultsAhead(rm, 9)
    requires baseBranch in rm.repo.branches && head !in rm.repo.branches
    requires ConfigPath(head) !in FilesOf(rm.repo, baseBranch) && !HasPull(rm.repo, head, baseBranch)
    ensures var (out, r) := SubmitOn(rm, title, body, head, baseBranch, labels);
            var n := |rm.repo.pulls| + 1;
            var path, content := ConfigPath(head), ConfigContent(title, body);
            var commit := rm.repo.branches[baseBranch];
            && r == PRResult(true, PullUrl(rm.repo, n), n, "")
            && out.log == rm.log + [GetRepo, GetBranch(baseBranch)] + [GetBranch(head), GetRef(baseBranch), CreateRef(head, commit)] +
                          [GetContents(path, head), PutContents(path, head, CommitMessage(title), content, None)] +
                          [CreatePull(title, body, head, baseBranch)] + (if labels == [] then [] else [AddLabels(n, labels)])
            && out.repo == AfterOpen(AfterWrite(rm.repo.(branches := rm.repo.branches[head := commit]), head, path, content),
                                     title, body, head, baseBranch, labels)
  {
    var rm3 := PrefixNewHead(rm, title, body, head, baseBranch, labels);
    assert |rm3.log| == |rm.log| + 7;
    OpenPullWithoutFaults(rm3, title, body, head, baseBranch, labels);
  }

  /**
   * Submitting again for a head that already has an open pull request: no
   * branch is created, the file is written again over its current sha, and
   * opening the pull request is refused, so the result is a failure.
   */
  lemma Resubmission(rm: Remote, title: string, body: string, head: string, baseBranch: string, labels: seq<string>)
    requires NoFaultsAhead(rm, 6)
    requires baseBranch in rm.repo.branches && head in rm.repo.branches && HasPull(rm.repo, head, baseBranch)
    requires ConfigPath(head) in FilesOf(rm.repo, head) ==> FilesOf(rm.repo, head)[ConfigPath(head)].sha != ""
    ensures var (out, r) := SubmitOn(rm, title, body, head, baseBranch, labels);
            var path, content := ConfigPath(head), ConfigContent(title, body);
            && r == FailureResult(HttpError(422, PULL_EXISTS))
            && out.log == rm.log + [GetRepo, GetBranch(baseBranch)] + [GetBranch(head)] +
                          [GetContents(path, head), PutContents(path, head, CommitMessage(title), content, CurrentSha(rm.repo, head, path))] +
                          [CreatePull(title, body, head, baseBranch)]
            && out.repo == AfterWrite(rm.repo, head, path, content)
  {
    var rm3 := PrefixExistingHead(rm, title, body, head, baseBranch, labels);
    assert |rm3.log| == |rm.log| + 5;
    OpenPullRefused(rm3, title, body, head, baseBranch, labels);
  }

  /**
   * A failing label request fails the whole submission although the pull
   * request is already open, unlabelled, on the remote.
   */
  lemma LabelFailureAfterPullOpened(rm: Remote, title: string, body: string, head: string, baseBranch: string,
                                    labels: seq<string>)
    requires NoFaultsAhead(rm, 6) && |rm.log| + 6 in rm.faults && labels != []
    requires baseBranch in rm.repo.branches && head in rm.repo.branches && !HasPull(rm.repo, head, baseBranch)
    requires ConfigPath(head) in FilesOf(rm.repo, head) ==> FilesOf(rm.repo, head)[ConfigPath(head)].sha != ""
    ensures var (out, r) := SubmitOn(rm, title, body, head, baseBranch, labels);
            && r == FailureResult(rm.faults[|rm.log| + 6])
            && out.repo.pulls == rm.repo.pulls +
                 [PullRequest(|rm.repo.pulls| + 1, PullUrl(rm.repo, |rm.repo.pulls| + 1), title, body, head, baseBranch, [])]
  {
    var rm3 := PrefixExistingHead(rm, title, body, head, baseBranch, labels);
    assert |rm3.log| == |rm.log| + 5;
    OpenPullLabelFault(rm3, title, body, head, baseBranch, labels);
  }

  /**
   * No rollback: when the config file cannot be probed after the head branch
   * was created, the submission fails and the new branch stays.
   */
  lemma FailureKeepsCreatedBranch(rm: Remote, title: string, body: string, head: string, baseBranch: string,
                                  labels: seq<string>)
    requires NoFaultsAhead(rm, 5) && |rm.log| + 5 in rm.faults
    requires var f := rm.faults[|rm.log| + 5]; !(f.HttpError? && f.code == 404)
    requires baseBranch in rm.repo.branches && head !in rm.repo.branches
    ensures var (out, r) := SubmitOn(rm, title, body, head, baseBranch, labels);
            && r == FailureResult(rm.faults[|rm.log| + 5])
            && out.repo == rm.repo.(branches := rm.repo.branches[head := rm.repo.branches[baseBranch]])
  {
    ResolveBaseWithoutFaults(rm, baseBranch);
    var rm1 := ResolveBaseOn(rm, baseBranch).0;
    EnsureHeadWithoutFaults(rm1, head, baseBranch);
    var rm2 := EnsureHeadOn(rm1, head, baseBranch).0;
    assert |rm2.log| == |rm.log| + 5;
    UpsertStopsOnProbeFailure(rm2, head, ConfigPath(head), ConfigContent(title, body), CommitMessage(title));
  }

  /**
   * A numeric head that does not exist yet is still created at the base's
   * commit; then the run fails with the AttributeError's text and no file
   * is written and no pull request opened.
   */
  lemma NumberHeadFailsAfterCreatingBranch(rm: Remote, head: int, baseBranch: string)
    requires NoFaultsAhead(rm, 5)
    requires baseBranch in rm.repo.branches && IntToString(head) !in rm.repo.branches
    ensures var (out, r) := SubmitNumberHeadOn(rm, head, baseBranch);
            && out.repo.branches == rm.repo.branches[IntToString(head) := rm.repo.branches[baseBranch]]
            && out.repo.trees == rm.repo.trees && out.repo.pulls == rm.repo.pulls
            && !r.success && r.error == INT_REPLACE_ERROR
  {
    ResolveBaseWithoutFaults(rm, baseBranch);
    var rm1 := ResolveBaseOn(rm, baseBranch).0;
    assert |rm1.log| == |rm.log| + 2;
    EnsureHeadWithoutFaults(rm1, IntToString(head), baseBranch);
  }

  // ---------------------------------------------------------------------------
  // `GitHubPRCreator`
  // ---------------------------------------------------------------------------

  class GitHubPRCreator {
    const token: string
    const owner: string
    const repo: string
    /** The repository this creator talks to, with everything asked of it so far. */
    var remote: Remote

    constructor (token: string, owner: string, repo: string, remote: Remote)
      ensures this.token == token && this.owner == owner && this.repo == repo && this.remote == remote
    {
      this.token := token;
      this.owner := owner;
      this.repo := repo;
      this.remote := remote;
    }

    method Request(req: ApiRequest) returns (r: Result<ApiResponse, Failure>)
      modifies this
      ensures (remote, r) == Perform(old(remote), req)
    {
      var out := Perform(remote, req);
      remote := out.0;
      r := out.1;
    }

    method GetDefaultBranch() returns (r: Result<string, Failure>)
      modifies this
      ensures (remote, r) == DefaultBranchOn(old(remote))
    {
      var data := Request(GetRepo);
      if data.Err? {
        return Err(data.error);
      }
      r := Ok(data.value.defaultBranch.GetOr("main"));
    }

    method BranchExists(branch: string) returns (r: Result<bool, Failure>)
      modifies this
      ensures (remote, r) == BranchExistsOn(old(remote), branch)
    {
      var answer := Request(GetBranch(branch));
      if answer.Ok? {
        return Ok(true);
      }
      if answer.error.HttpError? && answer.error.code == 404 {
        return Ok(false);
      }
      r := Err(answer.error);
    }

    method CreateBranch(newBranch: string, baseBranch: string) returns (r: Result<(), Failure>)
      modifies this
      ensures (remote, r) == CreateBranchOn(old(remote), newBranch, baseBranch)
    {
      var refData := Request(GetRef(baseBranch));
      if refData.Err? {
        return Err(refData.error);
      }
      var sha := refData.value.commit;
      var created := Request(CreateRef(newBranch, sha));
      r := if created.Err? then Err(created.error) else Ok(());
    }

    method UpdateOrCreateFile(branch: string, filePath: string, content: string, commitMessage: string)
      returns (r: Result<(), Failure>)
      modifies this
      ensures (remote, r) == UpsertFileOn(old(remote), branch, filePath, content, commitMessage)
    {
      var sha: Option<string> := None;
      var existing := Request(GetContents(filePath, branch));
      if existing.Ok? {
        sha := existing.value.fileSha;
      } else if !(existing.error.HttpError? && existing.error.code == 404) {
        return Err(existing.error);
      }
      var payloadSha: Option<string> := None;
      if sha.Some? && sha.value != "" {
        payloadSha := sha;
      }
      var put := Request(PutContents(filePath, branch, commitMessage, content, payloadSha));
      r := if put.Err? then Err(put.error) else Ok(());
    }

    /** Lines 112-113 of `create_pr`: the default branch first, then the requested base if it exists. */
    method ResolveBase(baseBranch: string) returns (r: Result<string, Failure>)
      modifies this
      ensures (remote, r) == ResolveBaseOn(old(remote), baseBranch)
    {
      var defaultBranch := GetDefaultBranch();
      if defaultBranch.Err? {
        return Err(defaultBranch.error);
      }
      var baseExists := BranchExists(baseBranch);
      if baseExists.Err? {
        return Err(baseExists.error);
      }
      r := Ok(if baseExists.value then baseBranch else defaultBranch.value);
    }

    /** Lines 116-117 of `create_pr`: the head branch is created only when it does not exist. */
    method EnsureHead(headBranch: string, base: string) returns (r: Result<(), Failure>)
      modifies this
      ensures (remote, r) == EnsureHeadOn(old(remote), headBranch, base)
    {
      var headExists := BranchExists(headBranch);
      if headExists.Err? {
        return Err(headExists.error);
      }
      if headExists.value {
        return Ok(());
      }
      r := CreateBranch(headBranch, base);
    }

    /** Lines 129-148 of `create_pr`: open the pull request, then label it when labels are given. */
    method OpenPull(title: string, body: string, headBranch: string, base: string, labels: seq<string>)
      returns (r: Result<(nat, string), Failure>)
      modifies this
      ensures (remote, r) == OpenPullOn(old(remote), title, body, headBranch, base, labels)
    {
      var prData := Request(CreatePull(title, body, headBranch, base));
      if prData.Err? {
        return Err(prData.error);
      }
      if labels != [] {
        var labelled := Request(AddLabels(prData.value.number, labels));
        if labelled.Err? {
          return Err(labelled.error);
        }
      }
      r := Ok((prData.value.number, prData.value.url));
    }

    /** `create_pr`: any failing step ends the run with a failure result; nothing is undone. */
    method CreatePr(title: string, body: string, headBranch: string, baseBranch: string, labels: seq<string>)
      returns (result: PRResult)
      modifies this
      ensures (remote, result) == SubmitOn(old(remote), title, body, headBranch, baseBranch, labels)
    {
      var actualBase := ResolveBase(baseBranch);
      if actualBase.Err? {
        return FailureResult(actualBase.error);
      }
      var head := EnsureHead(headBranch, actualBase.value);
      if head.Err? {
        return FailureResult(head.error);
      }
      var written := UpdateOrCreateFile(headBranch, ConfigPath(headBranch), ConfigContent(title, body), CommitMessage(title));
      if written.Err? {
        return FailureResult(written.error);
      }
      var pull := OpenPull(title, body, headBranch, actualBase.value, labels);
      if pull.Err? {
        return FailureResult(pull.error);
      }
      result := PRResult(true, pull.value.1, pull.value.0, "");
    }

    /** `create_pr` given an int head: the branch steps run, then `.replace` on the int fails the run. */
    method CreatePrNumberHead(head: int, baseBranch: string) returns (result: PRResult)
      modifies this
      ensures (remote, result) == SubmitNumberHeadOn(old(remote), head, baseBranch)
    {
      var actualBase := ResolveBase(baseBranch);
      if actualBase.Err? {
        return FailureResult(actualBase.error);
      }
      var made := EnsureHead(IntToString(head), actualBase.value);
      if made.Err? {
        return FailureResult(made.error);
      }
      result := FailureResult(OtherError(INT_REPLACE_ERROR));
    }
  }
}
