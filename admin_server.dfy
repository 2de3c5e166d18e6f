/** The admin server of admin-server/server.js: a bearer-token gate in front
    of /health, /propose, /apply, /commit and /push. Git, SHA-256, UUID
    generation, the clock and the proposals file are collaborators: the git
    commands' outcomes and the fresh id and time arrive with each request,
    the digest is a function fixed when the server is built, and the working
    tree is an abstract value. */
module AdminServer {
  import opened Strings
  import opened PatchPolicy

  /** A JSON value as the handlers inspect it: a string, or anything else
      together with its JavaScript truthiness. */
  datatype JsValue = JsString(s: string) | JsOther(truthy: bool)

  /** JSON.parse(raw || "{}"): an object's fields, or the parse error's message. */
  datatype Body = Object(fields: map<string, JsValue>) | Unparsable(message: string)

  datatype Request = Request(verb: string, url: string, authorization: Option<string>, body: Body)

  /** One stored proposal: the patch text, its digest, creation time and touched files. */
  datatype Proposal = Proposal(patch: string, hash: string, createdAt: int, files: seq<string>)

  /** The proposals file as loadProposals finds it. */
  datatype StoreFile = Missing | Corrupt | Intact(proposals: map<string, Proposal>)

  /** loadProposals: a missing or unreadable file reads as no proposals. */
  function Load(file: StoreFile): map<string, Proposal>
  {
    if file.Intact? then file.proposals else map[]
  }

  /** A local commit: its message and the uncommitted changes it captured. */
  datatype Commit = Commit(message: string, patches: seq<string>, foreignEdits: bool)

  /** The abstract working tree: patches applied since the last commit,
      whether someone else left uncommitted edits, the local commits made
      through the server, and how many of them have been pushed. */
  datatype WorkTree = WorkTree(applied: seq<string>, foreignEdits: bool, commits: seq<Commit>, pushed: nat)

  /** `git status --porcelain` prints nothing. */
  predicate IsClean(tree: WorkTree) {
    tree.applied == [] && !tree.foreignEdits
  }

  /** What one git command reports: its standard output, or the error message. */
  datatype Run = Ran(stdout: string) | Failed(message: string)

  /** The outcomes of the git commands a request may run: `apply --check`,
      `apply --whitespace=fix`, `diff`, `add -A`, `commit -m`, `push`. */
  datatype Git = Git(check: Run, apply: Run, diff: Run, add: Run, commit: Run, push: Run)

  /** Everything a request needs from outside: git, a fresh UUID, Date.now(). */
  datatype Env = Env(git: Git, freshId: string, now: int)

  datatype Config = Config(token: string, prefixes: seq<string>, maxPatchBytes: nat)

  datatype ReplyBody =
    | Error(error: string)
    | DisallowedPaths(error: string, files: seq<string>)
    | Proposed(id: string, hash: string, files: seq<string>)
    | Applied(diff: string)
    | Ok

  datatype Reply = Reply(status: nat, body: ReplyBody)

  datatype ServerState = ServerState(store: StoreFile, tree: WorkTree)

  datatype Transition = Transition(state: ServerState, reply: Reply)

  const NotCleanMessage: string := "Repo is not clean. Commit or stash changes first."

  /** The catch-all: a thrown error becomes 500 with its message. */
  function ServerError(message: string): Reply
  {
    Reply(500, Error(if message == [] then "server error" else message))
  }

  function Field(body: map<string, JsValue>, name: string): Option<JsValue>
  {
    if name in body then Some(body[name]) else None
  }

  /** JavaScript truthiness of a possibly absent field. */
  predicate Truthy(v: Option<JsValue>) {
    match v
    case None => false
    case Some(JsString(s)) => s != []
    case Some(JsOther(t)) => t
  }

  /** A field holding a non-empty string. */
  predicate NonEmptyString(v: Option<JsValue>) {
    v.Some? && v.value.JsString? && v.value.s != []
  }

  const BearerPrefix: string := "Bearer "

  /** requireAuth: the header's bearer token must equal the configured
      token, and a server with an empty token admits nobody. */
  predicate Authorized(token: string, header: Option<string>) {
    var auth := if header.Some? then header.value else "";
    var presented := if StartsWith(auth, BearerPrefix) then auth[|BearerPrefix|..] else "";
    token != [] && presented == token
  }

  /** Stored proposals are well formed: the digest is that of the patch, and the
      files are the patch's touched files, non-empty and all allowed. */
  ghost predicate StoreInvariant(config: Config, hashPatch: string -> string, proposals: map<string, Proposal>) {
    forall id :: id in proposals ==>
      && proposals[id].hash == hashPatch(proposals[id].patch)
      && proposals[id].files == TouchedFiles(proposals[id].patch)
      && proposals[id].files != []
      && Disallowed(config.prefixes, proposals[id].files) == []
  }

  /** POST /propose. */
  function ProposeStep(config: Config, hashPatch: string -> string, st: ServerState, body: Body, env: Env): Transition
  {
    match body
    case Unparsable(m) => Transition(st, ServerError(m))
    case Object(fields) =>
      var patch := Field(fields, "patch");
      if !NonEmptyString(patch) then Transition(st, Reply(400, Error("patch required")))
      else if TooLarge(patch.value.s, config.maxPatchBytes) then Transition(st, Reply(413, Error("patch too large")))
      else
        var text := patch.value.s;
        var files := TouchedFiles(text);
        var bad := Disallowed(config.prefixes, files);
        if files == [] then Transition(st, Reply(400, Error("no files detected in patch")))
        else if bad != [] then Transition(st, Reply(400, DisallowedPaths("disallowed paths", bad)))
        else if !IsClean(st.tree) then Transition(st, ServerError(NotCleanMessage))
        else if env.git.check.Failed? then Transition(st, ServerError(env.git.check.message))
        else
          var hash := hashPatch(text);
          var proposals := Load(st.store)[env.freshId := Proposal(text, hash, env.now, files)];
          Transition(ServerState(Intact(proposals), st.tree), Reply(200, Proposed(env.freshId, hash, files)))
  }

  /** POST /apply. */
  function ApplyStep(st: ServerState, body: Body, env: Env): Transition
  {
    match body
    case Unparsable(m) => Transition(st, ServerError(m))
    case Object(fields) =>
      var id := Field(fields, "id");
      var hash := Field(fields, "hash");
      var proposals := Load(st.store);
      if !Truthy(id) || !Truthy(hash) then Transition(st, Reply(400, Error("id and hash required")))
      else if !(id.value.JsString? && id.value.s in proposals) then Transition(st, Reply(404, Error("proposal not found")))
      else
        var proposal := proposals[id.value.s];
        if hash != Some(JsString(proposal.hash)) then Transition(st, Reply(400, Error("hash mismatch")))
        else if !IsClean(st.tree) then Transition(st, ServerError(NotCleanMessage))
        else if env.git.apply.Failed? then Transition(st, ServerError(env.git.apply.message))
        else
          var next := ServerState(st.store, st.tree.(applied := st.tree.applied + [proposal.patch]));
          if env.git.diff.Failed? then Transition(next, ServerError(env.git.diff.message))
          else Transition(next, Reply(200, Applied(env.git.diff.stdout)))
  }

  /** POST /commit: `git add -A` then `git commit -m message`. */
  function CommitStep(st: ServerState, body: Body, env: Env): Transition
  {
    match body
    case Unparsable(m) => Transition(st, ServerError(m))
    case Object(fields) =>
      var message := Field(fields, "message");
      if !NonEmptyString(message) then Transition(st, Reply(400, Error("message required")))
      else if env.git.add.Failed? then Transition(st, ServerError(env.git.add.message))
      else if env.git.commit.Failed? then Transition(st, ServerError(env.git.commit.message))
      else
        var t := st.tree;
        var commit := Commit(message.value.s, t.applied, t.foreignEdits);
        Transition(ServerState(st.store, WorkTree([], false, t.commits + [commit], t.pushed)), Reply(200, Ok))
  }

  /** POST /push. */
  function PushStep(st: ServerState, env: Env): Transition
  {
    if env.git.push.Failed? then Transition(st, ServerError(env.git.push.message))
    else Transition(ServerState(st.store, st.tree.(pushed := |st.tree.commits|)), Reply(200, Ok))
  }

  /** One request, start to finish. */
  function Step(config: Config, hashPatch: string -> string, st: ServerState, req: Request, env: Env): Transition
  {
    if !Authorized(config.token, req.authorization) then Transition(st, Reply(401, Error("unauthorized")))
    else if req.verb == "GET" && req.url == "/health" then Transition(st, Reply(200, Ok))
    else if req.verb == "POST" && req.url == "/propose" then ProposeStep(config, hashPatch, st, req.body, env)
    else if req.verb == "POST" && req.url == "/apply" then ApplyStep(st, req.body, env)
    else if req.verb == "POST" && req.url == "/commit" then CommitStep(st, req.body, env)
    else if req.verb == "POST" && req.url == "/push" then PushStep(st, env)
    else Transition(st, Reply(404, Error("not found")))
  }

  // ---------------------------------------------------------------------
  // Properties of the specification

  /** A request passes the gate exactly when the server has a token and the
      header is "Bearer " followed by exactly that token. */
  lemma AuthorizedIff(token: string, header: Option<string>)
    ensures Authorized(token, header) <==> token != [] && header == Some(BearerPrefix + token)
  {
    if header.Some? && StartsWith(header.value, BearerPrefix) {
      assert header.value == header.value[..|BearerPrefix|] + header.value[|BearerPrefix|..];
    }
    if token != [] && header == Some(BearerPrefix + token) {
      assert (BearerPrefix + token)[..|BearerPrefix|] == BearerPrefix;
      assert (BearerPrefix + token)[|BearerPrefix|..] == token;
    }
  }

  /** Every request that fails the gate gets 401 and changes nothing; with an
      empty configured token that is every request. */
  lemma UnauthorizedChangesNothing(config: Config, hashPatch: string -> string, st: ServerState, req: Request, env: Env)
    requires !Authorized(config.token, req.authorization) || config.token == []
    ensures Step(config, hashPatch, st, req, env) == Transition(st, Reply(401, Error("unauthorized")))
  {
  }

  /** /propose never changes the working tree: the clean check and the dry run only read it. */
  lemma ProposeKeepsTree(config: Config, hashPatch: string -> string, st: ServerState, body: Body, env: Env)
    ensures ProposeStep(config, hashPatch, st, body, env).state.tree == st.tree
  {
  }

  /** The rejections of /propose, in the order the handler checks them; none of them touches the store. */
  lemma ProposeRejections(config: Config, hashPatch: string -> string, st: ServerState, fields: map<string, JsValue>, env: Env)
    ensures var t := ProposeStep(config, hashPatch, st, Object(fields), env);
            var patch := Field(fields, "patch");
            && (!NonEmptyString(patch) ==> t == Transition(st, Reply(400, Error("patch required"))))
            && (NonEmptyString(patch) && TooLarge(patch.value.s, config.maxPatchBytes) ==>
                  t == Transition(st, Reply(413, Error("patch too large"))))
            && (NonEmptyString(patch) && !TooLarge(patch.value.s, config.maxPatchBytes) && TouchedFiles(patch.value.s) == [] ==>
                  t == Transition(st, Reply(400, Error("no files detected in patch"))))
            && (NonEmptyString(patch) && !TooLarge(patch.value.s, config.maxPatchBytes) && TouchedFiles(patch.value.s) != []
                && (exists k :: 0 <= k < |TouchedFiles(patch.value.s)| && !IsAllowedPath(config.prefixes, TouchedFiles(patch.value.s)[k])) ==>
                  t == Transition(st, Reply(400, DisallowedPaths("disallowed paths", Disallowed(config.prefixes, TouchedFiles(patch.value.s))))))
  {
  }

  /** A valid patch on a dirty tree, or one whose dry run fails, is refused with 500 and not stored. */
  lemma ProposeRefusedByGit(config: Config, hashPatch: string -> string, st: ServerState, fields: map<string, JsValue>, env: Env)
    requires NonEmptyString(Field(fields, "patch"))
    requires !TooLarge(fields["patch"].s, config.maxPatchBytes)
    requires TouchedFiles(fields["patch"].s) != []
    requires Disallowed(config.prefixes, TouchedFiles(fields["patch"].s)) == []
    ensures !IsClean(st.tree) ==>
              ProposeStep(config, hashPatch, st, Object(fields), env) == Transition(st, ServerError(NotCleanMessage))
    ensures IsClean(st.tree) && env.git.check.Failed? ==>
              ProposeStep(config, hashPatch, st, Object(fields), env) == Transition(st, ServerError(env.git.check.message))
  {
  }

  /** The store changes only through a successful proposal, which adds exactly
      one entry: the patch, its digest, the time and its touched files; the
      reply repeats the stored id, digest and files. */
  lemma ProposeRecords(config: Config, hashPatch: string -> string, st: ServerState, body: Body, env: Env)
    ensures var t := ProposeStep(config, hashPatch, st, body, env);
            Load(t.state.store) != Load(st.store) || t.reply.status == 200 ==>
              && t.reply.status == 200
              && body.Object? && NonEmptyString(Field(body.fields, "patch"))
              && IsClean(st.tree) && env.git.check.Ran?
              && var patch := body.fields["patch"].s;
                 var entry := Proposal(patch, hashPatch(patch), env.now, TouchedFiles(patch));
                 && Load(t.state.store) == Load(st.store)[env.freshId := entry]
                 && t.reply.body == Proposed(env.freshId, entry.hash, entry.files)
                 && entry.files != []
                 && Disallowed(config.prefixes, entry.files) == []
  {
  }

  /** The rejections of /apply, in the order the handler checks them; none of
      them touches the working tree or the store. */
  lemma ApplyRejections(st: ServerState, fields: map<string, JsValue>, env: Env)
    ensures var t := ApplyStep(st, Object(fields), env);
            var id := Field(fields, "id");
            var hash := Field(fields, "hash");
            var proposals := Load(st.store);
            && (!Truthy(id) || !Truthy(hash) ==> t == Transition(st, Reply(400, Error("id and hash required"))))
            && (Truthy(id) && Truthy(hash) && !(id.value.JsString? && id.value.s in proposals) ==>
                  t == Transition(st, Reply(404, Error("proposal not found"))))
            && (Truthy(id) && Truthy(hash) && id.value.JsString? && id.value.s in proposals
                && hash != Some(JsString(proposals[id.value.s].hash)) ==>
                  t == Transition(st, Reply(400, Error("hash mismatch"))))
            && (Truthy(id) && Truthy(hash) && id.value.JsString? && id.value.s in proposals
                && hash == Some(JsString(proposals[id.value.s].hash)) && !IsClean(st.tree) ==>
                  t == Transition(st, ServerError(NotCleanMessage)))
            && (!IsClean(st.tree) ==> t.state == st && t.reply.status != 200)
  {
  }

  /** /apply changes the tree only by applying the STORED patch of the named
      proposal on a clean tree, after the supplied digest matched. */
  lemma ApplyUsesStoredPatch(st: ServerState, body: Body, env: Env)
    ensures var t := ApplyStep(st, body, env);
            t.state.store == st.store
            && (t.state.tree != st.tree || t.reply.status == 200 ==>
                  && body.Object?
                  && var id := body.fields["id"].s;
                     && "id" in body.fields && body.fields["id"].JsString? && id in Load(st.store)
                     && Field(body.fields, "hash") == Some(JsString(Load(st.store)[id].hash))
                     && IsClean(st.tree)
                     && t.state.tree == st.tree.(applied := [Load(st.store)[id].patch]))
  {
  }

  /** /apply checks only the id, the digest and a clean tree: any stored
      proposal is applied, whatever its files, even ones the current prefixes
      do not allow (a file written under another policy, say). */
  lemma ApplyIgnoresCurrentPolicy(st: ServerState, id: string, env: Env)
    requires id != [] && id in Load(st.store) && Load(st.store)[id].hash != []
    requires IsClean(st.tree) && env.git.apply.Ran? && env.git.diff.Ran?
    ensures var proposal := Load(st.store)[id];
            var t := ApplyStep(st, Object(map["id" := JsString(id), "hash" := JsString(proposal.hash)]), env);
            && t.reply == Reply(200, Applied(env.git.diff.stdout))
            && t.state.tree == st.tree.(applied := [proposal.patch])
  {
    var fields := map["id" := JsString(id), "hash" := JsString(Load(st.store)[id].hash)];
    assert Field(fields, "id") == Some(JsString(id));
    assert Field(fields, "hash") == Some(JsString(Load(st.store)[id].hash));
  }

  /** Applying twice does not apply twice: once an apply has changed the tree,
      the same request again fails the clean check and changes nothing. */
  lemma {:induction false} SecondApplyFails(config: Config, hashPatch: string -> string, st: ServerState, req: Request, env1: Env, env2: Env)
    requires Authorized(config.token, req.authorization)
    requires req.verb == "POST" && req.url == "/apply"
    requires var t := Step(config, hashPatch, st, req, env1); t.state.tree != st.tree || t.reply.status == 200
    ensures var t1 := Step(config, hashPatch, st, req, env1);
            Step(config, hashPatch, t1.state, req, env2) == Transition(t1.state, ServerError(NotCleanMessage))
  {
    ApplyUsesStoredPatch(st, req.body, env1);
  }

  /** The two-step protocol: a successful proposal on a clean tree, confirmed
      by echoing its id and digest, applies exactly the proposed patch. */
  lemma {:induction false} ProposeThenApply(config: Config, hashPatch: string -> string, st: ServerState, patch: string, env1: Env, env2: Env)
    requires env1.freshId != [] && hashPatch(patch) != []
    requires env2.git.apply.Ran? && env2.git.diff.Ran?
    requires var t := ProposeStep(config, hashPatch, st, Object(map["patch" := JsString(patch)]), env1); t.reply.status == 200
    ensures var t1 := ProposeStep(config, hashPatch, st, Object(map["patch" := JsString(patch)]), env1);
            var confirm := Object(map["id" := JsString(env1.freshId), "hash" := JsString(hashPatch(patch))]);
            var t2 := ApplyStep(t1.state, confirm, env2);
            && t1.reply.body == Proposed(env1.freshId, hashPatch(patch), TouchedFiles(patch))
            && t2.reply == Reply(200, Applied(env2.git.diff.stdout))
            && t2.state.tree == st.tree.(applied := [patch])
  {
    var fields := map["patch" := JsString(patch)];
    ProposeRecords(config, hashPatch, st, Object(fields), env1);
    assert Field(fields, "patch") == Some(JsString(patch));
  }

  /** /commit needs a non-empty string message and commits nothing otherwise;
      a successful commit captures every uncommitted change and leaves the tree clean. */
  lemma CommitBehaviour(st: ServerState, body: Body, env: Env)
    ensures var t := CommitStep(st, body, env);
            && t.state.store == st.store
            && (body.Object? && !NonEmptyString(Field(body.fields, "message")) ==>
                  t == Transition(st, Reply(400, Error("message required"))))
            && (t.reply.status == 200 ==>
                  && body.Object? && NonEmptyString(Field(body.fields, "message"))
                  && IsClean(t.state.tree)
                  && t.state.tree.commits ==
                       st.tree.commits + [Commit(body.fields["message"].s, st.tree.applied, st.tree.foreignEdits)])
            && (t.reply.status != 200 ==> t.state == st)
  {
  }

  /** Scenario of a full landing: apply on a clean tree, then commit, records
      exactly the applied patch in one new commit and the tree is clean again. */
  lemma {:induction false} ApplyThenCommit(st: ServerState, apply: Body, commit: Body, env1: Env, env2: Env)
    requires ApplyStep(st, apply, env1).reply.status == 200
    requires CommitStep(ApplyStep(st, apply, env1).state, commit, env2).reply.status == 200
    ensures var t1 := ApplyStep(st, apply, env1);
            var t2 := CommitStep(t1.state, commit, env2);
            && IsClean(t2.state.tree)
            && |t2.state.tree.commits| == |st.tree.commits| + 1
            && t2.state.tree.commits[|st.tree.commits|].patches == t1.state.tree.applied
            && |t1.state.tree.applied| == 1
  {
    ApplyUsesStoredPatch(st, apply, env1);
    CommitBehaviour(ApplyStep(st, apply, env1).state, commit, env2);
  }

  /** A successful push records that every local commit reached the remote. */
  lemma PushBehaviour(st: ServerState, env: Env)
    ensures var t := PushStep(st, env);
            && t.state.store == st.store
            && t.state.tree.commits == st.tree.commits
            && (t.reply.status == 200 <==> env.git.push.Ran?)
            && (t.reply.status == 200 ==> t.state.tree.pushed == |st.tree.commits|)
            && (t.reply.status != 200 ==> t.state == st)
  {
  }

  /** A request either leaves the proposals alone or adds one well-formed entry. */
  lemma StepStore(config: Config, hashPatch: string -> string, st: ServerState, req: Request, env: Env)
    ensures var after := Load(Step(config, hashPatch, st, req, env).state.store);
            || after == Load(st.store)
            || (&& req.body.Object? && NonEmptyString(Field(req.body.fields, "patch"))
                && var patch := req.body.fields["patch"].s;
                   && after == Load(st.store)[env.freshId := Proposal(patch, hashPatch(patch), env.now, TouchedFiles(patch))]
                   && TouchedFiles(patch) != []
                   && Disallowed(config.prefixes, TouchedFiles(patch)) == [])
  {
    if Authorized(config.token, req.authorization) && req.verb == "POST" && req.url == "/propose" {
      ProposeRecords(config, hashPatch, st, req.body, env);
    }
  }

  /** Adding a well-formed entry keeps the proposals well formed. */
  lemma StoreInvariantUpdate(config: Config, hashPatch: string -> string, proposals: map<string, Proposal>, id: string, patch: string, now: int)
    requires StoreInvariant(config, hashPatch, proposals)
    requires TouchedFiles(patch) != [] && Disallowed(config.prefixes, TouchedFiles(patch)) == []
    ensures StoreInvariant(config, hashPatch, proposals[id := Proposal(patch, hashPatch(patch), now, TouchedFiles(patch))])
  {
  }

  /** Every request keeps the stored proposals well formed. */
  lemma StepPreservesStoreInvariant(config: Config, hashPatch: string -> string, st: ServerState, req: Request, env: Env)
    requires StoreInvariant(config, hashPatch, Load(st.store))
    ensures StoreInvariant(config, hashPatch, Load(Step(config, hashPatch, st, req, env).state.store))
  {
    StepStore(config, hashPatch, st, req, env);
    var after := Load(Step(config, hashPatch, st, req, env).state.store);
    if after != Load(st.store) {
      StoreInvariantUpdate(config, hashPatch, Load(st.store), env.freshId, req.body.fields["patch"].s, env.now);
    }
  }

  /** A line that does not start with "+" names no file. */
  lemma NotNewSideNamesNothing(line: string)
    requires line != [] && line[0] != '+'
    ensures FileOfLine(line) == None
  {
  }

  /** The new-side header of a deletion names no file. */
  lemma DeletedSideNamesNothing()
    ensures FileOfLine("+++ /dev/null") == None
  {
    var deleted := "+++ /dev/null";
    assert deleted[4] == '/' && NewFileMarker[4] == 'b';
  }

  /** The allow-list gate looks only at "+++ b/" lines: an old-side header such
      as "--- a/backend/secret.py", which is all a deletion names besides
      "+++ /dev/null", adds nothing to the checked files. */
  lemma OldSideNotInspected(before: seq<string>, oldSide: string, after: seq<string>)
    requires StartsWith(oldSide, "--- ")
    ensures FilesOfLines(before + [oldSide] + after) == FilesOfLines(before + after)
    ensures FileOfLine("+++ /dev/null") == None
  {
    assert oldSide[0] == "--- "[0];
    NotNewSideNamesNothing(oldSide);
    assert FilesOfLines([oldSide]) == FilesOfLines([oldSide][..0]) + [];
    assert [oldSide][..0] == [];
    FilesOfLinesAppend(before + [oldSide], after);
    FilesOfLinesAppend(before, [oldSide]);
    FilesOfLinesAppend(before, after);
    DeletedSideNamesNothing();
  }

  // ---------------------------------------------------------------------
  // The server object

  class Server {
    const config: Config
    const hashPatch: string -> string
    /** The proposals file. */
    var store: StoreFile
    /** The repository's working tree. */
    var tree: WorkTree

    ghost predicate Valid()
      reads this
    {
      StoreInvariant(config, hashPatch, Load(store))
    }

    function State(): ServerState
      reads this
    {
      ServerState(store, tree)
    }

    /** The server takes whatever proposals file it finds; Valid() holds
        exactly when that file meets the current policy. */
    constructor (config: Config, hashPatch: string -> string, store: StoreFile, tree: WorkTree)
      ensures Valid() <==> StoreInvariant(config, hashPatch, Load(store))
      ensures this.config == config && this.hashPatch == hashPatch
      ensures this.store == store && this.tree == tree
    {
      this.config := config;
      this.hashPatch := hashPatch;
      this.store := store;
      this.tree := tree;
    }

    /** loadProposals. */
    method LoadProposals() returns (proposals: map<string, Proposal>)
      ensures proposals == Load(store)
    {
      match store
      case Intact(m) => proposals := m;
      case _ => proposals := map[];
    }

    /** saveProposals: the whole file is rewritten. */
    method SaveProposals(proposals: map<string, Proposal>)
      modifies this`store
      ensures store == Intact(proposals)
    {
      store := Intact(proposals);
    }

    /** ensureCleanRepo: the error it throws on a dirty tree, if any. */
    method EnsureCleanRepo() returns (failure: Option<string>)
      ensures failure.None? <==> IsClean(tree)
      ensures failure.Some? ==> failure.value == NotCleanMessage
    {
      var porcelain := tree.applied != [] || tree.foreignEdits;
      if porcelain {
        failure := Some(NotCleanMessage);
      } else {
        failure := None;
      }
    }

    method Handle(req: Request, env: Env) returns (reply: Reply)
      modifies this
      ensures old(Valid()) ==> Valid()
      ensures Transition(State(), reply) == Step(config, hashPatch, old(State()), req, env)
    {
      // requireAuth
      var auth := if req.authorization.Some? then req.authorization.value else "";
      var token := if StartsWith(auth, BearerPrefix) then auth[|BearerPrefix|..] else "";
      if config.token == [] || token != config.token {
        return Reply(401, Error("unauthorized"));
      }
      if req.verb == "GET" && req.url == "/health" {
        return Reply(200, Ok);
      }
      if req.verb == "POST" && req.url == "/propose" {
        reply := Propose(req.body, env);
        return;
      }
      if req.verb == "POST" && req.url == "/apply" {
        reply := Apply(req.body, env);
        return;
      }
      if req.verb == "POST" && req.url == "/commit" {
        reply := CommitAll(req.body, env);
        return;
      }
      if req.verb == "POST" && req.url == "/push" {
        reply := Push(env);
        return;
      }
      return Reply(404, Error("not found"));
    }

    method Propose(body: Body, env: Env) returns (reply: Reply)
      modifies this`store
      ensures old(Valid()) ==> Valid()
      ensures Transition(State(), reply) == ProposeStep(config, hashPatch, old(State()), body, env)
    {
      if body.Unparsable? {
        return ServerError(body.message);
      }
      var patch := Field(body.fields, "patch");
      if !NonEmptyString(patch) {
        return Reply(400, Error("patch required"));
      }
      var text := patch.value.s;
      if Utf8Length(text) > config.maxPatchBytes {
        return Reply(413, Error("patch too large"));
      }
      var files := ExtractTouchedFiles(text);
      if |files| == 0 {
        return Reply(400, Error("no files detected in patch"));
      }
      var disallowed := Disallowed(config.prefixes, files);
      if |disallowed| > 0 {
        return Reply(400, DisallowedPaths("disallowed paths", disallowed));
      }
      var dirty := EnsureCleanRepo();
      if dirty.Some? {
        return ServerError(dirty.value);
      }
      if env.git.check.Failed? {
        return ServerError(env.git.check.message);
      }
      var id := env.freshId;
      var hash := hashPatch(text);
      var proposals := LoadProposals();
      proposals := proposals[id := Proposal(text, hash, env.now, files)];
      SaveProposals(proposals);
      return Reply(200, Proposed(id, hash, files));
    }

    method Apply(body: Body, env: Env) returns (reply: Reply)
      modifies this`tree
      ensures old(Valid()) ==> Valid()
      ensures Transition(State(), reply) == ApplyStep(old(State()), body, env)
    {
      if body.Unparsable? {
        return ServerError(body.message);
      }
      var id := Field(body.fields, "id");
      var hash := Field(body.fields, "hash");
      if !Truthy(id) || !Truthy(hash) {
        return Reply(400, Error("id and hash required"));
      }
      var proposals := LoadProposals();
      if !(id.value.JsString? && id.value.s in proposals) {
        return Reply(404, Error("proposal not found"));
      }
      var proposal := proposals[id.value.s];
      if hash != Some(JsString(proposal.hash)) {
        return Reply(400, Error("hash mismatch"));
      }
      var dirty := EnsureCleanRepo();
      if dirty.Some? {
        return ServerError(dirty.value);
      }
      if env.git.apply.Failed? {
        return ServerError(env.git.apply.message);
      }
      tree := tree.(applied := tree.applied + [proposal.patch]);
      if env.git.diff.Failed? {
        return ServerError(env.git.diff.message);
      }
      return Reply(200, Applied(env.git.diff.stdout));
    }

    method CommitAll(body: Body, env: Env) returns (reply: Reply)
      modifies this`tree
      ensures old(Valid()) ==> Valid()
      ensures Transition(State(), reply) == CommitStep(old(State()), body, env)
    {
      if body.Unparsable? {
        return ServerError(body.message);
      }
      var message := Field(body.fields, "message");
      if !NonEmptyString(message) {
        return Reply(400, Error("message required"));
      }
      if env.git.add.Failed? {
        return ServerError(env.git.add.message);
      }
      if env.git.commit.Failed? {
        return ServerError(env.git.commit.message);
      }
      var commit := Commit(message.value.s, tree.applied, tree.foreignEdits);
      tree := WorkTree([], false, tree.commits + [commit], tree.pushed);
      return Reply(200, Ok);
    }

    method Push(env: Env) returns (reply: Reply)
      modifies this`tree
      ensures old(Valid()) ==> Valid()
      ensures Transition(State(), reply) == PushStep(old(State()), env)
    {
      if env.git.push.Failed? {
        return ServerError(env.git.push.message);
      }
      tree := tree.(pushed := |tree.commits|);
      return Reply(200, Ok);
    }
  }
}
