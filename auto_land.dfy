/** The one-shot "auto land" route (frontend/app/api/admin/auto/route.js):
    ask the gateway for a patch implementing an instruction, then drive the
    admin server through propose, apply, commit and push, stopping at the
    first failure. The gateway and the admin server are collaborators given
    as functions from the request sent to the answer received. */
module AutoLand {
  import opened Strings

  const DiffHeader: string := "diff --git"
  const SubjectLimit: nat := 72

  const InstructionRequired: string := "instruction required"
  const MissingEnv: string := "Missing gateway/admin env"
  const GatewayError: string := "Gateway error"
  const GatewayNotJson: string := "Gateway returned non-JSON"

  /** extractPatch: from the first "diff --git" to the end, else the whole
      text; trimmed either way. */
  function ExtractPatch(text: string): (patch: string)
    ensures IsTrimmed(patch)
    ensures |patch| <= |text|
  {
    match IndexOf(text, DiffHeader)
    case Some(i) => Trim(text[i..])
    case None => Trim(text)
  }

  /** A text that starts with "diff --git" keeps that start when trimmed. */
  lemma TrimKeepsDiffHeader(s: string)
    requires StartsWith(s, DiffHeader)
    ensures StartsWith(Trim(s), DiffHeader)
  {
    assert s[0] == 'd' && s[9] == 't';
    assert TrimStart(s) == s;
    TrimEndShape(s);
    assert TrimEnd(s)[..|DiffHeader|] == s[..|DiffHeader|];
  }

  /** When the text contains "diff --git", the patch is the trimmed suffix
      from its first occurrence, and it starts with that header. */
  lemma ExtractPatchFound(text: string, i: nat)
    requires OccursAt(text, DiffHeader, i)
    requires forall j :: 0 <= j < i ==> !OccursAt(text, DiffHeader, j)
    ensures ExtractPatch(text) == Trim(text[i..])
    ensures StartsWith(ExtractPatch(text), DiffHeader)
  {
    match IndexOf(text, DiffHeader)
    case None =>
    case Some(k) =>
      assert k == i;
      assert text[i..][..|DiffHeader|] == text[i..i + |DiffHeader|];
      TrimKeepsDiffHeader(text[i..]);
  }

  /** A text without "diff --git" is returned trimmed, and the patch holds no
      "diff --git" either. */
  lemma ExtractPatchNotFound(text: string)
    requires forall j :: !OccursAt(text, DiffHeader, j)
    ensures ExtractPatch(text) == Trim(text)
    ensures forall j :: !OccursAt(ExtractPatch(text), DiffHeader, j)
  {
    var t := Trim(text);
    var o := TrimOffset(text);
    TrimShape(text);
    forall j | OccursAt(t, DiffHeader, j) ensures false {
      OccursInInfix(text, o, o + |t|, DiffHeader, j);
    }
  }

  /** Extracting from an extracted patch changes nothing. */
  lemma ExtractPatchIdempotent(text: string)
    ensures ExtractPatch(ExtractPatch(text)) == ExtractPatch(text)
  {
    var p := ExtractPatch(text);
    match IndexOf(text, DiffHeader)
    case Some(i) =>
      ExtractPatchFound(text, i);
      assert p[..|DiffHeader|] == p[0..0 + |DiffHeader|];
      ExtractPatchFound(p, 0);
      assert p[0..] == p;
      TrimOfTrimmed(p);
    case None =>
      ExtractPatchNotFound(text);
      ExtractPatchNotFound(p);
      TrimOfTrimmed(p);
  }

  // ---------------------------------------------------------------------
  // The route

  /** body?.instruction: absent (or null), a string, or another JSON value,
      on which calling trim throws. */
  datatype Instruction = Absent | Text(s: string) | NotText

  datatype RequestBody = Unparsable(message: string) | Parsed(instruction: Instruction)

  /** OPENCLAW_GATEWAY_TOKEN, ADMIN_API_URL, ADMIN_API_TOKEN ("" when unset). */
  datatype Config = Config(gatewayToken: string, adminUrl: string, adminToken: string)

  predicate Configured(config: Config) {
    config.gatewayToken != [] && config.adminUrl != [] && config.adminToken != []
  }

  /** res.ok */
  predicate IsOk(status: nat) {
    200 <= status <= 299
  }

  /** What the chat-completions call gives back. `content` is None when the
      raw text is not JSON, else choices[0].message.content or "". */
  datatype GatewayAnswer =
    | GatewayUnreachable(message: string)
    | GatewayAnswer(status: nat, raw: string, content: Option<string>)

  datatype AdminCall =
    | ProposeCall(patch: string)
    | ApplyCall(id: Option<string>, hash: Option<string>)
    | CommitCall(message: string)
    | PushCall

  /** What callAdmin gives back; `id` and `hash` are the fields of the JSON
      answer, None when absent or when the answer is not JSON. */
  datatype AdminAnswer =
    | AdminUnreachable(message: string)
    | AdminAnswer(status: nat, text: string, id: Option<string>, hash: Option<string>)

  datatype Call = ToGateway(prompt: string) | ToAdmin(call: AdminCall)

  /** The JSON body of the response; `Thrown` is the runtime's message for
      calling trim on a non-string instruction. */
  datatype ReplyBody = Error(message: string) | Thrown | Landed(patch: string)

  datatype Reply = Reply(status: nat, body: ReplyBody)

  function Prompt(instruction: string): string {
    "Task: " + instruction + "\nReturn a unified diff patch."
  }

  /** The catch-all handler: err?.message || "server error". */
  function Crash(message: string): Reply {
    Reply(500, Error(if message != [] then message else "server error"))
  }

  predicate Succeeded(answer: AdminAnswer) {
    answer.AdminAnswer? && IsOk(answer.status)
  }

  /** Position of each admin call in the pipeline, after the gateway call. */
  function Stage(call: AdminCall): nat {
    match call
    case ProposeCall(_) => 1
    case ApplyCall(_, _) => 2
    case CommitCall(_) => 3
    case PushCall => 4
  }

  function StageName(call: AdminCall): string {
    match call
    case ProposeCall(_) => "Propose"
    case ApplyCall(_, _) => "Apply"
    case CommitCall(_) => "Commit"
    case PushCall => "Push"
  }

  /** The reply for a step that did not succeed. */
  function StepFailure(call: AdminCall, answer: AdminAnswer): Reply
    requires !Succeeded(answer)
  {
    match answer
    case AdminUnreachable(m) => Crash(m)
    case AdminAnswer(_, text, _, _) => Reply(500, Error(if text != [] then text else StageName(call) + " failed"))
  }

  /** instruction.slice(0, 72) || "Update". */
  function CommitSubject(instruction: string): string {
    var cut := if |instruction| < SubjectLimit then |instruction| else SubjectLimit;
    if instruction[..cut] != [] then instruction[..cut] else "Update"
  }

  /** For a non-blank instruction the fallback never applies: the subject is
      the first min(72, length) characters. */
  lemma CommitSubjectIsPrefix(instruction: string)
    requires instruction != []
    ensures |CommitSubject(instruction)| == if |instruction| < SubjectLimit then |instruction| else SubjectLimit
    ensures StartsWith(instruction, CommitSubject(instruction))
  {
  }

  /** The instruction the route works with, when it is a non-blank string. */
  predicate HasInstruction(body: RequestBody) {
    body.Parsed? && body.instruction.Text? && !IsBlank(body.instruction.s)
  }

  /** One admin step: call, and stop with its failure reply if it did not succeed. */
  method CallStep(calls: seq<Call>, call: AdminCall, admin: AdminCall -> AdminAnswer)
    returns (failure: Option<Reply>, next: seq<Call>, answer: AdminAnswer)
    ensures next == calls + [ToAdmin(call)]
    ensures answer == admin(call)
    ensures failure.None? <==> Succeeded(answer)
    ensures failure.Some? ==> failure.value == StepFailure(call, answer) && failure.value.status == 500
  {
    next := calls + [ToAdmin(call)];
    answer := admin(call);
    if answer.AdminUnreachable? {
      failure := Some(Crash(answer.message));
    } else if !IsOk(answer.status) {
      failure := Some(StepFailure(call, answer));
    } else {
      failure := None;
    }
  }

  /** The admin pipeline after the gateway call: propose, apply, commit and
      push, each only after the previous one succeeded. */
  method Land(gatewayCall: Call, patch: string, subject: string, admin: AdminCall -> AdminAnswer)
    returns (reply: Reply, calls: seq<Call>)
    ensures 2 <= |calls| <= 5 && calls[0] == gatewayCall
    ensures forall k :: 1 <= k < |calls| ==> calls[k].ToAdmin? && Stage(calls[k].call) == k
    ensures forall k :: 1 <= k < |calls| - 1 ==> Succeeded(admin(calls[k].call))
    ensures calls[1].call == ProposeCall(patch)
    ensures |calls| >= 3 ==>
              admin(calls[1].call).AdminAnswer?
              && calls[2].call == ApplyCall(admin(calls[1].call).id, admin(calls[1].call).hash)
    ensures |calls| >= 4 ==> calls[3].call == CommitCall(subject)
    ensures !Succeeded(admin(calls[|calls| - 1].call)) ==>
              reply == StepFailure(calls[|calls| - 1].call, admin(calls[|calls| - 1].call))
    ensures Succeeded(admin(calls[|calls| - 1].call)) ==> |calls| == 5
    ensures reply.status == 200 <==> |calls| == 5 && Succeeded(admin(calls[4].call))
    ensures reply.status == 200 ==> reply.body == Landed(patch)
  {
    var failure, propose, apply, commit, push;
    failure, calls, propose := CallStep([gatewayCall], ProposeCall(patch), admin);
    if failure.Some? {
      return failure.value, calls;
    }
    failure, calls, apply := CallStep(calls, ApplyCall(propose.id, propose.hash), admin);
    if failure.Some? {
      return failure.value, calls;
    }
    failure, calls, commit := CallStep(calls, CommitCall(subject), admin);
    if failure.Some? {
      return failure.value, calls;
    }
    failure, calls, push := CallStep(calls, PushCall, admin);
    if failure.Some? {
      return failure.value, calls;
    }
    return Reply(200, Landed(patch)), calls;
  }

  /** POST: returns the response and the outbound calls, in the order made. */
  method Post(config: Config, body: RequestBody, gateway: string -> GatewayAnswer, admin: AdminCall -> AdminAnswer)
    returns (reply: Reply, calls: seq<Call>)
    // rejected before any outbound call
    ensures body.Unparsable? ==> reply == Crash(body.message) && calls == []
    ensures body == Parsed(NotText) ==> reply == Reply(500, Thrown) && calls == []
    ensures body.Parsed? && (body.instruction.Absent? || (body.instruction.Text? && IsBlank(body.instruction.s))) ==>
              reply == Reply(400, Error(InstructionRequired)) && calls == []
    ensures HasInstruction(body) && !Configured(config) ==> reply == Reply(500, Error(MissingEnv)) && calls == []
    ensures calls != [] <==> HasInstruction(body) && Configured(config)
    // the gateway is asked first, with the trimmed instruction
    ensures calls != [] ==> calls[0] == ToGateway(Prompt(Trim(body.instruction.s)))
    ensures calls != [] && gateway(calls[0].prompt).GatewayUnreachable? ==>
              reply == Crash(gateway(calls[0].prompt).message) && |calls| == 1
    ensures calls != [] && gateway(calls[0].prompt).GatewayAnswer? && !IsOk(gateway(calls[0].prompt).status) ==>
              |calls| == 1 && reply.status == gateway(calls[0].prompt).status
              && reply.body == Error(if gateway(calls[0].prompt).raw != [] then gateway(calls[0].prompt).raw else GatewayError)
    ensures calls != [] && gateway(calls[0].prompt).GatewayAnswer? && IsOk(gateway(calls[0].prompt).status)
              && gateway(calls[0].prompt).content.None? ==>
              |calls| == 1 && reply == Reply(502, Error(GatewayNotJson))
    // then the admin steps, in order, each only after the previous succeeded
    // an answer that is ok and JSON always leads to the propose call
    ensures calls != [] && gateway(calls[0].prompt).GatewayAnswer? && IsOk(gateway(calls[0].prompt).status)
              && gateway(calls[0].prompt).content.Some? ==>
              |calls| >= 2
    ensures |calls| <= 5
    ensures forall k :: 1 <= k < |calls| ==> calls[k].ToAdmin? && Stage(calls[k].call) == k
    ensures forall k :: 1 <= k < |calls| - 1 ==> Succeeded(admin(calls[k].call))
    ensures |calls| >= 2 ==>
              calls[1].call == ProposeCall(ExtractPatch(gateway(calls[0].prompt).content.value))
    ensures |calls| >= 3 ==>
              admin(calls[1].call).AdminAnswer?
              && calls[2].call == ApplyCall(admin(calls[1].call).id, admin(calls[1].call).hash)
    ensures |calls| >= 4 ==> calls[3].call == CommitCall(CommitSubject(Trim(body.instruction.s)))
    ensures |calls| >= 2 && !Succeeded(admin(calls[|calls| - 1].call)) ==>
              reply == StepFailure(calls[|calls| - 1].call, admin(calls[|calls| - 1].call))
    // success is exactly four successful admin steps, and reports the proposed patch
    // a step that succeeded is followed by the next, up to the push
    ensures |calls| >= 2 && Succeeded(admin(calls[|calls| - 1].call)) ==> |calls| == 5
    ensures reply.status == 200 <==> |calls| == 5 && Succeeded(admin(calls[4].call))
    ensures reply.status == 200 ==> reply.body == Landed(calls[1].call.patch)
  {
    calls := [];
    if body.Unparsable? {
      return Crash(body.message), calls;
    }
    match body.instruction {
      case Absent =>
        return Reply(400, Error(InstructionRequired)), calls;
      case NotText =>
        return Reply(500, Thrown), calls;
      case Text(s) =>
    }
    var instruction := Trim(body.instruction.s);
    TrimEmptyIffBlank(body.instruction.s);
    if instruction == [] {
      return Reply(400, Error(InstructionRequired)), calls;
    }
    if config.gatewayToken == [] || config.adminUrl == [] || config.adminToken == [] {
      return Reply(500, Error(MissingEnv)), calls;
    }

    var prompt := Prompt(instruction);
    calls := [ToGateway(prompt)];
    var res := gateway(prompt);
    if res.GatewayUnreachable? {
      return Crash(res.message), calls;
    }
    if !IsOk(res.status) {
      return Reply(res.status, Error(if res.raw != [] then res.raw else GatewayError)), calls;
    }
    if res.content.None? {
      return Reply(502, Error(GatewayNotJson)), calls;
    }
    var patch := ExtractPatch(res.content.value);
    reply, calls := Land(calls[0], patch, CommitSubject(instruction), admin);
  }
}
