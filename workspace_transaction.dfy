/** `create_tag` and the `post_request_cvp` calls it makes: a tag is staged
    in a fresh workspace, the workspace is built, and after a fixed wait it is
    submitted. The four POSTs go out strictly in order, and the first one
    that fails ends the whole sequence. */
module WorkspaceTransaction {
  import opened Json
  import opened Http
  import opened Payloads

  /** Where the transaction's workspace stands, as far as the client knows. */
  datatype WorkspaceState = NoWorkspace | Unsubmitted | Building | Submitted | Failed

  /** The moves of the workspace state machine: created, built, submitted in
      that order, or failed from any state short of the end. */
  predicate Allowed(from: WorkspaceState, to: WorkspaceState)
  {
    match (from, to)
    case (NoWorkspace, Unsubmitted) => true
    case (Unsubmitted, Building) => true
    case (Building, Submitted) => true
    case (_, Failed) => from != Submitted && from != Failed
    case _ => false
  }

  /** One thing the client does on the way: send a request, or block. */
  datatype Step = Send(request: HttpRequest) | Sleep(seconds: nat)

  /** How `post_request_cvp` ends for a reply: a transport failure exits the
      process, a non-2xx status raises from `raise_for_status`, a body that
      is not JSON raises from `response.json()`, and otherwise the decoded
      body is returned. */
  function PostResult(reply: HttpReply, parse: string -> Option<Json>): (r: Outcome<Json>)
    ensures r.Exited? <==> reply.TransportFailure?
    ensures r.Returned? <==> reply.Reply? && IsSuccess(reply.status) && parse(reply.text).Some?
    ensures r.Returned? ==> Some(r.value) == parse(reply.text)
  {
    match reply
    case TransportFailure => Exited
    case Reply(status, text) =>
      if !IsSuccess(status) then Raised(HttpStatusError(status))
      else match parse(text)
        case Some(body) => Returned(body)
        case None => Raised(JsonDecodeError)
  }

  /** A step that stops the sequence: a POST that did not return. */
  predicate Fails(step: Step, network: HttpRequest -> HttpReply, parse: string -> Option<Json>)
  {
    step.Send? && !PostResult(network(step.request), parse).Returned?
  }

  /** The steps of `plan` actually taken: all of them up to and including the
      first failing POST. */
  function Performed(plan: seq<Step>, network: HttpRequest -> HttpReply, parse: string -> Option<Json>): seq<Step>
  {
    if plan == [] then []
    else if Fails(plan[0], network, parse) then [plan[0]]
    else [plan[0]] + Performed(plan[1..], network, parse)
  }

  /** The sequence is fail-fast: what is performed is a prefix of the plan in
      which nothing but possibly the last step failed, and it stops short of
      the plan only at a failure. */
  lemma {:induction false} PerformedFailFast(plan: seq<Step>, network: HttpRequest -> HttpReply, parse: string -> Option<Json>)
    ensures var p := Performed(plan, network, parse);
      && |p| <= |plan| && p == plan[..|p|]
      && (forall k :: 0 <= k < |p| - 1 ==> !Fails(p[k], network, parse))
      && (|p| < |plan| ==> p != [] && Fails(p[|p| - 1], network, parse))
  {
    if plan != [] && !Fails(plan[0], network, parse) {
      PerformedFailFast(plan[1..], network, parse);
    }
  }

  /** No step of the plan fails. */
  predicate AllSucceed(plan: seq<Step>, network: HttpRequest -> HttpReply, parse: string -> Option<Json>)
  {
    forall k :: 0 <= k < |plan| ==> !Fails(plan[k], network, parse)
  }

  /** When the k-th step is the first to fail, exactly the steps up to it are
      performed; when none fails, the whole plan is. */
  lemma {:induction false} PerformedUpTo(plan: seq<Step>, network: HttpRequest -> HttpReply, parse: string -> Option<Json>, k: nat)
    requires k <= |plan|
    requires forall i :: 0 <= i < k ==> !Fails(plan[i], network, parse)
    requires k < |plan| ==> Fails(plan[k], network, parse)
    ensures Performed(plan, network, parse) == if k < |plan| then plan[..k + 1] else plan
    ensures AllSucceed(plan, network, parse) <==> k == |plan|
  {
    if k > 0 {
      PerformedUpTo(plan[1..], network, parse, k - 1);
      if k < |plan| {
        assert plan[..k + 1] == [plan[0]] + plan[1..][..k];
      } else {
        assert plan == [plan[0]] + plan[1..];
      }
    } else if plan != [] {
      assert plan[..1] == [plan[0]];
    }
  }

  /** The POSTs of `create_tag`, in the order it sends them. */
  function CreateRequest(host: string, token: string, workspaceId: string): HttpRequest
  {
    Post(ControllerUrl(host, WorkspacePath), token, CreatePayload(workspaceId))
  }

  function TagRequest(host: string, token: string, workspaceId: string, tagName: string, tagValue: string): HttpRequest
  {
    Post(ControllerUrl(host, TagPath), token, TagPayload(workspaceId, tagName, tagValue))
  }

  function BuildRequest(host: string, token: string, workspaceId: string, buildId: string): HttpRequest
  {
    Post(ControllerUrl(host, WorkspacePath), token, BuildPayload(workspaceId, buildId))
  }

  function SubmitRequest(host: string, token: string, workspaceId: string, submitId: string): HttpRequest
  {
    Post(ControllerUrl(host, WorkspacePath), token, SubmitPayload(workspaceId, submitId))
  }

  /** The seconds `create_tag` waits for the build before submitting. */
  const BuildWait: nat := 10

  /** The steps of a transaction: create, tag, build, wait, submit. */
  function Plan(create: HttpRequest, tag: HttpRequest, build: HttpRequest, submit: HttpRequest): seq<Step>
  {
    [Send(create), Send(tag), Send(build), Sleep(BuildWait), Send(submit)]
  }

  /** The plan of `create_tag` for one workspace and its two correlation ids. */
  function TagPlan(host: string, token: string, workspaceId: string, tagName: string, tagValue: string,
                   buildId: string, submitId: string): seq<Step>
  {
    Plan(CreateRequest(host, token, workspaceId), TagRequest(host, token, workspaceId, tagName, tagValue),
         BuildRequest(host, token, workspaceId, buildId), SubmitRequest(host, token, workspaceId, submitId))
  }

  /** The steps a transaction takes: the create, the tag and the build POST
      in turn, stopping after the first of them that fails, and otherwise
      the wait and the submit. This is the closed form of the plan performed
      fail-fast, `Performed(Plan(...))`, as PlanRun proves. */
  function Run(create: HttpRequest, tag: HttpRequest, build: HttpRequest, submit: HttpRequest,
               network: HttpRequest -> HttpReply, parse: string -> Option<Json>): seq<Step>
  {
    if Fails(Send(create), network, parse) then [Send(create)]
    else if Fails(Send(tag), network, parse) then [Send(create), Send(tag)]
    else if Fails(Send(build), network, parse) then [Send(create), Send(tag), Send(build)]
    else Plan(create, tag, build, submit)
  }

  /** `t` extended by the steps of a transaction one at a time, as a session
      appends them to its trace. A proof device only: it is `t + Run(...)`
      (RunAfterRun) written with the appends in the order Transact makes
      them. */
  function RunAfter(t: seq<Step>, create: HttpRequest, tag: HttpRequest, build: HttpRequest, submit: HttpRequest,
                    network: HttpRequest -> HttpReply, parse: string -> Option<Json>): seq<Step>
  {
    var t1 := t + [Send(create)];
    if Fails(Send(create), network, parse) then t1 else
    var t2 := t1 + [Send(tag)];
    if Fails(Send(tag), network, parse) then t2 else
    var t3 := t2 + [Send(build)];
    if Fails(Send(build), network, parse) then t3 else
    t3 + [Sleep(BuildWait)] + [Send(submit)]
  }

  lemma RunAfterRun(t: seq<Step>, create: HttpRequest, tag: HttpRequest, build: HttpRequest, submit: HttpRequest,
                    network: HttpRequest -> HttpReply, parse: string -> Option<Json>)
    ensures RunAfter(t, create, tag, build, submit, network, parse) == t + Run(create, tag, build, submit, network, parse)
  {
  }

  /** How a transaction ends: the failure of the first POST that fails, or
      else the serialised response to the submit. */
  function RunResult(create: HttpRequest, tag: HttpRequest, build: HttpRequest, submit: HttpRequest,
                     network: HttpRequest -> HttpReply, parse: string -> Option<Json>, dump: Json -> string): Outcome<string>
  {
    var created := PostResult(network(create), parse);
    if !created.Returned? then created.Propagate() else
    var staged := PostResult(network(tag), parse);
    if !staged.Returned? then staged.Propagate() else
    var built := PostResult(network(build), parse);
    if !built.Returned? then built.Propagate() else
    var submitted := PostResult(network(submit), parse);
    if !submitted.Returned? then submitted.Propagate() else Returned(dump(submitted.value))
  }

  /** A transaction is its plan performed fail-fast, and it succeeds as a
      whole exactly when all four POSTs do. */
  lemma PlanRun(create: HttpRequest, tag: HttpRequest, build: HttpRequest, submit: HttpRequest,
                network: HttpRequest -> HttpReply, parse: string -> Option<Json>)
    ensures Performed(Plan(create, tag, build, submit), network, parse) == Run(create, tag, build, submit, network, parse)
    ensures AllSucceed(Plan(create, tag, build, submit), network, parse) <==>
      && !Fails(Send(create), network, parse) && !Fails(Send(tag), network, parse)
      && !Fails(Send(build), network, parse) && !Fails(Send(submit), network, parse)
  {
    var plan := Plan(create, tag, build, submit);
    assert !Fails(plan[3], network, parse);
    if Fails(plan[0], network, parse) {
      PerformedUpTo(plan, network, parse, 0);
      assert plan[..1] == [plan[0]];
    } else if Fails(plan[1], network, parse) {
      PerformedUpTo(plan, network, parse, 1);
      assert plan[..2] == [plan[0], plan[1]];
    } else if Fails(plan[2], network, parse) {
      PerformedUpTo(plan, network, parse, 2);
      assert plan[..3] == [plan[0], plan[1], plan[2]];
    } else if Fails(plan[4], network, parse) {
      PerformedUpTo(plan, network, parse, 4);
      assert plan[..5] == plan;
    } else {
      PerformedUpTo(plan, network, parse, 5);
    }
  }

  /** A transaction returns exactly when every step of its plan succeeds,
      and then returns the serialised submit response; otherwise it fails
      as the last step it performed failed. */
  lemma RunResultSpec(create: HttpRequest, tag: HttpRequest, build: HttpRequest, submit: HttpRequest,
                      network: HttpRequest -> HttpReply, parse: string -> Option<Json>, dump: Json -> string)
    ensures var r := RunResult(create, tag, build, submit, network, parse, dump);
      var p := Performed(Plan(create, tag, build, submit), network, parse);
      && (r.Returned? <==> AllSucceed(Plan(create, tag, build, submit), network, parse))
      && (r.Returned? ==>
            var submitted := PostResult(network(submit), parse);
            submitted.Returned? && r.value == dump(submitted.value))
      && (!r.Returned? ==>
            p != [] && Fails(p[|p| - 1], network, parse)
            && r == PostResult(network(p[|p| - 1].request), parse).Propagate())
  {
    PlanRun(create, tag, build, submit, network, parse);
  }

  /** A walk of the workspace state machine: it starts with no workspace
      and every move is an edge. */
  predicate Walk(h: seq<WorkspaceState>)
  {
    h != [] && h[0] == NoWorkspace && forall k :: 0 <= k < |h| - 1 ==> Allowed(h[k], h[k + 1])
  }

  /** The states the workspace of a transaction passes through, appended one
      at a time as a session records them: UNSUBMITTED once the create POST
      returns, BUILDING once the tag and build POSTs have, SUBMITTED once the
      submit POST has, and FAILED at the first POST that does not return. */
  function StatePath(create: HttpRequest, tag: HttpRequest, build: HttpRequest, submit: HttpRequest,
                     network: HttpRequest -> HttpReply, parse: string -> Option<Json>): seq<WorkspaceState>
  {
    var h1 := [NoWorkspace];
    if Fails(Send(create), network, parse) then h1 + [Failed] else
    var h2 := h1 + [Unsubmitted];
    if Fails(Send(tag), network, parse) || Fails(Send(build), network, parse) then h2 + [Failed] else
    var h3 := h2 + [Building];
    if Fails(Send(submit), network, parse) then h3 + [Failed] else h3 + [Submitted]
  }

  /** Every transaction walks the state machine along its edges and ends in
      SUBMITTED when it returns and in FAILED otherwise; it returns exactly
      when the workspace went the whole way NONE, UNSUBMITTED, BUILDING,
      SUBMITTED. */
  lemma StatePathWalk(create: HttpRequest, tag: HttpRequest, build: HttpRequest, submit: HttpRequest,
                      network: HttpRequest -> HttpReply, parse: string -> Option<Json>, dump: Json -> string)
    ensures var h, r := StatePath(create, tag, build, submit, network, parse),
                        RunResult(create, tag, build, submit, network, parse, dump);
      && Walk(h)
      && h[|h| - 1] == (if r.Returned? then Submitted else Failed)
      && (r.Returned? <==> h == [NoWorkspace, Unsubmitted, Building, Submitted])
  {
    var h := StatePath(create, tag, build, submit, network, parse);
    if Fails(Send(create), network, parse) {
      assert h == [NoWorkspace, Failed];
    } else if Fails(Send(tag), network, parse) || Fails(Send(build), network, parse) {
      assert h == [NoWorkspace, Unsubmitted, Failed];
    } else if Fails(Send(submit), network, parse) {
      assert h == [NoWorkspace, Unsubmitted, Building, Failed];
    } else {
      assert h == [NoWorkspace, Unsubmitted, Building, Submitted];
    }
  }

  /** The four POSTs of a transaction are four different requests: the tag
      goes to its own endpoint, and of the three workspace bodies only build
      and submit carry a request, each a different one. */
  lemma TagRequestsDistinct(host: string, token: string, workspaceId: string, tagName: string, tagValue: string,
                            buildId: string, submitId: string)
    ensures var create, tag, build, submit :=
      CreateRequest(host, token, workspaceId), TagRequest(host, token, workspaceId, tagName, tagValue),
      BuildRequest(host, token, workspaceId, buildId), SubmitRequest(host, token, workspaceId, submitId);
      && create != tag && create != build && create != submit
      && tag != build && tag != submit && build != submit
  {
    BuildAndSubmitDiffer(workspaceId, buildId, submitId);
    assert RequestStartBuild != RequestSubmit by {
      assert |RequestStartBuild| != |RequestSubmit|;
    }
    assert |ControllerUrl(host, TagPath)| != |ControllerUrl(host, WorkspacePath)|;
  }

  /** The submit request goes out only as the last step of the complete
      plan: after the create, tag and build POSTs have all succeeded and
      after the wait. If any earlier POST fails, nothing follows it. */
  lemma SubmitOnlyAfterBuild(host: string, token: string, workspaceId: string, tagName: string, tagValue: string,
                             buildId: string, submitId: string,
                             network: HttpRequest -> HttpReply, parse: string -> Option<Json>)
    ensures var plan := TagPlan(host, token, workspaceId, tagName, tagValue, buildId, submitId);
      var p := Performed(plan, network, parse);
      && (plan[4] in p <==> forall k :: 0 <= k < 4 ==> !Fails(plan[k], network, parse))
      && (forall k :: 0 <= k < 4 && Fails(plan[k], network, parse) ==> |p| <= k + 1)
  {
    var create, tag, build, submit :=
      CreateRequest(host, token, workspaceId), TagRequest(host, token, workspaceId, tagName, tagValue),
      BuildRequest(host, token, workspaceId, buildId), SubmitRequest(host, token, workspaceId, submitId);
    var plan := Plan(create, tag, build, submit);
    TagRequestsDistinct(host, token, workspaceId, tagName, tagValue, buildId, submitId);
    PlanRun(create, tag, build, submit, network, parse);
    assert plan[3] == Sleep(BuildWait) && !Fails(plan[3], network, parse);
    assert plan[0] == Send(create) && plan[1] == Send(tag) && plan[2] == Send(build) && plan[4] == Send(submit);
  }

  /** A client session of the controller: every step it takes, in order, and
      the state of the workspace of its latest transaction. */
  class Session {
    var trace: seq<Step>
    var state: WorkspaceState
    /** Every state the workspace of the latest transaction has been in. */
    ghost var history: seq<WorkspaceState>

    constructor ()
      ensures trace == [] && state == NoWorkspace && history == [NoWorkspace]
    {
      trace := [];
      state := NoWorkspace;
      history := [NoWorkspace];
    }

    /** `post_request_cvp`: send one POST and report how it ended. */
    method PostRequest(request: HttpRequest, network: HttpRequest -> HttpReply, parse: string -> Option<Json>)
      returns (out: Outcome<Json>)
      modifies this`trace
      ensures trace == old(trace) + [Send(request)]
      ensures out == PostResult(network(request), parse)
    {
      trace := trace + [Send(request)];
      out := PostResult(network(request), parse);
    }

    /** `time.sleep`: block, doing nothing else. */
    method Wait(seconds: nat)
      modifies this`trace
      ensures trace == old(trace) + [Sleep(seconds)]
    {
      trace := trace + [Sleep(seconds)];
    }

    /** The POST sequence of `create_tag`: send the four requests in order,
        waiting for the build before the submit, and stop at the first POST
        that fails. The workspace ends SUBMITTED when the transaction
        returns, FAILED otherwise, and `history` records the states it went
        through, which StatePathWalk shows to be a walk along the edges of
        the state machine. */
    method Transact(create: HttpRequest, tag: HttpRequest, build: HttpRequest, submit: HttpRequest,
                    network: HttpRequest -> HttpReply, parse: string -> Option<Json>, dump: Json -> string)
      returns (result: Outcome<string>)
      modifies this
      ensures trace == old(trace) + Run(create, tag, build, submit, network, parse)
      ensures result == RunResult(create, tag, build, submit, network, parse, dump)
      ensures state == if result.Returned? then Submitted else Failed
      ensures history == StatePath(create, tag, build, submit, network, parse)
    {
      // Every call works in a workspace of its own. The states it goes
      // through are collected in `h` and stored in `history` on the way out.
      state := NoWorkspace;
      ghost var h := [NoWorkspace];
      RunAfterRun(trace, create, tag, build, submit, network, parse);

      var created := PostRequest(create, network, parse);
      if !created.Returned? {
        state, history := Failed, h + [Failed];
        return created.Propagate();
      }
      state, h := Unsubmitted, h + [Unsubmitted];

      var staged := PostRequest(tag, network, parse);
      if !staged.Returned? {
        state, history := Failed, h + [Failed];
        return staged.Propagate();
      }

      var built := PostRequest(build, network, parse);
      if !built.Returned? {
        state, history := Failed, h + [Failed];
        return built.Propagate();
      }
      state, h := Building, h + [Building];

      Wait(BuildWait);

      var submitted := PostRequest(submit, network, parse);
      if !submitted.Returned? {
        state, history := Failed, h + [Failed];
        return submitted.Propagate();
      }
      state, h := Submitted, h + [Submitted];
      history := h;
      result := Returned(dump(submitted.value));
    }

    /** `create_tag`: the workspace id and the two correlation ids, drawn at
        random in the source, are parameters, as are the network, the JSON
        parser and the serialiser. It builds the four payloads for one
        workspace and runs them as a transaction: the session performs the
        plan up to its first failing POST; the call returns exactly when
        every POST succeeded, with the serialised submit response, and
        otherwise fails as the POST that stopped the sequence failed. */
    method CreateTag(host: string, token: string, tagName: string, tagValue: string,
                     workspaceId: string, buildId: string, submitId: string,
                     network: HttpRequest -> HttpReply, parse: string -> Option<Json>, dump: Json -> string)
      returns (result: Outcome<string>)
      modifies this
      ensures var plan := TagPlan(host, token, workspaceId, tagName, tagValue, buildId, submitId);
        && trace == old(trace) + Performed(plan, network, parse)
        && (result.Returned? <==> AllSucceed(plan, network, parse))
        && state == (if result.Returned? then Submitted else Failed)
      ensures result.Returned? ==>
        var submitted := PostResult(network(SubmitRequest(host, token, workspaceId, submitId)), parse);
        submitted.Returned? && result.value == dump(submitted.value)
      ensures !result.Returned? ==>
        var p := Performed(TagPlan(host, token, workspaceId, tagName, tagValue, buildId, submitId), network, parse);
        p != [] && Fails(p[|p| - 1], network, parse)
        && result == PostResult(network(p[|p| - 1].request), parse).Propagate()
      ensures history == StatePath(CreateRequest(host, token, workspaceId),
                                   TagRequest(host, token, workspaceId, tagName, tagValue),
                                   BuildRequest(host, token, workspaceId, buildId),
                                   SubmitRequest(host, token, workspaceId, submitId), network, parse)
      ensures Walk(history) && state == history[|history| - 1]
      ensures result.Returned? <==> history == [NoWorkspace, Unsubmitted, Building, Submitted]
    {
      var create := CreateRequest(host, token, workspaceId);
      var tag := TagRequest(host, token, workspaceId, tagName, tagValue);
      var build := BuildRequest(host, token, workspaceId, buildId);
      var submit := SubmitRequest(host, token, workspaceId, submitId);
      result := Transact(create, tag, build, submit, network, parse, dump);
      PlanRun(create, tag, build, submit, network, parse);
      RunResultSpec(create, tag, build, submit, network, parse, dump);
      StatePathWalk(create, tag, build, submit, network, parse, dump);
    }
  }
}
