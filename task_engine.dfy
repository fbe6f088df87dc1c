// The background task engine: tasks are created against an agent, run by a
// background runner that drives the agent's event stream, publish every
// event into a bounded replay buffer and into the queue of every live
// subscriber, may pause for a user reply, and can be cancelled or deleted.
//
// The asynchronous runtime is replaced by explicit operations. A runner is
// either scheduled (created, not yet started), waiting at the reply gate, or
// aborted (cancelled before its body ever ran). The agent's event stream is
// a function from the invocation to the sequence of steps it produces; a
// step is an event, a raised fault, or a cancellation observed while the
// runner awaited the stream. The durable task store is a map field.

module TaskEngine {
  import opened Text

  /** Replay buffer capacity per task. */
  const MaxBufferSize: nat := 100

  datatype Status = Pending | Running | Completed | Failed | Cancelled

  predicate IsFinal(s: Status)
  {
    s == Completed || s == Failed || s == Cancelled
  }

  datatype Event =
    | StatusEvent(status: Status)
    | SessionStart(sessionId: Option<string>)
    | AskUserQuestion
    | ResultEvent
    | ErrorEvent(error: Option<string>)
    | OtherEvent(kind: string)      // assistant text, tool use, ...: passed through untouched

  /** What a subscriber's live loop stops after. */
  predicate EndsStream(e: Event)
  {
    (e.StatusEvent? && IsFinal(e.status)) || e.ResultEvent? || e.ErrorEvent?
  }

  datatype Step = Yield(event: Event) | Raise(reason: string) | Interrupt

  datatype AgentConfig = AgentConfig(name: Option<string>, model: Option<string>)

  datatype Request = Request(
    agentId: string,
    message: Option<string>,
    content: Option<seq<Block>>,
    enableSkills: bool,
    enableMcp: bool,
    addDirs: Option<seq<string>>)

  /** The arguments of one call into the agent's conversation stream. */
  datatype Invocation = Invocation(
    agentId: string,
    message: Option<string>,
    content: Option<seq<Block>>,
    sessionId: Option<string>,
    enableSkills: bool,
    enableMcp: bool,
    addDirs: Option<seq<string>>)

  /** A queued user reply for a paused task. */
  datatype Reply = Reply(message: Option<string>, content: Option<seq<Block>>)

  datatype TaskRecord = TaskRecord(
    id: string,
    agentId: string,
    sessionId: Option<string>,
    status: Status,
    title: string,
    model: Option<string>,
    createdAt: string,
    startedAt: Option<string>,
    completedAt: Option<string>,
    error: Option<string>,
    workDir: Option<string>)

  // ---------------------------------------------------------------- titles

  /** The text of the first block typed "text" whose text is non-empty. */
  function FirstText(content: seq<Block>): (r: Option<string>)
    ensures r.Some? <==> exists i :: 0 <= i < |content| && IsTextBlock(content[i])
    ensures r.Some? ==> exists i :: 0 <= i < |content| && IsTextBlock(content[i])
                          && r.value == content[i].text.value
                          && forall j :: 0 <= j < i ==> !IsTextBlock(content[j])
    decreases |content|
  {
    if content == [] then None
    else if IsTextBlock(content[0]) then Some(content[0].text.value)
    else
      var r := FirstText(content[1..]);
      assert forall i :: 1 <= i < |content| ==> content[i] == content[1..][i - 1];
      r
  }

  predicate IsTextBlock(b: Block)
  {
    b.kind == Some("text") && Truthy(b.text)
  }

  function TitleBase(message: Option<string>, content: Option<seq<Block>>, agent: AgentConfig): string
  {
    if content.Some? && content.value != [] then
      match FirstText(content.value)
      case Some(t) => Prefix(t, 50)
      case None => "[Attachment message]"
    else if Truthy(message) then Prefix(message.value, 50)
    else "Task with " + (if agent.name.Some? then agent.name.value else "agent")
  }

  /** The task title: derived from the first text block, the message, or the agent; a message
      longer than 50 characters adds an ellipsis whichever of them the title came from. */
  function Title(message: Option<string>, content: Option<seq<Block>>, agent: AgentConfig): (t: string)
    ensures Truthy(message) && |message.value| > 50 ==> EndsWith(t, "...")
  {
    var base := TitleBase(message, content, agent);
    if Truthy(message) && |message.value| > 50 then base + "..." else base
  }

  /** A title taken from content or message is at most 50 characters plus the ellipsis. */
  lemma TitleLength(message: Option<string>, content: Option<seq<Block>>, agent: AgentConfig)
    requires (content.Some? && content.value != []) || Truthy(message)
    ensures |Title(message, content, agent)| <= 53
  {
  }

  /** Content wins over the message: the first non-empty text block, cut to 50 characters, with the
      ellipsis exactly when the message is longer than 50 characters. */
  lemma TitleFromContent(message: Option<string>, content: seq<Block>, agent: AgentConfig, i: nat)
    requires i < |content| && IsTextBlock(content[i])
    requires forall j :: 0 <= j < i ==> !IsTextBlock(content[j])
    ensures Title(message, Some(content), agent)
            == Prefix(content[i].text.value, 50) + (if Truthy(message) && |message.value| > 50 then "..." else "")
  {
    var r := FirstText(content);
    var k :| 0 <= k < |content| && IsTextBlock(content[k]) && r.value == content[k].text.value
             && forall j :: 0 <= j < k ==> !IsTextBlock(content[j]);
    assert k == i;
  }

  /** Content with no usable text block is titled as an attachment, with the message's ellipsis. */
  lemma TitleForAttachments(message: Option<string>, content: seq<Block>, agent: AgentConfig)
    requires content != []
    requires forall j :: 0 <= j < |content| ==> !IsTextBlock(content[j])
    ensures Title(message, Some(content), agent)
            == "[Attachment message]" + (if Truthy(message) && |message.value| > 50 then "..." else "")
  {
  }

  /** Without content the message titles the task: its first 50 characters, and the ellipsis
      exactly when something was cut. */
  lemma TitleFromMessage(message: string, content: Option<seq<Block>>, agent: AgentConfig)
    requires content.None? || content.value == []
    requires message != ""
    ensures Title(Some(message), content, agent)
            == if |message| > 50 then message[..50] + "..." else message
  {
  }

  /** With neither content nor a non-empty message the title names the agent, with no ellipsis. */
  lemma TitleFallback(message: Option<string>, content: Option<seq<Block>>, agent: AgentConfig)
    requires content.None? || content.value == []
    requires !Truthy(message)
    ensures Title(message, content, agent) ==
            "Task with " + (if agent.name.Some? then agent.name.value else "agent")
  {
  }

  // ---------------------------------------------------------------- records

  /** The record create_task stores: pending, nothing started, first extra dir as work dir. */
  function NewRecord(taskId: string, req: Request, agent: AgentConfig, now: string): (r: TaskRecord)
    ensures r.id == taskId && r.agentId == req.agentId && r.status == Pending
    ensures r.sessionId.None? && r.startedAt.None? && r.completedAt.None? && r.error.None?
    ensures r.model == agent.model && r.createdAt == now
    ensures r.title == Title(req.message, req.content, agent)
    ensures r.workDir.Some? <==> req.addDirs.Some? && req.addDirs.value != []
    ensures r.workDir.Some? ==> r.workDir.value == req.addDirs.value[0]
  {
    TaskRecord(taskId, req.agentId, None, Pending, Title(req.message, req.content, agent),
               agent.model, now, None, None, None,
               if req.addDirs.Some? && req.addDirs.value != [] then Some(req.addDirs.value[0]) else None)
  }

  /** A store update performed by the runner. */
  datatype Patch =
    | MarkRunning(startedAt: string)
    | SetSession(sessionId: Option<string>)
    | MarkFailed(failedAt: string, error: Option<string>)
    | MarkCompleted(completedAt: string)
    | MarkCancelled(cancelledAt: string)

  predicate IsFinalPatch(p: Patch)
  {
    p.MarkFailed? || p.MarkCompleted? || p.MarkCancelled?
  }

  function ApplyPatch(r: TaskRecord, p: Patch): (r': TaskRecord)
    ensures SameIdentity(r, r')
    ensures IsFinalPatch(p) ==> IsFinal(r'.status) && r'.completedAt.Some?
  {
    match p
    case MarkRunning(t) => r.(status := Running, startedAt := Some(t))
    case SetSession(s) => r.(sessionId := s)
    case MarkFailed(t, e) => r.(status := Failed, completedAt := Some(t), error := e)
    case MarkCompleted(t) => r.(status := Completed, completedAt := Some(t))
    case MarkCancelled(t) => r.(status := Cancelled, completedAt := Some(t))
  }

  /** The fields fixed at creation that no update touches. */
  predicate SameIdentity(a: TaskRecord, b: TaskRecord)
  {
    a.id == b.id && a.agentId == b.agentId && a.title == b.title && a.model == b.model
    && a.createdAt == b.createdAt && a.workDir == b.workDir
  }

  function ApplyAll(r: TaskRecord, ps: seq<Patch>): TaskRecord
    decreases |ps|
  {
    if ps == [] then r else ApplyAll(ApplyPatch(r, ps[0]), ps[1..])
  }

  lemma {:induction false} ApplyAllKeepsIdentity(r: TaskRecord, ps: seq<Patch>)
    ensures SameIdentity(r, ApplyAll(r, ps))
    decreases |ps|
  {
    if ps != [] {
      ApplyAllKeepsIdentity(ApplyPatch(r, ps[0]), ps[1..]);
    }
  }

  lemma {:induction false} ApplyAllConcat(r: TaskRecord, p: seq<Patch>, q: seq<Patch>)
    ensures ApplyAll(r, p + q) == ApplyAll(ApplyAll(r, p), q)
    decreases |p|
  {
    if p != [] {
      assert (p + q)[0] == p[0];
      assert (p + q)[1..] == p[1..] + q;
      ApplyAllConcat(ApplyPatch(r, p[0]), p[1..], q);
      assert ApplyAll(r, p + q) == ApplyAll(ApplyPatch(r, p[0]), p[1..] + q);
    } else {
      assert p + q == q;
    }
  }

  /** No update ever puts a task back to pending. */
  lemma {:induction false} ApplyAllNeverPending(r: TaskRecord, ps: seq<Patch>)
    requires r.status != Pending
    ensures ApplyAll(r, ps).status != Pending
    decreases |ps|
  {
    if ps != [] {
      ApplyAllNeverPending(ApplyPatch(r, ps[0]), ps[1..]);
    }
  }

  /** Status order: pending may become anything, running anything but pending, a final status nothing else. */
  predicate MayFollow(a: Status, b: Status)
  {
    a == b || a == Pending || (a == Running && b != Pending)
  }

  /** Every surviving record only moved forward and kept its identity. */
  ghost predicate Evolves(s0: map<string, TaskRecord>, s1: map<string, TaskRecord>)
  {
    forall t :: t in s0 && t in s1 ==> MayFollow(s0[t].status, s1[t].status) && SameIdentity(s0[t], s1[t])
  }

  function CountRunning(store: map<string, TaskRecord>): nat
  {
    |set t | t in store && store[t].status == Running|
  }

  /** Moving one running task to a final status lowers the running count by exactly one. */
  lemma CountRunningAfterFinish(store: map<string, TaskRecord>, t: string, p: Patch)
    requires t in store && store[t].status == Running && IsFinalPatch(p)
    ensures CountRunning(store[t := ApplyPatch(store[t], p)]) == CountRunning(store) - 1
  {
    var s' := store[t := ApplyPatch(store[t], p)];
    var a := set u | u in store && store[u].status == Running;
    var b := set u | u in s' && s'[u].status == Running;
    assert b == a - {t};
  }

  /** Starting a pending task raises the running count by exactly one. */
  lemma CountRunningAfterStart(store: map<string, TaskRecord>, t: string, now: string)
    requires t in store && store[t].status == Pending
    ensures CountRunning(store[t := ApplyPatch(store[t], MarkRunning(now))]) == CountRunning(store) + 1
  {
    var s' := store[t := ApplyPatch(store[t], MarkRunning(now))];
    var a := set u | u in store && store[u].status == Running;
    var b := set u | u in s' && s'[u].status == Running;
    assert b == a + {t};
  }

  // ---------------------------------------------------------------- replay buffer

  /** The last MaxBufferSize elements of a history. */
  function Window<T>(h: seq<T>): (w: seq<T>)
    ensures |w| <= MaxBufferSize
    ensures |w| == if |h| <= MaxBufferSize then |h| else MaxBufferSize
    ensures w == h[|h| - |w|..]
  {
    if |h| <= MaxBufferSize then h else h[|h| - MaxBufferSize..]
  }

  /** One buffer step of _emit_event: append, then drop the oldest when over capacity. */
  function Buffered<T>(b: seq<T>, e: T): seq<T>
  {
    var b' := b + [e];
    if |b'| > MaxBufferSize then b'[1..] else b'
  }

  /** Appending to the window of a history gives the window of the longer history. */
  lemma BufferedWindow<T>(h: seq<T>, e: T)
    ensures Buffered(Window(h), e) == Window(h + [e])
  {
    if |h| > MaxBufferSize {
      assert Window(h) + [e] == (h + [e])[|h| - MaxBufferSize..];
    }
  }

  /** The buffer after several events, one _emit_event at a time. */
  function BufferedAll<T>(b: seq<T>, es: seq<T>): seq<T>
    decreases |es|
  {
    if es == [] then b else BufferedAll(Buffered(b, es[0]), es[1..])
  }

  /** A buffer that holds the window of a history holds the window of the longer history. */
  lemma {:induction false} BufferedAllWindow<T>(h: seq<T>, es: seq<T>)
    ensures BufferedAll(Window(h), es) == Window(h + es)
    decreases |es|
  {
    if es == [] {
      assert h + es == h;
    } else {
      var h' := h + [es[0]];
      BufferedWindow(h, es[0]);
      BufferedAllWindow(h', es[1..]);
      ConsSplit(h, es);
    }
  }

  lemma ConsSplit<T>(h: seq<T>, es: seq<T>)
    requires es != []
    ensures h + [es[0]] + es[1..] == h + es
  {
    assert es == [es[0]] + es[1..];
  }

  lemma {:induction false} BufferedAllConcat<T>(b: seq<T>, x: seq<T>, y: seq<T>)
    ensures BufferedAll(b, x + y) == BufferedAll(BufferedAll(b, x), y)
    decreases |x|
  {
    if x == [] {
      assert x + y == y;
    } else {
      assert (x + y)[0] == x[0] && (x + y)[1..] == x[1..] + y;
      BufferedAllConcat(Buffered(b, x[0]), x[1..], y);
    }
  }

  // ---------------------------------------------------------------- runner behaviour

  /** What the runner does, in order: publish an event, update the store, call the agent. */
  datatype Action = Published(event: Event) | Persisted(patch: Patch) | Invoked(call: Invocation)

  function Events(acts: seq<Action>): (es: seq<Event>)
    ensures |es| <= |acts|
    decreases |acts|
  {
    if acts == [] then []
    else (if acts[0].Published? then [acts[0].event] else []) + Events(acts[1..])
  }

  function Patches(acts: seq<Action>): (ps: seq<Patch>)
    ensures |ps| <= |acts|
    decreases |acts|
  {
    if acts == [] then []
    else (if acts[0].Persisted? then [acts[0].patch] else []) + Patches(acts[1..])
  }

  lemma {:induction false} EventsConcat(a: seq<Action>, b: seq<Action>)
    ensures Events(a + b) == Events(a) + Events(b)
    decreases |a|
  {
    if a != [] {
      assert (a + b)[0] == a[0];
      assert (a + b)[1..] == a[1..] + b;
      EventsConcat(a[1..], b);
      var h := if a[0].Published? then [a[0].event] else [];
      assert h + (Events(a[1..]) + Events(b)) == (h + Events(a[1..])) + Events(b);
    } else {
      assert a + b == b;
    }
  }

  lemma {:induction false} PatchesConcat(a: seq<Action>, b: seq<Action>)
    ensures Patches(a + b) == Patches(a) + Patches(b)
    decreases |a|
  {
    if a != [] {
      assert (a + b)[0] == a[0];
      assert (a + b)[1..] == a[1..] + b;
      PatchesConcat(a[1..], b);
      var h := if a[0].Persisted? then [a[0].patch] else [];
      assert h + (Patches(a[1..]) + Patches(b)) == (h + Patches(a[1..])) + Patches(b);
    } else {
      assert a + b == b;
    }
  }

  /** The first run captures the session and pauses on a question; a resumed run does neither. */
  datatype Mode = Starting | Resuming

  /** State the runner carries across events: the captured session and the ask flag. */
  datatype Carry = Carry(sessionId: Option<string>, asked: bool)

  datatype RunEnd = Drained | Paused | Concluded | Faulted(reason: string) | Interrupted

  datatype StepResult = StepResult(actions: seq<Action>, stop: Option<RunEnd>, carry: Carry)

  datatype Trace = Trace(actions: seq<Action>, end: RunEnd, carry: Carry)

  /** The runner's reaction to one step of the agent stream. */
  function Process(mode: Mode, s: Step, c: Carry, now: string): StepResult
  {
    match s
    case Raise(r) => StepResult([], Some(Faulted(r)), c)
    case Interrupt => StepResult([], Some(Interrupted), c)
    case Yield(e) =>
      var capture := mode == Starting && e.SessionStart?;
      var c' := if capture then c.(sessionId := e.sessionId) else c;
      var pre := (if capture then [Persisted(SetSession(e.sessionId))] else []) + [Published(e)];
      if e.ErrorEvent? then StepResult(pre + [Persisted(MarkFailed(now, e.error))], Some(Concluded), c')
      else if e.ResultEvent? then StepResult(pre + [Persisted(MarkCompleted(now))], Some(Concluded), c')
      else if e.AskUserQuestion? && mode == Starting then StepResult(pre, Some(Paused), c')
      else if e.AskUserQuestion? then StepResult(pre, None, c'.(asked := true))
      else StepResult(pre, None, c')
  }

  /** Driving the agent stream until it stops the runner or runs dry. */
  function Run(mode: Mode, steps: seq<Step>, c: Carry, now: string): Trace
    decreases |steps|
  {
    if steps == [] then Trace([], Drained, c)
    else
      var r := Process(mode, steps[0], c, now);
      if r.stop.Some? then Trace(r.actions, r.stop.value, r.carry)
      else
        var t := Run(mode, steps[1..], r.carry, now);
        Trace(r.actions + t.actions, t.end, t.carry)
  }

  function Prepend(a: seq<Action>, t: Trace): Trace
  {
    Trace(a + t.actions, t.end, t.carry)
  }

  lemma RunAt(mode: Mode, steps: seq<Step>, i: nat, c: Carry, now: string)
    requires i < |steps|
    ensures var r := Process(mode, steps[i], c, now);
            Run(mode, steps[i..], c, now)
            == if r.stop.Some? then Trace(r.actions, r.stop.value, r.carry)
               else Prepend(r.actions, Run(mode, steps[i + 1..], r.carry, now))
  {
    assert steps[i..][0] == steps[i];
    assert steps[i..][1..] == steps[i + 1..];
  }

  lemma PrependPrepend(a: seq<Action>, b: seq<Action>, t: Trace)
    ensures Prepend(a, Prepend(b, t)) == Prepend(a + b, t)
  {
    assert a + (b + t.actions) == (a + b) + t.actions;
  }

  /** The arguments of the first call: a new conversation with the request's extra dirs. */
  function FirstCall(req: Request): (c: Invocation)
    ensures c.sessionId.None? && c.addDirs == req.addDirs
  {
    Invocation(req.agentId, req.message, req.content, None, req.enableSkills, req.enableMcp, req.addDirs)
  }

  /** Where a paused runner waits: the session it resumes and the flags it keeps. */
  datatype Parked = Parked(sessionId: Option<string>, enableSkills: bool, enableMcp: bool)

  /** The arguments of a resumed call: the parked session and the stored work dir. */
  function ResumeCall(rec: TaskRecord, r: Reply, p: Parked): (c: Invocation)
    ensures c.sessionId == p.sessionId && c.agentId == rec.agentId
    ensures c.addDirs.Some? <==> Truthy(rec.workDir)
    ensures c.addDirs.Some? ==> c.addDirs.value == [rec.workDir.value]
  {
    Invocation(rec.agentId, r.message, r.content, p.sessionId, p.enableSkills, p.enableMcp,
               if Truthy(rec.workDir) then Some([rec.workDir.value]) else None)
  }

  datatype PendingEnd = Returned | Blocked | Raised(reason: string) | CancelRaised

  datatype PendingTrace = PendingTrace(actions: seq<Action>, end: PendingEnd, consumed: nat)

  /** One pass of the reply loop: resume with the reply; None means it asked again. */
  datatype Served = Served(actions: seq<Action>, end: Option<PendingEnd>)

  function ServeOne(rec: TaskRecord, r: Reply, p: Parked, gen: Invocation -> seq<Step>, now: string): (sv: Served)
    ensures sv.end != Some(Blocked)
  {
    var call := ResumeCall(rec, r, p);
    var t := Run(Resuming, gen(call), Carry(p.sessionId, false), now);
    var acts := [Invoked(call)] + t.actions;
    if t.end.Faulted? then Served(acts, Some(Raised(t.end.reason)))
    else if t.end.Interrupted? then Served(acts, Some(CancelRaised))
    else if t.end.Drained? && t.carry.asked then Served(acts, None)
    else Served(acts, Some(Returned))
  }

  /** Only the identity fields of the record matter to a resumed pass. */
  lemma ServeOneIdentity(r1: TaskRecord, r2: TaskRecord, r: Reply, p: Parked,
                         gen: Invocation -> seq<Step>, now: string)
    requires SameIdentity(r1, r2)
    ensures ServeOne(r1, r, p, gen, now) == ServeOne(r2, r, p, gen, now)
  {
    assert ResumeCall(r1, r, p) == ResumeCall(r2, r, p);
  }

  /** What serving each queued reply would yield, in queue order. */
  function Outcomes(rec: TaskRecord, inbox: seq<Reply>, p: Parked, gen: Invocation -> seq<Step>,
                    now: string): (svs: seq<Served>)
    ensures |svs| == |inbox|
    decreases |inbox|
  {
    if inbox == [] then [] else [ServeOne(rec, inbox[0], p, gen, now)] + Outcomes(rec, inbox[1..], p, gen, now)
  }

  lemma {:induction false} OutcomeAt(rec: TaskRecord, inbox: seq<Reply>, p: Parked, gen: Invocation -> seq<Step>,
                                     now: string, i: nat)
    requires i < |inbox|
    ensures Outcomes(rec, inbox, p, gen, now)[i] == ServeOne(rec, inbox[i], p, gen, now)
    decreases i
  {
    if i > 0 {
      OutcomeAt(rec, inbox[1..], p, gen, now, i - 1);
    }
  }

  predicate NeverBlocked(svs: seq<Served>)
  {
    forall i :: 0 <= i < |svs| ==> svs[i].end != Some(Blocked)
  }

  /** No single reply leaves the loop blocked: a pass either asks again or stops it. */
  lemma OutcomesNeverBlocked(rec: TaskRecord, inbox: seq<Reply>, p: Parked, gen: Invocation -> seq<Step>,
                             now: string)
    ensures NeverBlocked(Outcomes(rec, inbox, p, gen, now))
  {
    var svs := Outcomes(rec, inbox, p, gen, now);
    forall i | 0 <= i < |svs| ensures svs[i].end != Some(Blocked) {
      OutcomeAt(rec, inbox, p, gen, now, i);
    }
  }

  /** Serve replies in order until one does not ask again; Blocked when they run out. */
  function Fold(svs: seq<Served>): (pt: PendingTrace)
    ensures pt.consumed <= |svs|
    decreases |svs|
  {
    if svs == [] then PendingTrace([], Blocked, 0)
    else if svs[0].end.None? then PendingPrepend(svs[0].actions, 1, Fold(svs[1..]))
    else PendingTrace(svs[0].actions, svs[0].end.value, 1)
  }

  /** The reply loop: take a reply, resume the conversation, stop unless it asked again
      (a task that vanished from the store makes it return at the first reply). */
  function PendingLoop(inbox: seq<Reply>, rec: Option<TaskRecord>, p: Parked,
                       gen: Invocation -> seq<Step>, now: string): (pt: PendingTrace)
    ensures pt.consumed <= |inbox|
  {
    if inbox == [] then PendingTrace([], Blocked, 0)
    else if rec.None? then PendingTrace([], Returned, 1)
    else Fold(Outcomes(rec.value, inbox, p, gen, now))
  }

  lemma {:induction false} FoldBlockedTakesAll(svs: seq<Served>)
    requires NeverBlocked(svs)
    ensures Fold(svs).end == Blocked ==> Fold(svs).consumed == |svs|
    decreases |svs|
  {
    if svs != [] {
      assert svs[0].end != Some(Blocked);
      FoldBlockedTakesAll(svs[1..]);
    }
  }

  /** A runner left waiting has taken every reply that was queued. */
  lemma WaitingTakesAllReplies(inbox: seq<Reply>, rec: Option<TaskRecord>, p: Parked,
                               gen: Invocation -> seq<Step>, now: string)
    ensures var pt := PendingLoop(inbox, rec, p, gen, now);
            pt.end == Blocked ==> pt.consumed == |inbox|
  {
    if inbox != [] && rec.Some? {
      OutcomesNeverBlocked(rec.value, inbox, p, gen, now);
      FoldBlockedTakesAll(Outcomes(rec.value, inbox, p, gen, now));
    }
  }

  function PendingPrepend(a: seq<Action>, n: nat, pt: PendingTrace): PendingTrace
  {
    PendingTrace(a + pt.actions, pt.end, n + pt.consumed)
  }

  lemma FoldAt(svs: seq<Served>, k: nat)
    requires k < |svs|
    ensures Fold(svs[k..]) == if svs[k].end.None? then PendingPrepend(svs[k].actions, 1, Fold(svs[k + 1..]))
                              else PendingTrace(svs[k].actions, svs[k].end.value, 1)
  {
    assert svs[k..][0] == svs[k];
    assert svs[k..][1..] == svs[k + 1..];
  }

  /** The reply loop depends on the stored record only through its identity. */
  lemma PendingLoopIdentity(inbox: seq<Reply>, r1: TaskRecord, r2: TaskRecord, p: Parked,
                            gen: Invocation -> seq<Step>, now: string)
    requires SameIdentity(r1, r2)
    ensures PendingLoop(inbox, Some(r1), p, gen, now) == PendingLoop(inbox, Some(r2), p, gen, now)
  {
    var a, b := Outcomes(r1, inbox, p, gen, now), Outcomes(r2, inbox, p, gen, now);
    forall i | 0 <= i < |inbox| ensures a[i] == b[i] {
      OutcomeAt(r1, inbox, p, gen, now, i);
      OutcomeAt(r2, inbox, p, gen, now, i);
      ServeOneIdentity(r1, r2, inbox[i], p, gen, now);
    }
    assert a == b;
  }

  lemma PendingPrependTwice(a: seq<Action>, n: nat, b: seq<Action>, m: nat, pt: PendingTrace)
    ensures PendingPrepend(a, n, PendingPrepend(b, m, pt)) == PendingPrepend(a + b, n + m, pt)
  {
    assert a + (b + pt.actions) == (a + b) + pt.actions;
  }

  /** The runner's exception handlers: a fault fails the task, a cancellation cancels it. */
  function Settle(end: PendingEnd, now: string): seq<Action>
  {
    match end
    case Raised(r) => [Persisted(MarkFailed(now, Some(r))), Published(ErrorEvent(Some(r)))]
    case CancelRaised => [Persisted(MarkCancelled(now)), Published(StatusEvent(Cancelled))]
    case _ => []
  }

  /** One activation of the runner: what it did, whether it is left waiting, replies taken. */
  datatype Activation = Activation(actions: seq<Action>, waiting: Option<Parked>, consumed: nat)

  /** Waiting for replies after a question (nothing to wait on without a reply queue). */
  function Interaction(inbox: Option<seq<Reply>>, rec: Option<TaskRecord>, p: Parked,
                       gen: Invocation -> seq<Step>, now: string): Activation
  {
    if inbox.None? then Activation([], None, 0)
    else
      var pt := PendingLoop(inbox.value, rec, p, gen, now);
      Activation(pt.actions + Settle(pt.end, now), if pt.end == Blocked then Some(p) else None, pt.consumed)
  }

  function EndAsPending(e: RunEnd): PendingEnd
  {
    match e
    case Faulted(r) => Raised(r)
    case Interrupted => CancelRaised
    case _ => Returned
  }

  /** The first activation of a scheduled runner. */
  function FirstActivation(req: Request, inbox: Option<seq<Reply>>, rec: Option<TaskRecord>,
                           gen: Invocation -> seq<Step>, now: string): Activation
  {
    var call := FirstCall(req);
    var t := Run(Starting, gen(call), Carry(None, false), now);
    var head := [Persisted(MarkRunning(now)), Published(StatusEvent(Running)), Invoked(call)] + t.actions;
    if t.end == Paused then
      var a := Interaction(inbox, rec, Parked(t.carry.sessionId, req.enableSkills, req.enableMcp), gen, now);
      Activation(head + a.actions, a.waiting, a.consumed)
    else Activation(head + Settle(EndAsPending(t.end), now), None, 0)
  }

  // ---------------------------------------------------------------- subscribers

  datatype Subscriber = Subscriber(id: nat, pending: seq<Event>)

  /** Every subscriber queue receives the events, in order. */
  function DeliverAll(subs: seq<Subscriber>, es: seq<Event>): (r: seq<Subscriber>)
    ensures |r| == |subs|
    ensures forall i :: 0 <= i < |subs| ==> r[i] == Subscriber(subs[i].id, subs[i].pending + es)
  {
    seq(|subs|, i requires 0 <= i < |subs| => Subscriber(subs[i].id, subs[i].pending + es))
  }

  lemma DeliverAllConcat(subs: seq<Subscriber>, a: seq<Event>, b: seq<Event>)
    ensures DeliverAll(DeliverAll(subs, a), b) == DeliverAll(subs, a + b)
  {
    var l, r := DeliverAll(DeliverAll(subs, a), b), DeliverAll(subs, a + b);
    forall i | 0 <= i < |subs| ensures l[i] == r[i] {
      assert subs[i].pending + a + b == subs[i].pending + (a + b);
    }
  }

  /** The index of the first queue with the given identity. */
  function FindQueue(subs: seq<Subscriber>, q: nat): (k: Option<nat>)
    ensures k.Some? ==> k.value < |subs| && subs[k.value].id == q
    ensures k.Some? ==> forall j :: 0 <= j < k.value ==> subs[j].id != q
    ensures k.None? ==> forall j :: 0 <= j < |subs| ==> subs[j].id != q
    decreases |subs|
  {
    if subs == [] then None
    else if subs[0].id == q then Some(0)
    else
      match FindQueue(subs[1..], q)
      case None => None
      case Some(k) => Some(k + 1)
  }

  /** The queues a subscriber list holds, by identity, as its subscribers keep holding them once the
      list itself is dropped; the first queue of an identity is the one FindQueue picks. */
  function Detach(subs: seq<Subscriber>): (m: map<nat, seq<Event>>)
    ensures forall q :: q in m <==> FindQueue(subs, q).Some?
    ensures forall q :: q in m ==> m[q] == subs[FindQueue(subs, q).value].pending
    decreases |subs|
  {
    if subs == [] then map[] else Detach(subs[1..])[subs[0].id := subs[0].pending]
  }

  /** Delivering events keeps every queue's identity and position. */
  lemma FindQueueDelivered(subs: seq<Subscriber>, es: seq<Event>, q: nat)
    ensures FindQueue(DeliverAll(subs, es), q) == FindQueue(subs, q)
  {
  }

  /** What the live loop yields from a queue: everything up to and including the first end event. */
  function LiveTake(pending: seq<Event>): (r: (seq<Event>, bool))
    ensures |r.0| <= |pending|
    decreases |pending|
  {
    if pending == [] then ([], false)
    else if EndsStream(pending[0]) then ([pending[0]], true)
    else
      var rest := LiveTake(pending[1..]);
      ([pending[0]] + rest.0, rest.1)
  }

  /** The live loop stops exactly at the first end event and yields nothing after it. */
  lemma {:induction false} LiveTakeStopsAtFirstEnd(pending: seq<Event>)
    ensures LiveTake(pending).0 <= pending
    ensures LiveTake(pending).1 <==> exists i :: 0 <= i < |pending| && EndsStream(pending[i])
    ensures var (got, done) := LiveTake(pending);
            (done ==> got != [] && EndsStream(got[|got| - 1]))
            && (forall i :: 0 <= i < |got| - 1 ==> !EndsStream(got[i]))
            && (!done ==> got == pending)
    decreases |pending|
  {
    if pending != [] && !EndsStream(pending[0]) {
      LiveTakeStopsAtFirstEnd(pending[1..]);
      var rest := LiveTake(pending[1..]);
      if rest.1 {
        var i :| 0 <= i < |pending[1..]| && EndsStream(pending[1..][i]);
        assert EndsStream(pending[i + 1]);
      }
      if exists i :: 0 <= i < |pending| && EndsStream(pending[i]) {
        var i :| 0 <= i < |pending| && EndsStream(pending[i]);
        assert EndsStream(pending[1..][i - 1]);
      }
      var got := [pending[0]] + rest.0;
      forall i | 0 <= i < |got| - 1 ensures !EndsStream(got[i]) {
        if i > 0 { assert got[i] == rest.0[i - 1]; }
      }
    }
  }

  // ---------------------------------------------------------------- the manager

  /** Where a task's runner is suspended, if it exists. */
  datatype Runner = Scheduled(request: Request) | AwaitingReply(parked: Parked) | Aborted

  /** The observable state the runner's actions affect. */
  datatype Snap = Snap(
    journal: map<string, seq<Action>>,
    store: map<string, TaskRecord>,
    subscribers: map<string, seq<Subscriber>>,
    buffers: map<string, seq<Event>>)

  /** The state after task `id` performed the actions. */
  ghost function Effect(s: Snap, id: string, acts: seq<Action>): Snap
    requires id in s.journal
  {
    Snap(s.journal[id := s.journal[id] + acts],
         Patched(s.store, id, Patches(acts)),
         if id in s.subscribers then s.subscribers[id := DeliverAll(s.subscribers[id], Events(acts))]
         else s.subscribers,
         if id in s.buffers then s.buffers[id := BufferedAll(s.buffers[id], Events(acts))] else s.buffers)
  }

  /** The store after the runner of `id` applied its updates (none without a record). */
  function Patched(store: map<string, TaskRecord>, id: string, ps: seq<Patch>): map<string, TaskRecord>
  {
    if id in store then store[id := ApplyAll(store[id], ps)] else store
  }

  /** Outside task `id`, the runner's actions change nothing. */
  lemma DropAfterEffect(s: Snap, id: string, acts: seq<Action>)
    requires id in s.journal
    ensures var s' := Effect(s, id, acts);
            s'.store - {id} == s.store - {id} && s'.subscribers - {id} == s.subscribers - {id}
            && s'.buffers - {id} == s.buffers - {id} && (id in s'.store <==> id in s.store)
  {
    var s' := Effect(s, id, acts);
    assert s'.store - {id} == s.store - {id};
    assert s'.subscribers - {id} == s.subscribers - {id};
    assert s'.buffers - {id} == s.buffers - {id};
  }

  lemma MapUpdateTwice<K, V>(m: map<K, V>, k: K, v1: V, v2: V)
    ensures m[k := v1][k := v2] == m[k := v2]
  {
  }

  lemma EffectConcat(s: Snap, id: string, a: seq<Action>, b: seq<Action>)
    requires id in s.journal
    ensures id in Effect(s, id, a).journal
    ensures Effect(Effect(s, id, a), id, b) == Effect(s, id, a + b)
  {
    var e1 := Effect(s, id, a);
    var e2 := Effect(e1, id, b);
    var e := Effect(s, id, a + b);
    assert s.journal[id] + a + b == s.journal[id] + (a + b);
    MapUpdateTwice(s.journal, id, s.journal[id] + a, s.journal[id] + (a + b));
    assert e2.journal == e.journal;
    if id in s.store {
      PatchesConcat(a, b);
      ApplyAllConcat(s.store[id], Patches(a), Patches(b));
      MapUpdateTwice(s.store, id, ApplyAll(s.store[id], Patches(a)), ApplyAll(s.store[id], Patches(a + b)));
    }
    assert e2.store == e.store;
    if id in s.subscribers {
      EventsConcat(a, b);
      DeliverAllConcat(s.subscribers[id], Events(a), Events(b));
      MapUpdateTwice(s.subscribers, id, DeliverAll(s.subscribers[id], Events(a)),
                     DeliverAll(s.subscribers[id], Events(a + b)));
    }
    assert e2.subscribers == e.subscribers;
    if id in s.buffers {
      EventsConcat(a, b);
      BufferedAllConcat(s.buffers[id], Events(a), Events(b));
      MapUpdateTwice(s.buffers, id, BufferedAll(s.buffers[id], Events(a)),
                     BufferedAll(s.buffers[id], Events(a + b)));
    }
    assert e2.buffers == e.buffers;
  }

  lemma MapUpdateSame<K, V>(m: map<K, V>, k: K)
    requires k in m
    ensures m[k := m[k]] == m
  {
  }

  /** A store update touches the journal and that task's record only. */
  lemma EffectOfPersist(s: Snap, id: string, p: Patch)
    requires id in s.journal
    ensures Effect(s, id, [Persisted(p)])
         == Snap(s.journal[id := s.journal[id] + [Persisted(p)]],
                 if id in s.store then s.store[id := ApplyPatch(s.store[id], p)] else s.store,
                 s.subscribers, s.buffers)
  {
    assert Events([Persisted(p)]) == [];
    assert Patches([Persisted(p)]) == [p];
    if id in s.store {
      assert ApplyAll(s.store[id], [p]) == ApplyAll(ApplyPatch(s.store[id], p), []);
    }
    if id in s.subscribers {
      DeliverNothing(s.subscribers[id]);
      MapUpdateSame(s.subscribers, id);
    }
    if id in s.buffers {
      MapUpdateSame(s.buffers, id);
    }
  }

  /** A call into the agent is recorded and changes nothing else. */
  lemma EffectOfInvoke(s: Snap, id: string, c: Invocation)
    requires id in s.journal
    ensures Effect(s, id, [Invoked(c)])
         == Snap(s.journal[id := s.journal[id] + [Invoked(c)]], s.store, s.subscribers, s.buffers)
  {
    assert Events([Invoked(c)]) == [];
    assert Patches([Invoked(c)]) == [];
    if id in s.store {
      MapUpdateSame(s.store, id);
    }
    if id in s.subscribers {
      DeliverNothing(s.subscribers[id]);
      MapUpdateSame(s.subscribers, id);
    }
    if id in s.buffers {
      MapUpdateSame(s.buffers, id);
    }
  }

  /** Publishing reaches every subscriber of the task and leaves the store alone. */
  lemma EffectOfPublish(s: Snap, id: string, e: Event)
    requires id in s.journal
    ensures Effect(s, id, [Published(e)])
         == Snap(s.journal[id := s.journal[id] + [Published(e)]], s.store,
                 if id in s.subscribers then s.subscribers[id := DeliverAll(s.subscribers[id], [e])]
                 else s.subscribers,
                 if id in s.buffers then s.buffers[id := Buffered(s.buffers[id], e)] else s.buffers)
  {
    assert Events([Published(e)]) == [e];
    assert Patches([Published(e)]) == [];
    if id in s.buffers {
      assert [e][1..] == [];
      assert BufferedAll(s.buffers[id], [e]) == BufferedAll(Buffered(s.buffers[id], e), []);
    }
    if id in s.store {
      MapUpdateSame(s.store, id);
    }
  }

  /** Doing nothing changes nothing. */
  lemma EffectNothing(s: Snap, id: string)
    requires id in s.journal
    ensures Effect(s, id, []) == s
  {
    assert Events([]) == [] && Patches([]) == [];
    assert s.journal[id] + [] == s.journal[id];
    if id in s.subscribers {
      DeliverNothing(s.subscribers[id]);
    }
  }

  lemma DeliverNothing(subs: seq<Subscriber>)
    ensures DeliverAll(subs, []) == subs
  {
    var r := DeliverAll(subs, []);
    forall i | 0 <= i < |subs| ensures r[i] == subs[i] {
      assert subs[i].pending + [] == subs[i].pending;
    }
  }

  /** Each replay buffer is the window of the events its task published. */
  ghost predicate WindowsMatch(buffers: map<string, seq<Event>>, journal: map<string, seq<Action>>)
  {
    buffers.Keys <= journal.Keys
    && forall t {:trigger Window(Events(journal[t]))} :: t in buffers ==> buffers[t] == Window(Events(journal[t]))
  }

  /** The runner's actions keep every buffer the window of its task's events. */
  lemma EffectKeepsWindows(s: Snap, id: string, acts: seq<Action>)
    requires WindowsMatch(s.buffers, s.journal) && id in s.journal
    ensures WindowsMatch(Effect(s, id, acts).buffers, Effect(s, id, acts).journal)
  {
    var s' := Effect(s, id, acts);
    forall t | t in s'.buffers ensures t in s'.journal && s'.buffers[t] == Window(Events(s'.journal[t])) {
      assert t in s.journal && s.buffers[t] == Window(Events(s.journal[t]));
      if t == id {
        EventsConcat(s.journal[id], acts);
        BufferedAllWindow(Events(s.journal[id]), Events(acts));
      }
    }
  }

  /** A new task starts with an empty buffer and an empty history. */
  lemma NewTaskKeepsWindows(b: map<string, seq<Event>>, j: map<string, seq<Action>>, id: string)
    requires WindowsMatch(b, j)
    ensures WindowsMatch(b[id := []], j[id := []])
  {
    var b', j' := b[id := []], j[id := []];
    forall t | t in b' ensures t in j' && b'[t] == Window(Events(j'[t])) {
      if t != id {
        assert t in j && b[t] == Window(Events(j[t]));
      }
    }
  }

  ghost predicate IdsBelow(subscribers: map<string, seq<Subscriber>>, next: nat)
  {
    forall t, i :: t in subscribers && 0 <= i < |subscribers[t]| ==> subscribers[t][i].id < next
  }

  ghost predicate KeysBelow(detached: map<nat, seq<Event>>, next: nat)
  {
    forall q :: q in detached ==> q < next
  }

  lemma EffectKeepsIds(s: Snap, id: string, acts: seq<Action>, next: nat)
    requires IdsBelow(s.subscribers, next) && id in s.journal
    ensures IdsBelow(Effect(s, id, acts).subscribers, next)
  {
  }

  /** The live loop, unfolded at position i. */
  lemma LiveTakeAt(pending: seq<Event>, i: nat)
    requires i < |pending|
    ensures LiveTake(pending[i..])
            == if EndsStream(pending[i]) then ([pending[i]], true)
               else ([pending[i]] + LiveTake(pending[i + 1..]).0, LiveTake(pending[i + 1..]).1)
  {
    assert pending[i..][0] == pending[i];
    assert pending[i..][1..] == pending[i + 1..];
  }

  /** The manager's tables, keyed by task id, and the task store. */
  datatype Tables = Tables(
    running: map<string, Runner>,                 // runner handles
    buffers: map<string, seq<Event>>,             // replay buffers
    subscribers: map<string, seq<Subscriber>>,    // live subscriber queues, in registration order
    queues: map<string, seq<Reply>>,              // reply queues
    store: map<string, TaskRecord>,               // the durable task store
    detached: map<nat, seq<Event>>,               // queues of deleted tasks, still held by their subscribers
    nextQueue: nat)                               // identity of the next subscriber queue

  /** A runner handle exists only for a created task; its stored status matches where it waits,
      and a runner waiting for a reply has a reply queue. */
  ghost predicate HandlesMatch(t: Tables, journal: map<string, seq<Action>>)
  {
    t.running.Keys <= journal.Keys
    && (forall id :: id in t.running && id in t.store ==>
          t.store[id].status == (if t.running[id].AwaitingReply? then Running else Pending))
    && (forall id :: id in t.running && t.running[id].AwaitingReply? ==> id in t.queues)
  }

  /** What the runner's actions touch. */
  ghost function SnapOf(t: Tables, journal: map<string, seq<Action>>): Snap
  {
    Snap(journal, t.store, t.subscribers, t.buffers)
  }

  /** The manager's invariant: every replay buffer holds exactly the last MaxBufferSize events its
      task published, the handles agree with the store, and subscriber queue identities are fresh. */
  ghost predicate ValidTables(t: Tables, journal: map<string, seq<Action>>)
  {
    WindowsMatch(t.buffers, journal) && HandlesMatch(t, journal) && IdsBelow(t.subscribers, t.nextQueue)
    && KeysBelow(t.detached, t.nextQueue)
  }

  /** The handle of `id` agrees with its stored status and has a reply queue when it waits. */
  ghost predicate HandleFits(t: Tables, id: string)
    requires id in t.running
  {
    (t.running[id].AwaitingReply? ==> id in t.queues)
    && (id in t.store ==> t.store[id].status == (if t.running[id].AwaitingReply? then Running else Pending))
  }

  /** The runner of `id` acting, then its handle being kept, replaced or dropped, keeps the invariant. */
  lemma RunKeepsValid(t0: Tables, j0: map<string, seq<Action>>, t1: Tables, j1: map<string, seq<Action>>,
                      id: string, acts: seq<Action>, r: Option<Runner>)
    requires ValidTables(t0, j0) && id in j0
    requires SnapOf(t1, j1) == Effect(SnapOf(t0, j0), id, acts)
    requires t1.nextQueue == t0.nextQueue && t1.detached == t0.detached && t0.queues.Keys <= t1.queues.Keys
    requires t1.running == if r.Some? then t0.running[id := r.value] else t0.running - {id}
    requires r.Some? ==> HandleFits(t1, id)
    ensures ValidTables(t1, j1)
  {
    EffectKeepsWindows(SnapOf(t0, j0), id, acts);
    EffectKeepsIds(SnapOf(t0, j0), id, acts, t0.nextQueue);
    forall t | t in t1.running && t != id
      ensures t in t0.running && t1.running[t] == t0.running[t]
      ensures t in t1.store <==> t in t0.store
      ensures t in t1.store ==> t1.store[t] == t0.store[t]
    {
    }
  }

  /** A new task: pending record, empty tables, a scheduled runner. */
  lemma NewTaskKeepsValid(t: Tables, j: map<string, seq<Action>>, id: string, req: Request, rec: TaskRecord)
    requires ValidTables(t, j) && id !in j && rec.status == Pending
    ensures ValidTables(t.(store := t.store[id := rec], buffers := t.buffers[id := []],
                           subscribers := t.subscribers[id := []], queues := t.queues[id := []],
                           running := t.running[id := Scheduled(req)]),
                        j[id := []])
  {
    NewTaskKeepsWindows(t.buffers, j, id);
  }

  /** Dropping a task's tables and record keeps the invariant once no runner of it waits for a reply. */
  lemma DropKeepsValid(t: Tables, j: map<string, seq<Action>>, id: string)
    requires ValidTables(t, j) && (id in t.running ==> !t.running[id].AwaitingReply?)
    ensures ValidTables(t.(buffers := t.buffers - {id}, subscribers := t.subscribers - {id},
                           queues := t.queues - {id}, store := t.store - {id}), j)
  {
  }

  /** Replacing one task's subscriber list by queues with identities below the counter keeps the invariant. */
  lemma SubscribersKeepValid(t: Tables, j: map<string, seq<Action>>, id: string, subs: seq<Subscriber>, next: nat)
    requires ValidTables(t, j) && t.nextQueue <= next
    requires forall i :: 0 <= i < |subs| ==> subs[i].id < next
    ensures ValidTables(t.(subscribers := t.subscribers[id := subs], nextQueue := next), j)
  {
  }

  /** A runner that starts from pending or running only moves its task forward. */
  lemma RunnerEvolves(store: map<string, TaskRecord>, id: string, ps: seq<Patch>)
    requires id in store ==> store[id].status == Pending || store[id].status == Running
    ensures Evolves(store, Patched(store, id, ps))
  {
    if id in store {
      ApplyAllKeepsIdentity(store[id], ps);
      if store[id].status == Running {
        ApplyAllNeverPending(store[id], ps);
      }
    }
  }

  /** No runner handle changed and no subscriber queue was created. */
  predicate Steady(a: Tables, b: Tables)
  {
    b.running == a.running && b.detached == a.detached && b.nextQueue == a.nextQueue
  }

  /** Only the runner's own effects changed: handles, reply queues and buffer keys are as before. */
  predicate RunnerFrame(a: Tables, b: Tables)
  {
    b.running == a.running && b.queues == a.queues && b.detached == a.detached && b.nextQueue == a.nextQueue
  }

  function QueueOf(t: Tables, id: string): Option<seq<Reply>>
  {
    if id in t.queues then Some(t.queues[id]) else None
  }

  function RecordOf(t: Tables, id: string): Option<TaskRecord>
  {
    if id in t.store then Some(t.store[id]) else None
  }

  /** The reply queues after the runner of `id` took its first n replies. */
  function Consumed(queues: map<string, seq<Reply>>, id: string, n: nat): map<string, seq<Reply>>
  {
    if id in queues && n <= |queues[id]| then queues[id := queues[id][n..]] else queues
  }

  lemma ConsumedNothing(queues: map<string, seq<Reply>>, id: string)
    ensures Consumed(queues, id, 0) == queues
  {
    if id in queues {
      assert queues[id][0..] == queues[id];
    }
  }

  /** The task's record is still there, under the same identity, exactly when it was at the start. */
  predicate Tracks(rec0: Option<TaskRecord>, store: map<string, TaskRecord>, id: string)
  {
    (id in store) == rec0.Some? && (id in store ==> SameIdentity(rec0.value, store[id]))
  }

  /** The list without its k-th element, as `list.remove` leaves it. */
  function RemoveAt<T>(s: seq<T>, k: nat): (r: seq<T>)
    requires k < |s|
    ensures |r| == |s| - 1
    ensures forall i :: 0 <= i < k ==> r[i] == s[i]
    ensures forall i :: k <= i < |r| ==> r[i] == s[i + 1]
  {
    s[..k] + s[k + 1..]
  }

  /** The queues the subscribers of a deleted task go on holding: the ones it listed, with the
      cancellation's events on them when its runner was waiting for a reply. */
  function Released(t: Tables, id: string, now: string): map<nat, seq<Event>>
  {
    if id !in t.subscribers then t.detached
    else t.detached + Detach(if id in t.running && t.running[id].AwaitingReply?
                             then DeliverAll(t.subscribers[id], Events(Settle(CancelRaised, now)))
                             else t.subscribers[id])
  }

  /** The cancellation puts its events on every queue of the task and on no other. */
  lemma CancelReachesSubscribers(s: Snap, id: string, now: string)
    requires id in s.journal
    ensures var s' := Effect(s, id, Settle(CancelRaised, now));
            (id in s'.subscribers <==> id in s.subscribers)
            && (id in s.subscribers ==>
                  s'.subscribers[id] == DeliverAll(s.subscribers[id], Events(Settle(CancelRaised, now))))
  {
  }

  /** Deleting a task whose runner waits for a reply still ends every live stream of it: a queue
      that held no end event yields what it held, then the cancelled status, and the loop stops. */
  lemma DeletedTaskEndsStreams(t: Tables, id: string, now: string, q: nat)
    requires id in t.subscribers && id in t.running && t.running[id].AwaitingReply?
    requires FindQueue(t.subscribers[id], q).Some?
    requires var p := t.subscribers[id][FindQueue(t.subscribers[id], q).value].pending;
             forall i :: 0 <= i < |p| ==> !EndsStream(p[i])
    ensures q in Released(t, id, now)
    ensures LiveTake(Released(t, id, now)[q])
            == (t.subscribers[id][FindQueue(t.subscribers[id], q).value].pending + [StatusEvent(Cancelled)], true)
  {
    var subs := t.subscribers[id];
    var k := FindQueue(subs, q).value;
    var es := Events(Settle(CancelRaised, now));
    CancelPublishes(now);
    FindQueueDelivered(subs, es, q);
    assert Released(t, id, now)[q] == subs[k].pending + es;
    LiveTakeThroughEnd(subs[k].pending, StatusEvent(Cancelled));
  }

  /** Cancelling publishes exactly the cancelled status. */
  lemma CancelPublishes(now: string)
    ensures Events(Settle(CancelRaised, now)) == [StatusEvent(Cancelled)]
  {
    var a := Settle(CancelRaised, now);
    assert a[1..][1..] == [];
    assert Events(a[1..]) == [StatusEvent(Cancelled)] + Events(a[1..][1..]);
  }

  /** A queue with no end event before its last one yields all of it and ends. */
  lemma LiveTakeThroughEnd(p: seq<Event>, e: Event)
    requires forall i :: 0 <= i < |p| ==> !EndsStream(p[i])
    requires EndsStream(e)
    ensures LiveTake(p + [e]) == (p + [e], true)
  {
    var held := p + [e];
    LiveTakeStopsAtFirstEnd(held);
    assert EndsStream(held[|p|]);
    var got := LiveTake(held).0;
    assert LiveTake(held).1;
    assert got <= held && got != [];
    if |got| < |held| {
      assert false;
    }
    assert got == held[..|got|] == held;
  }

  lemma DetachBelow(subs: seq<Subscriber>, next: nat)
    requires forall i :: 0 <= i < |subs| ==> subs[i].id < next
    ensures KeysBelow(Detach(subs), next)
  {
    forall q | q in Detach(subs) ensures q < next {
      assert subs[FindQueue(subs, q).value].id == q;
    }
  }

  class TaskManager {
    var tables: Tables
    /** Everything each task's runner did since the task was created. */
    ghost var journal: map<string, seq<Action>>

    ghost function Now(): Snap
      reads this
    {
      SnapOf(tables, journal)
    }

    ghost predicate Valid()
      reads this
    {
      ValidTables(tables, journal)
    }

    constructor()
      ensures Valid()
      ensures tables == Tables(map[], map[], map[], map[], map[], map[], 0) && journal == map[]
    {
      tables := Tables(map[], map[], map[], map[], map[], map[], 0);
      journal := map[];
    }

    /** get_running_count: the number of stored tasks whose status is running. */
    function RunningCount(): (n: nat)
      reads this
      ensures n <= |tables.store|
    {
      CountRunningBound(tables.store);
      CountRunning(tables.store)
    }

    static lemma CountRunningBound(s: map<string, TaskRecord>)
      ensures CountRunning(s) <= |s|
    {
      var running := set t | t in s && s[t].status == Running;
      SubsetCard(running, s.Keys);
    }

    static lemma SubsetCard(a: set<string>, b: set<string>)
      requires a <= b
      ensures |a| <= |b|
    {
      if a != {} {
        var x :| x in a;
        SubsetCard(a - {x}, b - {x});
      }
    }

    /** create_task: an unknown agent is an error and changes nothing; otherwise the pending
        record is stored, the task's tables are opened and its runner is scheduled. */
    method CreateTask(agents: map<string, AgentConfig>, req: Request, taskId: string, now: string)
      returns (r: Result<TaskRecord, string>)
      requires Valid() && taskId !in tables.store && taskId !in journal
      modifies this
      ensures Valid()
      ensures req.agentId !in agents ==>
                r == Err("Agent " + req.agentId + " not found")
                && tables == old(tables) && journal == old(journal)
      ensures req.agentId in agents ==>
                r == Ok(NewRecord(taskId, req, agents[req.agentId], now))
                && tables == old(tables).(store := old(tables.store)[taskId := r.value],
                                         buffers := old(tables.buffers)[taskId := []],
                                         subscribers := old(tables.subscribers)[taskId := []],
                                         queues := old(tables.queues)[taskId := []],
                                         running := old(tables.running)[taskId := Scheduled(req)])
                && journal == old(journal)[taskId := []]
      ensures Evolves(old(tables.store), tables.store)
    {
      if req.agentId !in agents {
        return Err("Agent " + req.agentId + " not found");
      }
      var rec := NewRecord(taskId, req, agents[req.agentId], now);
      NewTaskKeepsValid(tables, journal, taskId, req, rec);
      tables := tables.(store := tables.store[taskId := rec],
                        buffers := tables.buffers[taskId := []],
                        subscribers := tables.subscribers[taskId := []],
                        queues := tables.queues[taskId := []],
                        running := tables.running[taskId := Scheduled(req)]);
      journal := journal[taskId := []];
      r := Ok(rec);
    }

    /** _emit_event: buffer the event (bounded) and put it into every subscriber queue. */
    method Emit(id: string, e: Event)
      requires id in journal
      modifies this
      ensures Now() == Effect(old(Now()), id, [Published(e)])
      ensures RunnerFrame(old(tables), tables)
    {
      EffectOfPublish(Now(), id, e);
      var buffers := tables.buffers;
      if id in buffers {
        buffers := buffers[id := Buffered(buffers[id], e)];
      }
      var subscribers := tables.subscribers;
      if id in subscribers {
        var out := Deliver(subscribers[id], e);
        subscribers := subscribers[id := out];
      }
      tables := tables.(buffers := buffers, subscribers := subscribers);
      journal := journal[id := journal[id] + [Published(e)]];
    }

    /** Put the event into every subscriber queue, in registration order. */
    static method Deliver(subs: seq<Subscriber>, e: Event) returns (out: seq<Subscriber>)
      ensures out == DeliverAll(subs, [e])
    {
      out := [];
      for i := 0 to |subs|
        invariant |out| == i
        invariant forall j :: 0 <= j < i ==> out[j] == Subscriber(subs[j].id, subs[j].pending + [e])
      {
        out := out + [Subscriber(subs[i].id, subs[i].pending + [e])];
      }
    }

    /** One store update of the runner (an update of a missing record does nothing). */
    method Persist(id: string, p: Patch)
      requires id in journal
      modifies this
      ensures Now() == Effect(old(Now()), id, [Persisted(p)])
      ensures RunnerFrame(old(tables), tables)
    {
      EffectOfPersist(Now(), id, p);
      if id in tables.store {
        tables := tables.(store := tables.store[id := ApplyPatch(tables.store[id], p)]);
      }
      journal := journal[id := journal[id] + [Persisted(p)]];
    }

    method Perform(id: string, a: Action)
      requires id in journal
      modifies this
      ensures Now() == Effect(old(Now()), id, [a])
      ensures RunnerFrame(old(tables), tables)
    {
      match a
      case Published(e) => Emit(id, e);
      case Persisted(p) => Persist(id, p);
      case Invoked(c) =>
        EffectOfInvoke(Now(), id, c);
        journal := journal[id := journal[id] + [a]];
    }

    method PerformAll(id: string, acts: seq<Action>)
      requires id in journal
      modifies this
      ensures Now() == Effect(old(Now()), id, acts)
      ensures RunnerFrame(old(tables), tables)
    {
      ghost var s0 := Now();
      EffectNothing(s0, id);
      for i := 0 to |acts|
        invariant id in journal
        invariant Now() == Effect(s0, id, acts[..i])
        invariant RunnerFrame(old(tables), tables)
      {
        Perform(id, acts[i]);
        EffectConcat(s0, id, acts[..i], [acts[i]]);
        assert acts[..i] + [acts[i]] == acts[..i + 1];
      }
      assert acts[..|acts|] == acts;
    }

    /** The runner's reaction to one step of the agent stream, carried out. */
    method ProcessStep(id: string, mode: Mode, s: Step, c: Carry, now: string) returns (r: StepResult)
      requires id in journal
      modifies this
      ensures r == Process(mode, s, c, now)
      ensures Now() == Effect(old(Now()), id, r.actions)
      ensures RunnerFrame(old(tables), tables)
    {
      r := Process(mode, s, c, now);
      PerformAll(id, r.actions);
    }

    /** Drive one agent stream to its end or to the step that stops the runner. */
    method Drive(id: string, mode: Mode, steps: seq<Step>, c0: Carry, now: string)
      returns (end: RunEnd, c: Carry)
      requires id in journal
      modifies this
      ensures Drove(id, old(tables), old(Now()), Run(mode, steps, c0, now), end, c)
    {
      ghost var t0 := tables;
      ghost var s0 := Now();
      ghost var acts: seq<Action> := [];
      EffectNothing(s0, id);
      c := c0;
      var i := 0;
      assert steps[0..] == steps;
      while i < |steps|
        invariant i <= |steps|
        invariant Driving(id, t0, s0, Run(mode, steps, c0, now), Run(mode, steps[i..], c, now), acts)
      {
        RunAt(mode, steps, i, c, now);
        var r := ProcessStep(id, mode, steps[i], c, now);
        EffectConcat(s0, id, acts, r.actions);
        if r.stop.Some? {
          return r.stop.value, r.carry;
        }
        PrependPrepend(acts, r.actions, Run(mode, steps[i + 1..], r.carry, now));
        acts := acts + r.actions;
        c := r.carry;
        i := i + 1;
      }
      assert steps[i..] == [];
      assert acts + [] == acts;
      end := Drained;
    }

    /** Part way through a stream: what was done so far, followed by the rest of the run, is the run. */
    ghost predicate Driving(id: string, t0: Tables, s0: Snap, whole: Trace, rest: Trace, acts: seq<Action>)
      reads this
    {
      id in s0.journal && Now() == Effect(s0, id, acts) && whole == Prepend(acts, rest)
      && RunnerFrame(t0, tables)
    }

    /** The stream was driven as the trace says. */
    ghost predicate Drove(id: string, t0: Tables, s0: Snap, t: Trace, end: RunEnd, c: Carry)
      reads this
    {
      id in s0.journal && end == t.end && c == t.carry && Now() == Effect(s0, id, t.actions)
      && RunnerFrame(t0, tables)
    }

    /** The reply loop of a paused runner: it takes queued replies until one lets it return. */
    method AwaitReplies(id: string, p: Parked, gen: Invocation -> seq<Step>, now: string)
      returns (end: PendingEnd, consumed: nat)
      requires id in journal && id in tables.queues
      modifies this
      ensures var pt := PendingLoop(old(tables.queues[id]), RecordOf(old(tables), id), p, gen, now);
              Settled(id, old(tables), old(Now()), old(tables.queues[id]), pt, end, consumed)
    {
      ghost var t0 := tables;
      ghost var s0 := Now();
      ghost var inbox := tables.queues[id];
      ghost var rec0 := RecordOf(tables, id);
      ghost var svs := if rec0.Some? then Outcomes(rec0.value, inbox, p, gen, now) else [];
      ghost var acts: seq<Action> := [];
      EffectNothing(s0, id);
      assert inbox[0..] == inbox && svs[0..] == svs;
      MapUpdateSame(tables.queues, id);
      consumed := 0;
      while true
        invariant Replying(id, t0, s0, inbox, rec0, svs, consumed, acts)
        decreases |tables.queues[id]|
      {
        if tables.queues[id] == [] {
          assert svs[consumed..] == [] && acts + [] == acts;
          return Blocked, consumed;
        }
        var taken;
        ghost var more;
        taken, more := Turn(id, t0, s0, inbox, rec0, svs, consumed, acts, p, gen, now);
        consumed := consumed + 1;
        if taken.Some? {
          return taken.value, consumed;
        }
        acts := acts + more;
      }
    }

    /** The state of the reply loop after `consumed` replies that each asked again. */
    ghost predicate Replying(id: string, t0: Tables, s0: Snap, inbox: seq<Reply>, rec0: Option<TaskRecord>,
                             svs: seq<Served>, consumed: nat, acts: seq<Action>)
      reads this
    {
      id in s0.journal && id in tables.queues && consumed <= |inbox|
      && tables.queues == t0.queues[id := inbox[consumed..]]
      && Now() == Effect(s0, id, acts)
      && Tracks(rec0, tables.store, id)
      && (rec0.None? ==> consumed == 0 && acts == [] && svs == [])
      && (rec0.Some? ==> |svs| == |inbox| && Fold(svs) == PendingPrepend(acts, consumed, Fold(svs[consumed..])))
      && Steady(t0, tables)
    }

    /** The reply loop ended as `pt` says: its end, the replies it took, what it did. */
    ghost predicate Settled(id: string, t0: Tables, s0: Snap, inbox: seq<Reply>, pt: PendingTrace,
                            end: PendingEnd, consumed: nat)
      reads this
    {
      id in s0.journal && end == pt.end && consumed == pt.consumed && consumed <= |inbox|
      && Now() == Effect(s0, id, pt.actions)
      && tables.queues == t0.queues[id := inbox[consumed..]]
      && Steady(t0, tables)
    }

    /** One turn of the reply loop, with its bookkeeping. */
    method Turn(id: string, ghost t0: Tables, ghost s0: Snap, ghost inbox: seq<Reply>, ghost rec0: Option<TaskRecord>,
                ghost svs: seq<Served>, ghost consumed: nat, ghost acts: seq<Action>,
                p: Parked, gen: Invocation -> seq<Step>, now: string)
      returns (taken: Option<PendingEnd>, ghost more: seq<Action>)
      requires Replying(id, t0, s0, inbox, rec0, svs, consumed, acts) && tables.queues[id] != []
      requires rec0 == RecordOf(t0, id) && id in t0.queues && inbox == t0.queues[id]
      requires svs == if rec0.Some? then Outcomes(rec0.value, inbox, p, gen, now) else []
      modifies this
      ensures taken.None? ==> Replying(id, t0, s0, inbox, rec0, svs, consumed + 1, acts + more)
      ensures taken.Some? ==> Settled(id, t0, s0, inbox, PendingLoop(inbox, rec0, p, gen, now), taken.value,
                                      consumed + 1)
    {
      if rec0.Some? {
        FoldAt(svs, consumed);
      }
      taken, more := TakeReply(id, rec0, inbox, consumed, p, gen, now);
      MapUpdateTwice(t0.queues, id, inbox[consumed..], inbox[consumed + 1..]);
      EffectConcat(s0, id, acts, more);
      if taken.None? {
        PendingPrependTwice(acts, consumed, more, 1, Fold(svs[consumed + 1..]));
      } else if rec0.None? {
        assert acts + more == [];
      }
    }

    /** One turn of the reply loop: take the oldest reply and serve it (a vanished task returns). */
    method TakeReply(id: string, ghost rec0: Option<TaskRecord>, ghost inbox: seq<Reply>, ghost k: nat,
                     p: Parked, gen: Invocation -> seq<Step>, now: string)
      returns (taken: Option<PendingEnd>, ghost acts: seq<Action>)
      requires id in journal && id in tables.queues
      requires k < |inbox| && tables.queues[id] == inbox[k..]
      requires Tracks(rec0, tables.store, id)
      modifies this
      ensures rec0.None? ==> taken == Some(Returned) && acts == []
      ensures rec0.Some? ==> var sv := Outcomes(rec0.value, inbox, p, gen, now)[k];
                             taken == sv.end && acts == sv.actions
      ensures tables.queues == old(tables.queues)[id := inbox[k + 1..]]
      ensures Now() == Effect(old(Now()), id, acts)
      ensures Tracks(rec0, tables.store, id)
      ensures Steady(old(tables), tables)
    {
      var msg := tables.queues[id][0];
      assert msg == inbox[k] && tables.queues[id][1..] == inbox[k + 1..];
      tables := tables.(queues := tables.queues[id := tables.queues[id][1..]]);
      if id !in tables.store {
        EffectNothing(Now(), id);
        return Some(Returned), [];
      }
      ghost var s0 := Now();
      OutcomeAt(rec0.value, inbox, p, gen, now, k);
      ghost var sv := ServeOne(rec0.value, msg, p, gen, now);
      ServeOneIdentity(tables.store[id], rec0.value, msg, p, gen, now);
      taken := Serve(id, msg, p, gen, now);
      acts := sv.actions;
      ApplyAllKeepsIdentity(s0.store[id], Patches(acts));
    }

    /** One pass of the reply loop for a stored task. */
    method Serve(id: string, msg: Reply, p: Parked, gen: Invocation -> seq<Step>, now: string)
      returns (served: Option<PendingEnd>)
      requires id in journal && id in tables.store
      modifies this
      ensures var sv := ServeOne(old(tables.store[id]), msg, p, gen, now);
              served == sv.end && Now() == Effect(old(Now()), id, sv.actions)
      ensures RunnerFrame(old(tables), tables)
    {
      ghost var s0 := Now();
      var call := ResumeCall(tables.store[id], msg, p);
      Perform(id, Invoked(call));
      var runEnd, carry := Drive(id, Resuming, gen(call), Carry(p.sessionId, false), now);
      ghost var t := Run(Resuming, gen(call), Carry(p.sessionId, false), now);
      EffectConcat(s0, id, [Invoked(call)], t.actions);
      if runEnd.Faulted? {
        served := Some(Raised(runEnd.reason));
      } else if runEnd.Interrupted? {
        served := Some(CancelRaised);
      } else if runEnd.Drained? && carry.asked {
        served := None;
      } else {
        served := Some(Returned);
      }
    }

    /** _run_task: start a scheduled runner and let it run until it finishes or waits for a reply;
        a finished runner drops its handle. */
    method RunTask(id: string, gen: Invocation -> seq<Step>, now: string)
      requires Valid() && id in tables.running && tables.running[id].Scheduled?
      modifies this
      ensures Valid()
      ensures var a := FirstActivation(old(tables.running[id].request), QueueOf(old(tables), id),
                                       RecordOf(old(tables), id), gen, now);
              Now() == Effect(old(Now()), id, a.actions)
              && tables.running == (if a.waiting.Some? then old(tables.running)[id := AwaitingReply(a.waiting.value)]
                                    else old(tables.running) - {id})
              && tables.queues == Consumed(old(tables.queues), id, a.consumed)
      ensures tables.nextQueue == old(tables.nextQueue)
      ensures Evolves(old(tables.store), tables.store)
    {
      ghost var t0, j0 := tables, journal;
      var req := tables.running[id].request;
      var waiting, a := Activate(id, req, gen, now);
      ghost var r: Option<Runner> := None;
      if waiting.Some? {
        if id in t0.store {
          FirstActivationWaitingIsRunning(req, QueueOf(t0, id), RecordOf(t0, id), gen, now, t0.store[id]);
        }
        r := Some(AwaitingReply(waiting.value));
        tables := tables.(running := tables.running[id := AwaitingReply(waiting.value)]);
      } else {
        tables := tables.(running := tables.running - {id});
      }
      RunKeepsValid(t0, j0, tables, journal, id, a.actions, r);
      RunnerEvolves(t0.store, id, Patches(a.actions));
    }

    /** The body of _run_task, up to the bookkeeping of its handle. */
    method Activate(id: string, req: Request, gen: Invocation -> seq<Step>, now: string)
      returns (waiting: Option<Parked>, ghost a: Activation)
      requires id in journal
      modifies this
      ensures a == FirstActivation(req, QueueOf(old(tables), id), RecordOf(old(tables), id), gen, now)
      ensures waiting == a.waiting
      ensures waiting.Some? ==> id in tables.queues
      ensures Now() == Effect(old(Now()), id, a.actions)
      ensures tables.queues == Consumed(old(tables.queues), id, a.consumed)
      ensures Steady(old(tables), tables)
    {
      ghost var s0 := Now();
      ghost var inbox := QueueOf(tables, id);
      ghost var rec := RecordOf(tables, id);
      var end, carry, call := Start(id, req, gen, now);
      ghost var head := [Persisted(MarkRunning(now)), Published(StatusEvent(Running)), Invoked(call)]
                        + Run(Starting, gen(call), Carry(None, false), now).actions;
      ghost var rest: Activation;
      if end == Paused {
        var parked := Parked(carry.sessionId, req.enableSkills, req.enableMcp);
        ghost var s1 := Now();
        waiting, rest := Interact(id, parked, gen, now);
        if rec.Some? && inbox.Some? {
          ApplyAllKeepsIdentity(s0.store[id], Patches(head));
          PendingLoopIdentity(inbox.value, rec.value, s1.store[id], parked, gen, now);
        }
        assert rest == Interaction(inbox, rec, parked, gen, now);
      } else {
        var settle := Settle(EndAsPending(end), now);
        PerformAll(id, settle);
        waiting := None;
        rest := Activation(settle, None, 0);
        ConsumedNothing(tables.queues, id);
      }
      a := Activation(head + rest.actions, rest.waiting, rest.consumed);
      EffectConcat(s0, id, head, rest.actions);
    }

    /** The start of _run_task: mark the task running, announce it, and drive the first call. */
    method Start(id: string, req: Request, gen: Invocation -> seq<Step>, now: string)
      returns (end: RunEnd, carry: Carry, call: Invocation)
      requires id in journal
      modifies this
      ensures call == FirstCall(req)
      ensures var t := Run(Starting, gen(call), Carry(None, false), now);
              end == t.end && carry == t.carry
              && Now() == Effect(old(Now()), id, [Persisted(MarkRunning(now)), Published(StatusEvent(Running)),
                                                  Invoked(call)] + t.actions)
      ensures RunnerFrame(old(tables), tables)
    {
      ghost var s0 := Now();
      call := FirstCall(req);
      var head := [Persisted(MarkRunning(now)), Published(StatusEvent(Running)), Invoked(call)];
      PerformAll(id, head);
      end, carry := Drive(id, Starting, gen(call), Carry(None, false), now);
      EffectConcat(s0, id, head, Run(Starting, gen(call), Carry(None, false), now).actions);
    }

    /** _handle_pending_interaction and the handlers around it: wait for replies after a question,
        then settle how the loop ended. */
    method Interact(id: string, parked: Parked, gen: Invocation -> seq<Step>, now: string)
      returns (waiting: Option<Parked>, ghost a: Activation)
      requires id in journal
      modifies this
      ensures a == Interaction(QueueOf(old(tables), id), RecordOf(old(tables), id), parked, gen, now)
      ensures waiting == a.waiting
      ensures waiting.Some? ==> id in tables.queues
      ensures Now() == Effect(old(Now()), id, a.actions)
      ensures tables.queues == Consumed(old(tables.queues), id, a.consumed)
      ensures Steady(old(tables), tables)
    {
      ghost var s0 := Now();
      if id !in tables.queues {
        EffectNothing(s0, id);
        return None, Activation([], None, 0);
      }
      ghost var pt := PendingLoop(tables.queues[id], RecordOf(tables, id), parked, gen, now);
      var pend, consumed := AwaitReplies(id, parked, gen, now);
      var settle := Settle(pend, now);
      PerformAll(id, settle);
      EffectConcat(s0, id, pt.actions, settle);
      waiting := if pend == Blocked then Some(parked) else None;
      a := Activation(pt.actions + settle, waiting, consumed);
    }

    /** A runner waiting at the reply gate takes the replies queued since and carries on. */
    method Wake(id: string, gen: Invocation -> seq<Step>, now: string)
      requires Valid() && id in tables.running && tables.running[id].AwaitingReply?
      modifies this
      ensures Valid()
      ensures var a := Interaction(QueueOf(old(tables), id), RecordOf(old(tables), id),
                                   old(tables.running[id].parked), gen, now);
              Now() == Effect(old(Now()), id, a.actions)
              && tables.running == (if a.waiting.Some? then old(tables.running) else old(tables.running) - {id})
              && tables.queues == Consumed(old(tables.queues), id, a.consumed)
      ensures tables.nextQueue == old(tables.nextQueue)
      ensures Evolves(old(tables.store), tables.store)
    {
      ghost var t0, j0 := tables, journal;
      var p := tables.running[id].parked;
      var waiting, a := Interact(id, p, gen, now);
      ghost var r: Option<Runner> := None;
      if waiting.Some? {
        if id in t0.store {
          WaitingInteractionKeepsStatus(t0.queues[id], RecordOf(t0, id), p, gen, now, t0.store[id]);
        }
        r := Some(AwaitingReply(p));
      } else {
        tables := tables.(running := tables.running - {id});
      }
      RunKeepsValid(t0, j0, tables, journal, id, a.actions, r);
      RunnerEvolves(t0.store, id, Patches(a.actions));
    }

    /** cancel_task: false without a handle. A runner waiting for a reply is cancelled there and
        records the cancellation; one that never started is cancelled before its body runs, so it
        changes nothing and its handle stays. */
    method CancelTask(id: string, now: string) returns (ok: bool)
      requires Valid()
      modifies this
      ensures Valid()
      ensures ok == (id in old(tables.running))
      ensures !ok ==> tables == old(tables) && journal == old(journal)
      ensures ok && old(tables.running[id]).AwaitingReply? ==>
                Now() == Effect(old(Now()), id, Settle(CancelRaised, now))
                && tables.running == old(tables.running) - {id}
      ensures ok && !old(tables.running[id]).AwaitingReply? ==>
                Now() == old(Now()) && tables.running == old(tables.running)[id := Aborted]
      ensures tables.queues == old(tables.queues) && tables.detached == old(tables.detached)
      ensures tables.nextQueue == old(tables.nextQueue)
      ensures Evolves(old(tables.store), tables.store)
    {
      if id !in tables.running {
        return false;
      }
      ok := true;
      if tables.running[id].AwaitingReply? {
        ghost var t0, j0 := tables, journal;
        var settle := Settle(CancelRaised, now);
        PerformAll(id, settle);
        tables := tables.(running := tables.running - {id});
        RunKeepsValid(t0, j0, tables, journal, id, settle, None);
        RunnerEvolves(t0.store, id, Patches(settle));
      } else {
        tables := tables.(running := tables.running[id := Aborted]);
      }
    }

    /** send_message: queue a reply when the task has a reply queue and is running. */
    method SendMessage(id: string, r: Reply) returns (ok: bool)
      requires Valid()
      modifies this
      ensures Valid() && journal == old(journal)
      ensures ok == (id in old(tables.queues) && id in old(tables.store) && old(tables.store[id]).status == Running)
      ensures ok ==> tables == old(tables).(queues := old(tables.queues)[id := old(tables.queues[id]) + [r]])
      ensures !ok ==> tables == old(tables)
    {
      if id !in tables.queues {
        return false;
      }
      if id !in tables.store || tables.store[id].status != Running {
        return false;
      }
      tables := tables.(queues := tables.queues[id := tables.queues[id] + [r]]);
      ok := true;
    }

    /** delete_task: cancel a runner that has a handle, drop the task's tables and its record;
        the answer says whether the store had the record. The subscribers still hold their queues,
        with whatever the cancellation put on them. */
    method DeleteTask(id: string, now: string) returns (deleted: bool)
      requires Valid()
      modifies this
      ensures Valid()
      ensures deleted == (id in old(tables.store))
      ensures tables == old(tables).(
                running := if id in old(tables.running) && old(tables.running[id]).AwaitingReply?
                           then old(tables.running) - {id}
                           else if id in old(tables.running) then old(tables.running)[id := Aborted]
                           else old(tables.running),
                buffers := old(tables.buffers) - {id}, subscribers := old(tables.subscribers) - {id},
                queues := old(tables.queues) - {id}, store := old(tables.store) - {id},
                detached := Released(old(tables), id, now))
    {
      ghost var s0, t0 := Now(), tables;
      if id in tables.running {
        ghost var parked := tables.running[id].AwaitingReply?;
        var _ := CancelTask(id, now);
        if parked {
          CancelReachesSubscribers(s0, id, now);
        }
      }
      assert Released(t0, id, now) == if id in tables.subscribers then t0.detached + Detach(tables.subscribers[id])
                                      else t0.detached;
      deleted := id in tables.store;
      Drop(id);
      if id in s0.journal {
        DropAfterEffect(s0, id, Settle(CancelRaised, now));
      }
    }

    /** The pops of delete_task: the task's buffer, subscriber list, reply queue and record go,
        while its subscribers keep the queues they hold. */
    method Drop(id: string)
      requires Valid() && (id in tables.running ==> !tables.running[id].AwaitingReply?)
      modifies this
      ensures Valid() && journal == old(journal)
      ensures tables == old(tables).(
                buffers := old(tables.buffers) - {id}, subscribers := old(tables.subscribers) - {id},
                queues := old(tables.queues) - {id}, store := old(tables.store) - {id},
                detached := if id in old(tables.subscribers) then old(tables.detached) + Detach(old(tables.subscribers[id]))
                            else old(tables.detached))
    {
      DropKeepsValid(tables, journal, id);
      var held := tables.detached;
      if id in tables.subscribers {
        DetachBelow(tables.subscribers[id], tables.nextQueue);
        held := held + Detach(tables.subscribers[id]);
      }
      tables := tables.(buffers := tables.buffers - {id}, subscribers := tables.subscribers - {id},
                        queues := tables.queues - {id}, store := tables.store - {id}, detached := held);
    }

    /** subscribe, up to its live loop: register a new queue, then read the replay buffer. */
    method Subscribe(id: string) returns (q: nat, replay: seq<Event>)
      requires Valid()
      modifies this
      ensures Valid() && journal == old(journal)
      ensures q == old(tables.nextQueue)
      ensures tables == old(tables).(
                subscribers := old(tables.subscribers)[id := (if id in old(tables.subscribers)
                                                              then old(tables.subscribers[id]) else [])
                                                             + [Subscriber(q, [])]],
                nextQueue := q + 1)
      ensures replay == if id in tables.buffers then tables.buffers[id] else []
      ensures id in tables.buffers ==> replay == Window(Events(journal[id]))
    {
      q := tables.nextQueue;
      var subs := if id in tables.subscribers then tables.subscribers[id] else [];
      assert forall i :: 0 <= i < |subs| ==> subs[i].id < q;
      SubscribersKeepValid(tables, journal, id, subs + [Subscriber(q, [])], q + 1);
      tables := tables.(subscribers := tables.subscribers[id := subs + [Subscriber(q, [])]], nextQueue := q + 1);
      replay := if id in tables.buffers then tables.buffers[id] else [];
    }

    /** The live loop of subscribe over what its queue holds now: events up to and including the
        first one that ends the stream; on that one the subscription ends and its queue is removed.
        A queue the task no longer lists is read where its subscriber still holds it. */
    method Receive(id: string, q: nat) returns (got: seq<Event>, done: bool)
      requires Valid()
      modifies this
      ensures Valid() && journal == old(journal)
      ensures id in old(tables.subscribers) && FindQueue(old(tables.subscribers[id]), q).Some? ==>
                var subs := old(tables.subscribers[id]);
                var k := FindQueue(subs, q).value;
                (got, done) == LiveTake(subs[k].pending)
                && tables == old(tables).(subscribers := old(tables.subscribers)[id :=
                     if done then RemoveAt(subs, k)
                     else subs[k := Subscriber(q, subs[k].pending[|got|..])]])
      ensures (id !in old(tables.subscribers) || FindQueue(old(tables.subscribers[id]), q).None?)
              && q in old(tables.detached) ==>
                (got, done) == LiveTake(old(tables.detached[q]))
                && tables == old(tables).(detached := if done then old(tables.detached) - {q}
                                                      else old(tables.detached)[q := old(tables.detached[q])[|got|..]])
      ensures (id !in old(tables.subscribers) || FindQueue(old(tables.subscribers[id]), q).None?)
              && q !in old(tables.detached) ==>
                got == [] && !done && tables == old(tables)
    {
      if id in tables.subscribers {
        var subs := tables.subscribers[id];
        var found := FindQueue(subs, q);
        if found.Some? {
          var k := found.value;
          got, done := TakeLive(subs[k].pending);
          LiveTakeStopsAtFirstEnd(subs[k].pending);
          var rest := if done then RemoveAt(subs, k) else subs[k := Subscriber(q, subs[k].pending[|got|..])];
          assert forall i :: 0 <= i < |subs| ==> subs[i].id < tables.nextQueue;
          SubscribersKeepValid(tables, journal, id, rest, tables.nextQueue);
          tables := tables.(subscribers := tables.subscribers[id := rest]);
          return;
        }
      }
      if q !in tables.detached {
        return [], false;
      }
      var pending := tables.detached[q];
      got, done := TakeLive(pending);
      LiveTakeStopsAtFirstEnd(pending);
      tables := tables.(detached := if done then tables.detached - {q} else tables.detached[q := pending[|got|..]]);
    }

    /** The live loop itself: take events until one ends the stream. */
    static method TakeLive(pending: seq<Event>) returns (got: seq<Event>, done: bool)
      ensures (got, done) == LiveTake(pending)
    {
      got, done := [], false;
      var i := 0;
      assert pending[0..] == pending;
      while i < |pending| && !done
        invariant 0 <= i <= |pending|
        invariant got == pending[..i]
        invariant done ==> LiveTake(pending) == (got, true)
        invariant !done ==> LiveTake(pending).0 == got + LiveTake(pending[i..]).0
                            && LiveTake(pending).1 == LiveTake(pending[i..]).1
      {
        LiveTakeAt(pending, i);
        ghost var rest := LiveTake(pending[i + 1..]);
        assert got + ([pending[i]] + rest.0) == got + [pending[i]] + rest.0;
        assert pending[..i + 1] == got + [pending[i]];
        got := got + [pending[i]];
        if EndsStream(pending[i]) {
          done := true;
        }
        i := i + 1;
      }
      if !done {
        assert pending[i..] == [];
        assert got + [] == got;
      }
    }

    /** The finally block of subscribe: remove this queue; an absent task id is skipped (the queue
        is then released by its subscriber) and a missing queue is a ValueError, reported as false
        with nothing changed. */
    method Unsubscribe(id: string, q: nat) returns (ok: bool)
      requires Valid()
      modifies this
      ensures Valid() && journal == old(journal)
      ensures ok == (id !in old(tables.subscribers) || FindQueue(old(tables.subscribers[id]), q).Some?)
      ensures id in old(tables.subscribers) && ok ==>
                tables == old(tables).(subscribers := old(tables.subscribers)[id :=
                  RemoveAt(old(tables.subscribers[id]), FindQueue(old(tables.subscribers[id]), q).value)])
      ensures id !in old(tables.subscribers) ==> tables == old(tables).(detached := old(tables.detached) - {q})
      ensures id in old(tables.subscribers) && !ok ==> tables == old(tables)
    {
      if id !in tables.subscribers {
        tables := tables.(detached := tables.detached - {q});
        return true;
      }
      var subs := tables.subscribers[id];
      var found := FindQueue(subs, q);
      if found.None? {
        return false;
      }
      var rest := RemoveAt(subs, found.value);
      assert forall i :: 0 <= i < |subs| ==> subs[i].id < tables.nextQueue;
      SubscribersKeepValid(tables, journal, id, rest, tables.nextQueue);
      tables := tables.(subscribers := tables.subscribers[id := rest]);
      ok := true;
    }

    /** _schedule_buffer_cleanup once its delay is over (it is scheduled when a runner ends):
        with subscribers left it reschedules and changes nothing, otherwise it drops the task's
        buffer, subscriber list and reply queue. */
    method ExpireBuffers(id: string) returns (cleaned: bool)
      requires Valid() && id !in tables.running
      modifies this
      ensures Valid() && journal == old(journal)
      ensures cleaned == !(id in old(tables.subscribers) && |old(tables.subscribers[id])| > 0)
      ensures cleaned ==> tables == old(tables).(buffers := old(tables.buffers) - {id},
                                                 subscribers := old(tables.subscribers) - {id},
                                                 queues := old(tables.queues) - {id})
      ensures !cleaned ==> tables == old(tables)
    {
      if id in tables.subscribers && |tables.subscribers[id]| > 0 {
        return false;
      }
      tables := tables.(buffers := tables.buffers - {id}, subscribers := tables.subscribers - {id},
                        queues := tables.queues - {id});
      cleaned := true;
    }
  }

  // ---------------------------------------------------------------- quiet runs

  /** Patches that leave the status alone. */
  predicate OnlySessionPatches(ps: seq<Patch>)
  {
    forall i :: 0 <= i < |ps| ==> ps[i].SetSession?
  }

  lemma {:induction false} SessionPatchesKeepStatus(r: TaskRecord, ps: seq<Patch>)
    requires OnlySessionPatches(ps)
    ensures ApplyAll(r, ps).status == r.status
    decreases |ps|
  {
    if ps != [] {
      SessionPatchesKeepStatus(ApplyPatch(r, ps[0]), ps[1..]);
    }
  }

  /** A run that did not conclude wrote nothing but the session id. */
  lemma {:induction false} UnconcludedRunIsQuiet(mode: Mode, steps: seq<Step>, c: Carry, now: string)
    requires Run(mode, steps, c, now).end != Concluded
    ensures OnlySessionPatches(Patches(Run(mode, steps, c, now).actions))
    decreases |steps|
  {
    if steps != [] {
      var r := Process(mode, steps[0], c, now);
      assert OnlySessionPatches(Patches(r.actions)) by {
        if steps[0].Yield? {
          var e := steps[0].event;
          var pre := (if mode == Starting && e.SessionStart? then [Persisted(SetSession(e.sessionId))] else [])
                     + [Published(e)];
          PatchesConcat(if mode == Starting && e.SessionStart? then [Persisted(SetSession(e.sessionId))] else [],
                        [Published(e)]);
          assert Patches([Published(e)]) == [];
          if mode == Starting && e.SessionStart? {
            assert Patches([Persisted(SetSession(e.sessionId))]) == [SetSession(e.sessionId)];
          } else {
            assert Patches([]) == [];
          }
          assert r.actions == pre;
        } else {
          assert Patches([]) == [];
        }
      }
      if r.stop.None? {
        UnconcludedRunIsQuiet(mode, steps[1..], r.carry, now);
        PatchesConcat(r.actions, Run(mode, steps[1..], r.carry, now).actions);
      }
    }
  }

  /** A resumed pass that asked again wrote nothing but the session id. */
  lemma ServeOneQuiet(rec: TaskRecord, r: Reply, p: Parked, gen: Invocation -> seq<Step>, now: string)
    requires ServeOne(rec, r, p, gen, now).end.None?
    ensures OnlySessionPatches(Patches(ServeOne(rec, r, p, gen, now).actions))
  {
    var call := ResumeCall(rec, r, p);
    var t := Run(Resuming, gen(call), Carry(p.sessionId, false), now);
    UnconcludedRunIsQuiet(Resuming, gen(call), Carry(p.sessionId, false), now);
    PatchesConcat([Invoked(call)], t.actions);
    assert Patches([Invoked(call)]) == [];
  }

  lemma {:induction false} BlockedFoldIsQuiet(svs: seq<Served>)
    requires Fold(svs).end == Blocked
    requires NeverBlocked(svs)
    requires forall i :: 0 <= i < |svs| && svs[i].end.None? ==> OnlySessionPatches(Patches(svs[i].actions))
    ensures OnlySessionPatches(Patches(Fold(svs).actions))
    decreases |svs|
  {
    if svs == [] {
      assert Patches([]) == [];
    } else {
      assert svs[0].end != Some(Blocked);
      BlockedFoldIsQuiet(svs[1..]);
      PatchesConcat(svs[0].actions, Fold(svs[1..]).actions);
    }
  }

  /** A reply loop that ran out of replies wrote nothing but session ids. */
  lemma BlockedLoopIsQuiet(inbox: seq<Reply>, rec: Option<TaskRecord>, p: Parked,
                           gen: Invocation -> seq<Step>, now: string)
    requires PendingLoop(inbox, rec, p, gen, now).end == Blocked
    ensures OnlySessionPatches(Patches(PendingLoop(inbox, rec, p, gen, now).actions))
  {
    if inbox == [] {
      assert Patches([]) == [];
    } else {
      var svs := Outcomes(rec.value, inbox, p, gen, now);
      OutcomesNeverBlocked(rec.value, inbox, p, gen, now);
      forall i | 0 <= i < |svs| && svs[i].end.None? ensures OnlySessionPatches(Patches(svs[i].actions)) {
        OutcomeAt(rec.value, inbox, p, gen, now, i);
        ServeOneQuiet(rec.value, inbox[i], p, gen, now);
      }
      BlockedFoldIsQuiet(svs);
    }
  }

  /** The shape of a first activation that ends up waiting for a reply. */
  lemma WaitingActivationShape(req: Request, inbox: Option<seq<Reply>>, rec: Option<TaskRecord>,
                               gen: Invocation -> seq<Step>, now: string)
    requires FirstActivation(req, inbox, rec, gen, now).waiting.Some?
    ensures var call := FirstCall(req);
            var t := Run(Starting, gen(call), Carry(None, false), now);
            var p := Parked(t.carry.sessionId, req.enableSkills, req.enableMcp);
            t.end == Paused && inbox.Some? && PendingLoop(inbox.value, rec, p, gen, now).end == Blocked
            && FirstActivation(req, inbox, rec, gen, now).actions
               == [Persisted(MarkRunning(now))]
                  + ([Published(StatusEvent(Running)), Invoked(call)] + t.actions
                     + PendingLoop(inbox.value, rec, p, gen, now).actions)
  {
    var call := FirstCall(req);
    var t := Run(Starting, gen(call), Carry(None, false), now);
    var p := Parked(t.carry.sessionId, req.enableSkills, req.enableMcp);
    var pt := PendingLoop(inbox.value, rec, p, gen, now);
    assert Settle(Blocked, now) == [];
    assert pt.actions + [] == pt.actions;
  }

  /** A runner left waiting for a reply leaves its task running. */
  lemma FirstActivationWaitingIsRunning(req: Request, inbox: Option<seq<Reply>>, rec: Option<TaskRecord>,
                                        gen: Invocation -> seq<Step>, now: string, r: TaskRecord)
    requires FirstActivation(req, inbox, rec, gen, now).waiting.Some?
    ensures ApplyAll(r, Patches(FirstActivation(req, inbox, rec, gen, now).actions)).status == Running
  {
    WaitingActivationShape(req, inbox, rec, gen, now);
    var call := FirstCall(req);
    var t := Run(Starting, gen(call), Carry(None, false), now);
    var p := Parked(t.carry.sessionId, req.enableSkills, req.enableMcp);
    var pt := PendingLoop(inbox.value, rec, p, gen, now);
    var tail := [Published(StatusEvent(Running)), Invoked(call)] + t.actions + pt.actions;
    UnconcludedRunIsQuiet(Starting, gen(call), Carry(None, false), now);
    BlockedLoopIsQuiet(inbox.value, rec, p, gen, now);
    assert OnlySessionPatches(Patches(tail)) by {
      var two := [Published(StatusEvent(Running)), Invoked(call)];
      assert Patches(two) == [] by {
        assert two[1..][1..] == [];
      }
      PatchesConcat(two, t.actions);
      PatchesConcat(two + t.actions, pt.actions);
    }
    PatchesConcat([Persisted(MarkRunning(now))], tail);
    assert Patches([Persisted(MarkRunning(now))]) == [MarkRunning(now)];
    var ps := [MarkRunning(now)] + Patches(tail);
    assert ps[0] == MarkRunning(now) && ps[1..] == Patches(tail);
    SessionPatchesKeepStatus(ApplyPatch(r, MarkRunning(now)), Patches(tail));
  }

  /** A runner that goes back to waiting after taking replies leaves its task's status alone. */
  lemma WaitingInteractionKeepsStatus(inbox: seq<Reply>, rec: Option<TaskRecord>, p: Parked,
                                      gen: Invocation -> seq<Step>, now: string, r: TaskRecord)
    requires Interaction(Some(inbox), rec, p, gen, now).waiting.Some?
    ensures ApplyAll(r, Patches(Interaction(Some(inbox), rec, p, gen, now).actions)).status == r.status
  {
    var pt := PendingLoop(inbox, rec, p, gen, now);
    BlockedLoopIsQuiet(inbox, rec, p, gen, now);
    assert Settle(Blocked, now) == [];
    assert pt.actions + [] == pt.actions;
    SessionPatchesKeepStatus(r, Patches(pt.actions));
  }

  // ---------------------------------------------------------------- what a run publishes

  /** The events the agent stream yields, in order. */
  function Yields(steps: seq<Step>): (es: seq<Event>)
    ensures |es| <= |steps|
    decreases |steps|
  {
    if steps == [] then [] else (if steps[0].Yield? then [steps[0].event] else []) + Yields(steps[1..])
  }

  /** One step publishes its own event, if it is one, and nothing else. */
  lemma StepPublishes(mode: Mode, s: Step, c: Carry, now: string)
    ensures Events(Process(mode, s, c, now).actions) == if s.Yield? then [s.event] else []
  {
    if s.Yield? {
      var e := s.event;
      var pre := (if mode == Starting && e.SessionStart? then [Persisted(SetSession(e.sessionId))] else [])
                 + [Published(e)];
      assert Events(pre) == [e] by {
        if mode == Starting && e.SessionStart? {
          assert pre[1..] == [Published(e)];
        }
      }
      if e.ErrorEvent? || e.ResultEvent? {
        var fin := Process(mode, s, c, now).actions[|pre|];
        EventsConcat(pre, [fin]);
        assert Events([fin]) == [];
      }
    } else {
      assert Events([]) == [];
    }
  }

  /** A run publishes exactly the events of the first k steps of the stream, in order, and all of
      them when it drained the stream. */
  lemma {:induction false} RunPublishesYields(mode: Mode, steps: seq<Step>, c: Carry, now: string)
    returns (k: nat)
    ensures k <= |steps| && Events(Run(mode, steps, c, now).actions) == Yields(steps[..k])
    ensures Run(mode, steps, c, now).end == Drained ==> k == |steps|
    decreases |steps|
  {
    if steps == [] {
      assert Events([]) == [];
      return 0;
    }
    var r := Process(mode, steps[0], c, now);
    StepPublishes(mode, steps[0], c, now);
    var head := if steps[0].Yield? then [steps[0].event] else [];
    assert Yields(steps[..1]) == head by {
      assert steps[..1][1..] == [];
    }
    if r.stop.Some? {
      return 1;
    }
    var k' := RunPublishesYields(mode, steps[1..], r.carry, now);
    k := k' + 1;
    EventsConcat(r.actions, Run(mode, steps[1..], r.carry, now).actions);
    assert steps[..k][0] == steps[0] && steps[..k][1..] == steps[1..][..k'];
  }

  /** The store update that concludes a run on a result or an error event. */
  function Conclusion(e: Event, now: string): (p: Patch)
    ensures IsFinalPatch(p)
  {
    if e.ErrorEvent? then MarkFailed(now, e.error) else MarkCompleted(now)
  }

  /** A run that concluded did so on a result or error event: it published that event, then wrote
      the final status, and wrote nothing but the session id before. */
  lemma {:induction false} ConcludedRunShape(mode: Mode, steps: seq<Step>, c: Carry, now: string)
    returns (pre: seq<Action>, e: Event)
    requires Run(mode, steps, c, now).end == Concluded
    ensures e.ResultEvent? || e.ErrorEvent?
    ensures Run(mode, steps, c, now).actions == pre + [Published(e), Persisted(Conclusion(e, now))]
    ensures OnlySessionPatches(Patches(pre))
    decreases |steps|
  {
    var r := Process(mode, steps[0], c, now);
    var s := steps[0].event;
    var session := if mode == Starting && s.SessionStart? then [Persisted(SetSession(s.sessionId))] else [];
    assert OnlySessionPatches(Patches(session)) by {
      if session != [] {
        assert session[1..] == [];
      }
    }
    if r.stop.Some? {
      pre, e := session, s;
      return;
    }
    assert r.actions == session + [Published(s)];
    var rest, e' := ConcludedRunShape(mode, steps[1..], r.carry, now);
    pre, e := r.actions + rest, e';
    assert Patches([Published(s)]) == [];
    PatchesConcat(session, [Published(s)]);
    PatchesConcat(r.actions, rest);
    SessionPatchesConcat(Patches(r.actions), Patches(rest));
  }

  lemma SessionPatchesConcat(a: seq<Patch>, b: seq<Patch>)
    requires OnlySessionPatches(a) && OnlySessionPatches(b)
    ensures OnlySessionPatches(a + b)
  {
  }

  /** A concluded run leaves its task completed on a result event and failed, with the event's
      error text, on an error event; either way with a completion time. */
  lemma ConcludedRunStatus(r: TaskRecord, mode: Mode, steps: seq<Step>, c: Carry, now: string)
    returns (e: Event)
    requires Run(mode, steps, c, now).end == Concluded
    ensures var r' := ApplyAll(r, Patches(Run(mode, steps, c, now).actions));
            (e.ResultEvent? && r'.status == Completed) || (e.ErrorEvent? && r'.status == Failed && r'.error == e.error)
    ensures ApplyAll(r, Patches(Run(mode, steps, c, now).actions)).completedAt == Some(now)
    ensures Events(Run(mode, steps, c, now).actions) != []
            && Events(Run(mode, steps, c, now).actions)[|Events(Run(mode, steps, c, now).actions)| - 1] == e
  {
    var pre;
    pre, e := ConcludedRunShape(mode, steps, c, now);
    var p := Conclusion(e, now);
    var tail := [Published(e), Persisted(p)];
    assert Patches(tail) == [p] && Events(tail) == [e] by {
      assert tail[1..] == [Persisted(p)] && tail[1..][1..] == [];
    }
    PatchesConcat(pre, tail);
    EventsConcat(pre, tail);
    ApplyAllConcat(r, Patches(pre), [p]);
    SessionPatchesKeepStatus(r, Patches(pre));
    assert ApplyAll(ApplyAll(r, Patches(pre)), [p]) == ApplyPatch(ApplyAll(r, Patches(pre)), p);
  }

  /** The runner's handlers: a fault fails the task with its text and then publishes an error event;
      a cancellation cancels the task and then publishes the cancelled status. */
  lemma SettleOutcome(r: TaskRecord, end: PendingEnd, now: string)
    requires end.Raised? || end.CancelRaised?
    ensures var r' := ApplyAll(r, Patches(Settle(end, now)));
            var es := Events(Settle(end, now));
            (end.Raised? ==> r'.status == Failed && r'.error == Some(end.reason)
                             && es == [ErrorEvent(Some(end.reason))])
            && (end.CancelRaised? ==> r'.status == Cancelled && es == [StatusEvent(Cancelled)])
            && r'.completedAt == Some(now) && SameIdentity(r, r')
  {
    var a := Settle(end, now);
    assert a[1..][1..] == [];
    assert Patches(a) == [a[0].patch];
    assert Events(a) == [a[1].event];
    assert ApplyAll(r, [a[0].patch]) == ApplyAll(ApplyPatch(r, a[0].patch), []);
  }
}
